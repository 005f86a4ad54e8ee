/** The user handlers (server/controller/user.controller.js): fetch, update, and the role policy
    of disabling and enabling an account. */
module UserController {
  import opened Js
  import opened Responder
  import opened AuthModel
  import opened GetId

  /** `{ user }`, the data of every success envelope here. */
  datatype UserPayload = UserPayload(user: User)

  const UserNotFound := "User not found"
  const UpdateFailed := "Failed to update user"

  /** `getUserById`. */
  function GetUserById(users: map<UserId, User>, id: UserId): (r: Response<UserPayload>)
    ensures r.Success() <==> id in users
    ensures r.Success() ==> r == Ok("User fetched successfully", UserPayload(users[id]), 200)
    ensures !r.Success() ==> r == Fail(UserNotFound, 404)
  {
    if id !in users then Fail(UserNotFound, 404)
    else Ok("User fetched successfully", UserPayload(users[id]), 200)
  }

  /** The keys of `req.body` that reach the stored user; `None` is an absent key. Keys the schema
      does not declare are dropped by strict mode and do not appear. */
  datatype UserUpdate = UserUpdate(
    name: Option<string>,
    email: Option<string>,
    password: Option<string>,
    phone: Option<string>,
    profileImage: Option<string>,
    isVerified: Option<bool>,
    addresses: Option<seq<Address>>,
    role: Option<Role>)

  /** `findByIdAndUpdate(id, updates)` on one user: each given key replaces the stored value after
      the schema's setters (trim on `name` and `phone`, lower-case then trim on `email`); no
      validator runs. */
  function ApplyUserUpdate(u: User, upd: UserUpdate): (r: User)
    ensures r.name == (if upd.name.Some? then Some(Trim(upd.name.value)) else u.name)
    ensures r.email == (if upd.email.Some? then Some(NormalizeEmail(upd.email.value)) else u.email)
    ensures r.password == (if upd.password.Some? then upd.password else u.password)
    ensures r.phone == (if upd.phone.Some? then Trim(upd.phone.value) else u.phone)
    ensures r.profileImage == (if upd.profileImage.Some? then upd.profileImage else u.profileImage)
    ensures r.isVerified == (if upd.isVerified.Some? then upd.isVerified.value else u.isVerified)
    ensures r.addresses == (if upd.addresses.Some? then upd.addresses.value else u.addresses)
    ensures r.role == (if upd.role.Some? then upd.role.value else u.role)
    ensures r.otp == u.otp && r.otpExpiresAt == u.otpExpiresAt && r.disabled == u.disabled
  {
    var name := if upd.name.Some? then Some(Trim(upd.name.value)) else u.name;
    var email := if upd.email.Some? then Some(NormalizeEmail(upd.email.value)) else u.email;
    var phone := if upd.phone.Some? then Trim(upd.phone.value) else u.phone;
    User(name, email, if upd.password.Some? then upd.password else u.password, phone,
         if upd.profileImage.Some? then upd.profileImage else u.profileImage, u.otp, u.otpExpiresAt,
         Or(upd.isVerified, u.isVerified), Or(upd.addresses, u.addresses), Or(upd.role, u.role), u.disabled)
  }

  /** An empty body leaves the user as stored. */
  lemma EmptyUserUpdate(u: User)
    ensures ApplyUserUpdate(u, UserUpdate(None, None, None, None, None, None, None, None)) == u
  {
  }

  /** `updateUser`: an update that would give another user's phone or email is refused by the
      unique index and answered by the catch block. */
  method UpdateUser(db: UserStore, id: UserId, upd: UserUpdate) returns (r: Response<UserPayload>)
    requires db.Valid()
    modifies db
    ensures db.Valid()
    ensures id !in old(db.users) ==> r == Fail(UserNotFound, 404) && db.users == old(db.users)
    ensures id in old(db.users) && Conflicts(old(db.users), id, ApplyUserUpdate(old(db.users)[id], upd)) ==>
      r == Crash(UpdateFailed) && db.users == old(db.users)
    ensures id in old(db.users) && !Conflicts(old(db.users), id, ApplyUserUpdate(old(db.users)[id], upd)) ==>
      && db.users == old(db.users)[id := ApplyUserUpdate(old(db.users)[id], upd)]
      && r == Ok("User updated successfully", UserPayload(db.users[id]), 200)
  {
    if id !in db.users {
      return Fail(UserNotFound, 404);
    }
    var updated := ApplyUserUpdate(db.users[id], upd);
    if Conflicts(db.users, id, updated) {
      return Crash(UpdateFailed);
    }
    StoreKeepsUnique(db.users, id, updated);
    db.users := db.users[id := updated];
    r := Ok("User updated successfully", UserPayload(updated), 200);
  }

  /** `disableUser` and `enableUser` differ only in the flag they set and in their texts. */
  datatype Action = Disable | Enable

  function Verb(a: Action): string {
    match a
    case Disable => "disable"
    case Enable => "enable"
  }

  function Done(a: Action): string {
    "User " + Verb(a) + "d successfully"
  }

  /** The three refusals of the role checks. */
  datatype Denial = SuperadminOnly | CustomersOnly | NotPermitted

  function DenialMessage(a: Action, d: Denial): string {
    match d
    case SuperadminOnly => "Superadmin account cannot be " + Verb(a) + "d by non-superadmin"
    case CustomersOnly => "Admins can only " + Verb(a) + " customer accounts"
    case NotPermitted => "You are not authorized to " + Verb(a) + " accounts"
  }

  function ActionFailed(a: Action): string {
    "Failed to " + Verb(a) + " user"
  }

  /** The three role checks in the handlers' order; `None` lets the change through. */
  function RoleCheck(requester: Role, target: Role): (r: Option<Denial>)
    ensures r == Some(SuperadminOnly) <==> target.Superadmin? && !requester.Superadmin?
    ensures r == Some(CustomersOnly) <==> requester.Admin? && target.Admin?
    ensures r == Some(NotPermitted) <==> requester.Customer? && !target.Superadmin?
    ensures r.None? <==> requester.Superadmin? || (requester.Admin? && target.Customer?)
  {
    if target == Superadmin && requester != Superadmin then Some(SuperadminOnly)
    else if requester == Admin && target != Customer then Some(CustomersOnly)
    else if requester == Customer then Some(NotPermitted)
    else None
  }

  /** A customer never changes an account, and nobody but a superadmin changes a superadmin's. */
  lemma RolePolicy(requester: Role, target: Role)
    ensures requester == Customer ==> RoleCheck(requester, target).Some?
    ensures target == Superadmin && RoleCheck(requester, target).None? ==> requester == Superadmin
    ensures RoleCheck(requester, target).None? ==> requester != Customer
  {
  }

  /** How the handlers resolve the requester: found, no such user (answered 401), or thrown. */
  datatype Who = Found(id: UserId) | NoRequester | Threw

  /** A missing token and a payload whose `_id` finds no user are refused as unauthorized; a
      rejected token and a falsy decoded payload (whose `_id` read throws) reach the catch block. */
  function Requester(req: AuthRequest, verify: string -> Verification, users: map<UserId, User>): (r: Who)
    ensures r.Found? <==>
      && ExtractToken(req).Some?
      && var v := verify(ExtractToken(req).value);
      && v.Verified? && v.claims.Some? && TruthyString(v.claims.value.id) && v.claims.value.id.value in users
    ensures r.Found? ==> r.id in users && r.id == verify(ExtractToken(req).value).claims.value.id.value
    ensures ExtractToken(req).None? ==> r == NoRequester
    ensures r.Threw? <==>
      && ExtractToken(req).Some?
      && var v := verify(ExtractToken(req).value);
      v.Rejected? || v.claims.None?
  {
    var token := ExtractToken(req);
    if token.None? then NoRequester
    else
      match verify(token.value)
      case Rejected(_) => Threw
      case Verified(decoded) =>
        if decoded.None? then Threw
        else if !TruthyString(decoded.value.id) || decoded.value.id.value !in users then NoRequester
        else Found(decoded.value.id.value)
  }

  /** Every guard of the handlers, in order, with the response a failing one sends; `None`
      when the change may go ahead. */
  function Guard(a: Action, users: map<UserId, User>, id: UserId, req: AuthRequest,
                 verify: string -> Verification): (r: Option<Response<UserPayload>>)
    ensures id !in users ==> r == Some(Fail(UserNotFound, 404))
    ensures id in users && Requester(req, verify, users).NoRequester? ==> r == Some(Fail(Unauthorized, 401))
    ensures id in users && Requester(req, verify, users).Threw? ==> r == Some(Crash(ActionFailed(a)))
    ensures r.None? <==>
      && id in users && Requester(req, verify, users).Found?
      && RoleCheck(users[Requester(req, verify, users).id].role, users[id].role).None?
    ensures id in users && Requester(req, verify, users).Found? ==>
      var d := RoleCheck(users[Requester(req, verify, users).id].role, users[id].role);
      d.Some? ==> r == Some(Fail(DenialMessage(a, d.value), 403))
  {
    if id !in users then Some(Fail(UserNotFound, 404))
    else
      match Requester(req, verify, users)
      case NoRequester => Some(Fail(Unauthorized, 401))
      case Threw => Some(Crash(ActionFailed(a)))
      case Found(q) =>
        var denied := RoleCheck(users[q].role, users[id].role);
        if denied.Some? then Some(Fail(DenialMessage(a, denied.value), 403)) else None
  }

  /** `disableUser` / `enableUser`: after the guards the target's flag is set and saved. The save
      validates the loaded document, so a stored phone of `""` (which `updateUser` can leave,
      since it runs no validators) fails `required` and the catch answers 500. Otherwise the
      unique indexes still hold because neither `phone` nor `email` changes. */
  method SetDisabled(db: UserStore, a: Action, id: UserId, req: AuthRequest, verify: string -> Verification)
    returns (r: Response<UserPayload>)
    requires db.Valid()
    modifies db
    ensures db.Valid()
    ensures Guard(a, old(db.users), id, req, verify).Some? ==>
      r == Guard(a, old(db.users), id, req, verify).value && db.users == old(db.users)
    ensures Guard(a, old(db.users), id, req, verify).None? && old(db.users)[id].phone == "" ==>
      r == Crash(ActionFailed(a)) && db.users == old(db.users)
    ensures Guard(a, old(db.users), id, req, verify).None? && old(db.users)[id].phone != "" ==>
      && db.users == old(db.users)[id := old(db.users)[id].(disabled := a == Disable)]
      && r == Ok(Done(a), UserPayload(db.users[id]), 200)
  {
    var g := Guard(a, db.users, id, req, verify);
    if g.Some? {
      return g.value;
    }
    if db.users[id].phone == "" {
      return Crash(ActionFailed(a));
    }
    var target := db.users[id].(disabled := a == Disable);
    assert !Conflicts(db.users, id, target);
    StoreKeepsUnique(db.users, id, target);
    db.users := db.users[id := target];
    r := Ok(Done(a), UserPayload(target), 200);
  }

  /** What `targetUser.save()` stores as the handlers are written: the schema declares no
      `disabled` path, so strict mode leaves the assignment out of the saved document and the
      stored user keeps the flag it was read with, whatever the action. */
  function SavedAsWritten(target: User, a: Action): (r: User)
    ensures r.disabled == target.disabled && r.phone == target.phone && r.role == target.role
  {
    target
  }

  /** As written, disabling an enabled user answers success and leaves the user enabled, and
      enabling a disabled one leaves it disabled. */
  lemma ToggleAsWrittenLost(u: User, a: Action)
    requires u.disabled != (a == Disable)
    ensures SavedAsWritten(u, a).disabled != (a == Disable)
  {
  }

  /** After a successful change only the target's flag differs, and it matches the action. */
  lemma SetDisabledOnlyFlag(a: Action, u: User)
    ensures u.(disabled := a == Disable).disabled <==> a == Disable
    ensures u.(disabled := a == Disable).(disabled := u.disabled) == u
  {
  }
}
