/** The User record (server/models/auth.model.js) and the user collection. */
module AuthModel {
  import opened Js

  type UserId = string

  datatype Role = Customer | Admin | Superadmin

  const DefaultRole := Customer

  /** The strings the schema's `role` enum admits. */
  function RoleName(r: Role): string {
    match r
    case Customer => "customer"
    case Admin => "admin"
    case Superadmin => "superadmin"
  }

  function ParseRole(s: string): (r: Option<Role>)
    ensures r.Some? ==> RoleName(r.value) == s
  {
    if s == "customer" then Some(Customer)
    else if s == "admin" then Some(Admin)
    else if s == "superadmin" then Some(Superadmin)
    else None
  }

  /** The enum has exactly three members and their names round-trip. */
  lemma RoleRoundTrip(r: Role)
    ensures ParseRole(RoleName(r)) == Some(r)
  {
  }

  datatype Address = Address(street: Option<string>, city: Option<string>, state: Option<string>,
                             zipCode: Option<string>, country: Option<string>)

  /** `disabled` is the flag the user handlers set; the schema itself does not declare it. */
  datatype User = User(
    name: Option<string>,
    email: Option<string>,
    password: Option<string>,
    phone: string,
    profileImage: Option<string>,
    otp: Option<string>,
    otpExpiresAt: Option<int>,
    isVerified: bool,
    addresses: seq<Address>,
    role: Role,
    disabled: bool)

  const PhoneRequired := ValidationMessage("User", [Required("phone")])

  /** `new User({ phone, otp, otpExpiresAt })` followed by validation: `phone` is trimmed and
      required, every other field takes its default. */
  function NewUser(phone: string, otp: string, otpExpiresAt: int): (r: Result<User>)
    ensures r.Success? <==> Trim(phone) != ""
    ensures r.Failure? ==> r.error == PhoneRequired
    ensures r.Success? ==> var u := r.value;
      && u.phone == Trim(phone) && u.otp == Some(otp) && u.otpExpiresAt == Some(otpExpiresAt)
      && u.role == DefaultRole && !u.isVerified && u.addresses == [] && !u.disabled
      && u.name.None? && u.email.None? && u.profileImage.None?
  {
    var p := Trim(phone);
    if p == "" then Failure(PhoneRequired)
    else Success(User(None, None, None, p, None, Some(otp), Some(otpExpiresAt), false, [], DefaultRole, false))
  }

  /** The `email` setters: lower-cased, then trimmed. */
  function NormalizeEmail(e: string): (r: string)
    ensures |r| <= |e|
    ensures r != [] ==> !IsSpace(r[0]) && !IsSpace(r[|r| - 1])
    ensures NoUpper(r)
    ensures exists k :: TrimmedAt(Lower(e), k, r)
  {
    TrimKeepsNoUpper(Lower(e));
    Trim(Lower(e))
  }

  /** `UserSchema.methods.clearOtp` before its save: `otp` and `otpExpiresAt` are unset and
      nothing else changes. */
  function ClearOtp(u: User): (r: User)
    ensures r.otp.None? && r.otpExpiresAt.None?
    ensures r.(otp := u.otp, otpExpiresAt := u.otpExpiresAt) == u
  {
    u.(otp := None, otpExpiresAt := None)
  }

  /** The stored users with the unique indexes the schema declares on `phone` and `email`. The
      `email` index is not sparse: MongoDB indexes a user without an e-mail under `null`, so at
      most one user lacks one (`None` is compared like any other key). */
  ghost predicate ValidUsers(users: map<UserId, User>) {
    && (forall a, b :: a in users && b in users && users[a].phone == users[b].phone ==> a == b)
    && (forall a, b :: a in users && b in users && users[a].email == users[b].email ==> a == b)
  }

  /** Whether storing `u` under `id` would break a unique index: another user has its phone, or
      its email, a missing email included. */
  predicate Conflicts(users: map<UserId, User>, id: UserId, u: User) {
    exists other :: other in users && other != id &&
      (users[other].phone == u.phone || users[other].email == u.email)
  }

  /** Storing a user that conflicts with no other keeps the indexes unique. */
  lemma StoreKeepsUnique(users: map<UserId, User>, id: UserId, u: User)
    requires ValidUsers(users) && !Conflicts(users, id, u)
    ensures ValidUsers(users[id := u])
  {
  }

  /** The user whose `phone` is exactly `phone`, if any: the unique index makes it the only one. */
  ghost function PhoneOwner(users: map<UserId, User>, phone: string): (r: Option<UserId>)
    ensures r.None? <==> forall id :: id in users ==> users[id].phone != phone
    ensures r.Some? ==> r.value in users && users[r.value].phone == phone
  {
    if exists id :: id in users && users[id].phone == phone then
      var id :| id in users && users[id].phone == phone; Some(id)
    else None
  }

  /** `User.findOne({ phone })`: the query value goes through the schema's `trim` setter. */
  method FindByPhone(users: map<UserId, User>, phone: string) returns (r: Option<UserId>)
    requires ValidUsers(users)
    ensures r == PhoneOwner(users, Trim(phone))
  {
    var t := Trim(phone);
    if exists id :: id in users && users[id].phone == t {
      var id :| id in users && users[id].phone == t;
      r := Some(id);
    } else {
      r := None;
    }
  }

  class UserStore {
    var users: map<UserId, User>

    ghost predicate Valid()
      reads this
    {
      ValidUsers(users)
    }

    constructor ()
      ensures users == map[] && Valid()
    {
      users := map[];
    }
  }
}
