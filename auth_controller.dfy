/** The one-time-password sign-in (server/controller/auth.controller.js). The code generator, the
    hash and compare functions, the clock (milliseconds) and the SMS gateway's outcome are
    parameters; the session is a class whose `userId` the verification sets. */
module AuthController {
  import opened Js
  import opened AuthModel

  /** The JSON bodies these handlers send with `res.json`: a message, an error, or the stored
      code (a missing one drops the key). */
  datatype Json = MessageJson(message: string) | ErrorJson(error: string) | OtpJson(otp: Option<string>)

  datatype AuthReply = AuthReply(status: int, body: Json)

  /** `res.json(...)` without a status: 200. */
  function Reply(body: Json): (r: AuthReply)
    ensures r.status == 200 && r.body == body
  {
    AuthReply(200, body)
  }

  function Refuse(status: int, error: string): (r: AuthReply)
    ensures r.status == status && r.body == ErrorJson(error)
  {
    AuthReply(status, ErrorJson(error))
  }

  /** Five minutes in milliseconds. */
  const OtpLifetime := 5 * 60 * 1000

  const PhoneMissing := "Phone number is required."
  const SendFailed := "Failed to send OTP."
  const OtpSent := "OTP sent successfully."
  const NoSuchUser := "User not found."
  const OtpExpired := "OTP expired. Please request a new one."
  const BothMissing := "Phone number and OTP are required."
  const OtpMismatch := "Invalid OTP. Please try again."
  const VerifyFailed := "OTP verification failed."
  const LoggedIn := "OTP verified successfully. User logged in."

  /** `user.otpExpiresAt < Date.now()`: a user without an expiry compares `undefined`, which is
      never less, so such a code never expires. */
  predicate Expired(u: User, now: int) {
    u.otpExpiresAt.Some? && u.otpExpiresAt.value < now
  }

  /** The text message handed to the SMS gateway. */
  datatype Sms = Sms(to: string, body: string)

  function OtpText(otp: string): string {
    "Your OTP is: " + otp
  }

  /** What `sendOtp` answers, stores and texts. */
  datatype Sent = Sent(reply: AuthReply, users: map<UserId, User>, sms: Option<Sms>)

  /** `sendOtp`. The lookup compares the trimmed phone; a phone that trims to nothing fails the
      `required` validator on save, whether the user is new or the stored one has that empty
      phone. A known user gets the new hash and expiry and keeps everything else. An unknown one
      is created under `newId`; its save breaks a unique index, and is answered with 500, when
      that id is taken or when another user is stored without an e-mail, since the new user has
      none either. The SMS goes out after the save, so its failure leaves the new code stored. */
  ghost function SendOutcome(users: map<UserId, User>, phone: Field<string>, now: nat, otp: string,
                             hash: string -> string, smsSent: bool, newId: UserId): (s: Sent)
    ensures !TruthyString(phone) ==> s == Sent(Refuse(400, PhoneMissing), users, None)
    ensures TruthyString(phone) && Trim(phone.value) == "" ==> s == Sent(Refuse(500, SendFailed), users, None)
    ensures s.reply.status == 200 <==>
      && TruthyString(phone) && Trim(phone.value) != "" && smsSent
      && (PhoneOwner(users, Trim(phone.value)).Some? || SignUpFree(users, newId))
    ensures TruthyString(phone) && Trim(phone.value) != "" && PhoneOwner(users, Trim(phone.value)).Some? ==>
      var id := PhoneOwner(users, Trim(phone.value)).value;
      s.users == users[id := users[id].(otp := Some(hash(otp)), otpExpiresAt := Some(now + OtpLifetime))]
    ensures TruthyString(phone) && Trim(phone.value) != "" && PhoneOwner(users, Trim(phone.value)).None? ==>
      s.users == if SignUpFree(users, newId) then users[newId := NewUser(phone.value, hash(otp), now + OtpLifetime).value]
                 else users
    ensures s.sms.Some? ==> s.sms.value == Sms(phone.value, OtpText(otp))
    ensures s.sms.Some? <==> s.users != users || (TruthyString(phone) && PhoneOwner(users, Trim(phone.value)).Some?
                                                   && Trim(phone.value) != "")
    ensures s.sms.None? ==> s.reply == Refuse(500, SendFailed) || s.reply == Refuse(400, PhoneMissing)
    ensures s.reply.status == 200 ==> s.reply == Reply(MessageJson(OtpSent))
    ensures s.reply.status != 200 ==> s.reply == Refuse(500, SendFailed) || s.reply == Refuse(400, PhoneMissing)
  {
    if !TruthyString(phone) then Sent(Refuse(400, PhoneMissing), users, None)
    else
      var p := Trim(phone.value);
      if p == "" then Sent(Refuse(500, SendFailed), users, None)
      else
        var owner := PhoneOwner(users, p);
        var expires := now + OtpLifetime;
        var reply := if smsSent then Reply(MessageJson(OtpSent)) else Refuse(500, SendFailed);
        var sms := Some(Sms(phone.value, OtpText(otp)));
        if owner.Some? then
          Sent(reply, users[owner.value := users[owner.value].(otp := Some(hash(otp)), otpExpiresAt := Some(expires))], sms)
        else
          var created := NewUser(phone.value, hash(otp), expires).value;
          SignUpConflict(users, newId, created);
          if newId in users || Conflicts(users, newId, created) then Sent(Refuse(500, SendFailed), users, None)
          else Sent(reply, users[newId := created], sms)
  }

  /** The inputs on which `sendOtp` answers 200, as `SendOutcome` characterises them: a truthy
      phone that trims to something, a store that can take the write, and a text that went out. */
  ghost predicate SendSucceeds(users: map<UserId, User>, phone: Field<string>, smsSent: bool, newId: UserId) {
    && TruthyString(phone) && Trim(phone.value) != "" && smsSent
    && (PhoneOwner(users, Trim(phone.value)).Some? || SignUpFree(users, newId))
  }

  /** A new user can be stored under `newId`: the id is free and every stored user has an e-mail,
      so the new user's missing one does not collide under the e-mail index. */
  predicate SignUpFree(users: map<UserId, User>, newId: UserId) {
    newId !in users && forall id :: id in users ==> users[id].email.Some?
  }

  /** For a phone nobody holds, a new user without an e-mail conflicts exactly when another user
      has no e-mail either. */
  lemma SignUpConflict(users: map<UserId, User>, newId: UserId, u: User)
    requires PhoneOwner(users, u.phone).None? && u.email.None?
    ensures newId !in users ==> (Conflicts(users, newId, u) <==> !SignUpFree(users, newId))
  {
    if newId !in users && !SignUpFree(users, newId) {
      var other :| other in users && users[other].email.None?;
      assert other != newId;
    }
  }

  /** Once a user without an e-mail is stored, a phone nobody holds cannot sign up: the save of
      the new user breaks the e-mail index, nothing is stored and no SMS goes out. */
  lemma EmaillessSignUpRefused(users: map<UserId, User>, phone: Field<string>, now: nat, otp: string,
                               hash: string -> string, smsSent: bool, newId: UserId, other: UserId)
    requires TruthyString(phone) && PhoneOwner(users, Trim(phone.value)).None?
    requires other in users && users[other].email.None?
    ensures SendOutcome(users, phone, now, otp, hash, smsSent, newId) == Sent(Refuse(500, SendFailed), users, None)
  {
  }

  /** A code `sendOtp` stores is live for exactly five minutes: it counts as expired at a
      later time just when that time is past `now + OtpLifetime`. */
  lemma SentCodeWindow(users: map<UserId, User>, phone: Field<string>, now: nat, otp: string,
                       hash: string -> string, smsSent: bool, newId: UserId, later: int)
    requires SendSucceeds(users, phone, smsSent, newId)
    ensures var s := SendOutcome(users, phone, now, otp, hash, smsSent, newId);
      var owner := PhoneOwner(users, Trim(phone.value));
      var id := if owner.Some? then owner.value else newId;
      && id in s.users && s.users[id].otp == Some(hash(otp))
      && (Expired(s.users[id], later) <==> later > now + OtpLifetime)
  {
  }

  /** The unique phone and email indexes survive `sendOtp`. */
  lemma SendKeepsUnique(users: map<UserId, User>, phone: Field<string>, now: nat, otp: string,
                        hash: string -> string, smsSent: bool, newId: UserId)
    requires ValidUsers(users)
    ensures ValidUsers(SendOutcome(users, phone, now, otp, hash, smsSent, newId).users)
  {
    var s := SendOutcome(users, phone, now, otp, hash, smsSent, newId);
    if TruthyString(phone) && Trim(phone.value) != "" {
      var p := Trim(phone.value);
      var owner := PhoneOwner(users, p);
      if owner.Some? {
        var u := users[owner.value].(otp := Some(hash(otp)), otpExpiresAt := Some(now + OtpLifetime));
        assert !Conflicts(users, owner.value, u);
        StoreKeepsUnique(users, owner.value, u);
      } else if SignUpFree(users, newId) {
        var u := NewUser(phone.value, hash(otp), now + OtpLifetime).value;
        SignUpConflict(users, newId, u);
        StoreKeepsUnique(users, newId, u);
      }
    }
  }

  method SendOtp(db: UserStore, phone: Field<string>, now: nat, otp: string, hash: string -> string,
                 smsSent: bool, newId: UserId) returns (r: AuthReply, sms: Option<Sms>)
    requires db.Valid()
    modifies db
    ensures db.Valid()
    ensures var s := SendOutcome(old(db.users), phone, now, otp, hash, smsSent, newId);
      r == s.reply && db.users == s.users && sms == s.sms
  {
    ghost var expected := SendOutcome(db.users, phone, now, otp, hash, smsSent, newId);
    SendKeepsUnique(db.users, phone, now, otp, hash, smsSent, newId);
    if !TruthyString(phone) {
      return Refuse(400, PhoneMissing), None;
    }
    var found := FindByPhone(db.users, phone.value);
    var expires := now + OtpLifetime;
    if Trim(phone.value) == "" {
      return Refuse(500, SendFailed), None;
    }
    if found.Some? {
      db.users := db.users[found.value := db.users[found.value].(otp := Some(hash(otp)), otpExpiresAt := Some(expires))];
    } else {
      if newId in db.users {
        return Refuse(500, SendFailed), None;
      }
      var created := NewUser(phone.value, hash(otp), expires);
      if Conflicts(db.users, newId, created.value) {
        return Refuse(500, SendFailed), None;
      }
      db.users := db.users[newId := created.value];
    }
    sms := Some(Sms(phone.value, OtpText(otp)));
    r := if smsSent then Reply(MessageJson(OtpSent)) else Refuse(500, SendFailed);
  }

  /** `getOtp`: the stored code, which is the hash, or the refusal. */
  ghost function OtpReply(users: map<UserId, User>, phone: Field<string>, now: int): (r: AuthReply)
    ensures !TruthyString(phone) ==> r == Refuse(400, PhoneMissing)
    ensures r.status == 200 <==>
      && TruthyString(phone) && PhoneOwner(users, Trim(phone.value)).Some?
      && !Expired(users[PhoneOwner(users, Trim(phone.value)).value], now)
    ensures r.status == 200 ==> r.body == OtpJson(users[PhoneOwner(users, Trim(phone.value)).value].otp)
  {
    if !TruthyString(phone) then Refuse(400, PhoneMissing)
    else
      var owner := PhoneOwner(users, Trim(phone.value));
      if owner.None? then Refuse(404, NoSuchUser)
      else if Expired(users[owner.value], now) then Refuse(400, OtpExpired)
      else Reply(OtpJson(users[owner.value].otp))
  }

  /** Reads the store and changes nothing. */
  method GetOtp(users: map<UserId, User>, phone: Field<string>, now: int) returns (r: AuthReply)
    requires ValidUsers(users)
    ensures r == OtpReply(users, phone, now)
  {
    if !TruthyString(phone) {
      return Refuse(400, PhoneMissing);
    }
    var found := FindByPhone(users, phone.value);
    if found.None? {
      return Refuse(404, NoSuchUser);
    }
    var u := users[found.value];
    if u.otpExpiresAt.Some? && u.otpExpiresAt.value < now {
      return Refuse(400, OtpExpired);
    }
    r := Reply(OtpJson(u.otp));
  }

  /** What `verifyOtp` answers, stores and puts in the session. */
  datatype Verified = Verified(reply: AuthReply, users: map<UserId, User>, session: Option<UserId>)

  /** `verifyOtp`. `compare(code, hash)` is bcrypt's; with no stored hash it throws, which the
      catch block answers with 500. On a match the session is set before `clearOtp` saves, so a
      save refused by the `required` phone validator still leaves the session signed in. */
  ghost function VerifyOutcome(users: map<UserId, User>, session: Option<UserId>, phone: Field<string>,
                               otp: Field<string>, now: int, compare: (string, string) -> bool): (v: Verified)
    ensures v.reply.status == 200 <==>
      && TruthyString(phone) && TruthyString(otp) && Trim(phone.value) != ""
      && PhoneOwner(users, Trim(phone.value)).Some?
      && var u := users[PhoneOwner(users, Trim(phone.value)).value];
      && !Expired(u, now) && u.otp.Some? && compare(otp.value, u.otp.value)
    ensures v.reply.status == 200 ==>
      var id := PhoneOwner(users, Trim(phone.value)).value;
      && v.reply == Reply(MessageJson(LoggedIn)) && v.session == Some(id)
      && v.users == users[id := ClearOtp(users[id].(isVerified := true))]
    ensures v.reply.status != 200 ==> v.users == users
    ensures v.session != session ==> TruthyString(phone) && v.session == PhoneOwner(users, Trim(phone.value))
  {
    if !TruthyString(phone) || !TruthyString(otp) then Verified(Refuse(400, BothMissing), users, session)
    else
      var owner := PhoneOwner(users, Trim(phone.value));
      if owner.None? then Verified(Refuse(404, NoSuchUser), users, session)
      else
        var u := users[owner.value];
        if Expired(u, now) then Verified(Refuse(400, OtpExpired), users, session)
        else if u.otp.None? then Verified(Refuse(500, VerifyFailed), users, session)
        else if !compare(otp.value, u.otp.value) then Verified(Refuse(400, OtpMismatch), users, session)
        else if Trim(phone.value) == "" then Verified(Refuse(500, VerifyFailed), users, owner)
        else Verified(Reply(MessageJson(LoggedIn)), users[owner.value := ClearOtp(u.(isVerified := true))], owner)
  }

  /** The signed-in user of the request's session. */
  class Session {
    var userId: Option<UserId>

    constructor ()
      ensures userId.None?
    {
      userId := None;
    }
  }

  method VerifyOtp(db: UserStore, session: Session, phone: Field<string>, otp: Field<string>, now: int,
                   compare: (string, string) -> bool) returns (r: AuthReply)
    requires db.Valid()
    modifies db, session
    ensures db.Valid()
    ensures var v := VerifyOutcome(old(db.users), old(session.userId), phone, otp, now, compare);
      r == v.reply && db.users == v.users && session.userId == v.session
  {
    if !TruthyString(phone) || !TruthyString(otp) {
      return Refuse(400, BothMissing);
    }
    var found := FindByPhone(db.users, phone.value);
    if found.None? {
      return Refuse(404, NoSuchUser);
    }
    var u := db.users[found.value];
    if u.otpExpiresAt.Some? && u.otpExpiresAt.value < now {
      return Refuse(400, OtpExpired);
    }
    if u.otp.None? {
      return Refuse(500, VerifyFailed);
    }
    if !compare(otp.value, u.otp.value) {
      return Refuse(400, OtpMismatch);
    }
    session.userId := found;
    if Trim(phone.value) == "" {
      return Refuse(500, VerifyFailed);
    }
    var signedIn := ClearOtp(u.(isVerified := true));
    StoreKeepsUnique(db.users, found.value, signedIn);
    db.users := db.users[found.value := signedIn];
    r := Reply(MessageJson(LoggedIn));
  }

  /** After a successful `sendOtp`, `getOtp` on the same phone before the expiry hands out the
      hash of the code that was texted. */
  lemma SendThenGet(users: map<UserId, User>, phone: Field<string>, now: nat, otp: string,
                    hash: string -> string, newId: UserId, later: int)
    requires ValidUsers(users)
    requires SendSucceeds(users, phone, true, newId)
    requires later <= now + OtpLifetime
    ensures OtpReply(SendOutcome(users, phone, now, otp, hash, true, newId).users, phone, later)
            == Reply(OtpJson(Some(hash(otp))))
  {
    var id := SentCodeStored(users, phone, now, otp, hash, newId);
  }

  /** After a successful `sendOtp` the phone's owner, found again by the same lookup, holds the
      hash of the texted code and its expiry. */
  lemma SentCodeStored(users: map<UserId, User>, phone: Field<string>, now: nat, otp: string,
                       hash: string -> string, newId: UserId) returns (id: UserId)
    requires ValidUsers(users)
    requires SendSucceeds(users, phone, true, newId)
    ensures var after := SendOutcome(users, phone, now, otp, hash, true, newId).users;
      && TruthyString(phone) && Trim(phone.value) != ""
      && PhoneOwner(after, Trim(phone.value)) == Some(id)
      && after[id].otp == Some(hash(otp)) && after[id].otpExpiresAt == Some(now + OtpLifetime)
  {
    var after := SendOutcome(users, phone, now, otp, hash, true, newId).users;
    SendKeepsUnique(users, phone, now, otp, hash, true, newId);
    var p := Trim(phone.value);
    var owner := PhoneOwner(users, p);
    var expires := now + OtpLifetime;
    if owner.Some? {
      id := owner.value;
      assert after == users[id := users[id].(otp := Some(hash(otp)), otpExpiresAt := Some(expires))];
    } else {
      id := newId;
      assert after == users[newId := NewUser(phone.value, hash(otp), expires).value];
    }
    assert id in after && after[id].phone == p;
  }

  /** A code admits one sign-in: verifying it again answers 500, because the stored hash is gone. */
  lemma CodeUsedOnce(users: map<UserId, User>, session: Option<UserId>, phone: Field<string>,
                     otp: Field<string>, now: int, compare: (string, string) -> bool)
    requires ValidUsers(users)
    requires VerifyOutcome(users, session, phone, otp, now, compare).reply.status == 200
    ensures var v := VerifyOutcome(users, session, phone, otp, now, compare);
      VerifyOutcome(v.users, v.session, phone, otp, now, compare).reply == Refuse(500, VerifyFailed)
  {
    var v := VerifyOutcome(users, session, phone, otp, now, compare);
    var p := Trim(phone.value);
    var id := PhoneOwner(users, p).value;
    StoreKeepsUnique(users, id, ClearOtp(users[id].(isVerified := true)));
    assert v.users[id].phone == p;
    assert PhoneOwner(v.users, p) == Some(id);
  }

  /** The texted code signs the user in before it expires, provided `compare` accepts a code
      against its own hash. */
  lemma SendThenVerify(users: map<UserId, User>, phone: Field<string>, now: nat, otp: string,
                       hash: string -> string, newId: UserId, session: Option<UserId>,
                       later: int, compare: (string, string) -> bool)
    requires ValidUsers(users)
    requires SendSucceeds(users, phone, true, newId)
    requires later <= now + OtpLifetime && otp != "" && compare(otp, hash(otp))
    ensures VerifyOutcome(SendOutcome(users, phone, now, otp, hash, true, newId).users, session, phone,
                          Given(otp), later, compare).reply == Reply(MessageJson(LoggedIn))
  {
    var after := SendOutcome(users, phone, now, otp, hash, true, newId).users;
    var id := SentCodeStored(users, phone, now, otp, hash, newId);
    VerifySucceeds(after, session, phone, otp, later, compare, id);
  }

  /** The conditions under which `verifyOtp` signs the phone's owner in. */
  lemma VerifySucceeds(users: map<UserId, User>, session: Option<UserId>, phone: Field<string>, otp: string,
                       now: int, compare: (string, string) -> bool, id: UserId)
    requires TruthyString(phone) && Trim(phone.value) != "" && otp != ""
    requires PhoneOwner(users, Trim(phone.value)) == Some(id)
    requires !Expired(users[id], now) && users[id].otp.Some? && compare(otp, users[id].otp.value)
    ensures VerifyOutcome(users, session, phone, Given(otp), now, compare).reply == Reply(MessageJson(LoggedIn))
  {
  }
}
