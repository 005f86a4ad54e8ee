/** Identity resolution for a request (server/utils/getid.util.js): the bearer token is taken from
    the Authorization header or the body, verified, and its `_id` looked up. */
module GetId {
  import opened Js
  import opened AuthModel

  datatype AuthRequest = AuthRequest(authorization: Option<string>, bodyToken: Field<string>)

  /** The decoded payload's `_id`. */
  datatype Claims = Claims(id: Field<string>)

  /** The outcome of `jwt.verify`: a decoded payload (possibly falsy), or a thrown error. */
  datatype Verification = Verified(claims: Option<Claims>) | Rejected(message: string)

  datatype Identity = Identity(id: UserId, user: User)

  const Unauthorized := "Unauthorized"

  /** The characters of `s` before its first space. */
  function UntilSpace(s: string): (r: string)
    ensures |r| <= |s| && r == s[..|r|]
    ensures ' ' !in r
    ensures |r| < |s| ==> s[|r|] == ' '
  {
    if s == [] || s[0] == ' ' then [] else [s[0]] + UntilSpace(s[1..])
  }

  /** `header.split(" ")[1]`: the text between the first and the second space, if there is a space. */
  function SecondWord(header: string): (r: Option<string>)
    ensures r.None? <==> ' ' !in header
    ensures r.Some? ==> ' ' !in r.value
  {
    var w := UntilSpace(header);
    if |w| == |header| then
      assert header == w;
      None
    else
      Some(UntilSpace(header[|w| + 1..]))
  }

  /** `req.headers.authorization?.split(" ")[1] || req.body.token`. */
  function ExtractToken(req: AuthRequest): (r: Option<string>)
    ensures r.Some? ==> r.value != ""
  {
    var fromHeader := if req.authorization.Some? then SecondWord(req.authorization.value) else None;
    if fromHeader.Some? && fromHeader.value != "" then fromHeader
    else if TruthyString(req.bodyToken) then Some(req.bodyToken.value)
    else None
  }

  lemma {:induction false} UntilSpaceOfJoined(a: string, b: string)
    requires ' ' !in a
    ensures UntilSpace(a + " " + b) == a
  {
    if a != [] {
      assert (a + " " + b)[1..] == a[1..] + " " + b;
      UntilSpaceOfJoined(a[1..], b);
    }
  }

  lemma {:induction false} UntilSpaceOfWord(a: string)
    requires ' ' !in a
    ensures UntilSpace(a) == a
  {
    if a != [] {
      UntilSpaceOfWord(a[1..]);
    }
  }

  /** The scheme word is never inspected: `<anything> <token>` yields the token, whatever the
      first word is ("Bearer" or not). */
  lemma SchemeIgnored(scheme: string, token: string, body: Field<string>)
    requires ' ' !in scheme && ' ' !in token && token != ""
    ensures ExtractToken(AuthRequest(Some(scheme + " " + token), body)) == Some(token)
  {
    var h := scheme + " " + token;
    UntilSpaceOfJoined(scheme, token);
    assert h[|scheme| + 1..] == token;
    UntilSpaceOfWord(token);
  }

  /** Without a usable header word the body's token is used. */
  lemma BodyTokenFallback(header: Option<string>, token: string)
    requires header.None? || ' ' !in header.value
    requires token != ""
    ensures ExtractToken(AuthRequest(header, Given(token))) == Some(token)
  {
  }

  /** `getRequestingUser`: every failed guard throws "Unauthorized", except that a token which
      `jwt.verify` rejects throws that library's own error. Nothing is written. */
  function GetRequestingUser(req: AuthRequest, verify: string -> Verification,
                             users: map<UserId, User>): (r: Result<Identity>)
    ensures ExtractToken(req).None? ==> r == Failure(Unauthorized)
    ensures r.Success? <==>
      && ExtractToken(req).Some?
      && var v := verify(ExtractToken(req).value);
      && v.Verified? && v.claims.Some? && TruthyString(v.claims.value.id)
      && v.claims.value.id.value in users
    ensures r.Success? ==>
      && r.value.id == verify(ExtractToken(req).value).claims.value.id.value
      && r.value.user == users[r.value.id]
    ensures r.Failure? && ExtractToken(req).Some? && verify(ExtractToken(req).value).Rejected? ==>
      r.error == verify(ExtractToken(req).value).message
    ensures r.Failure? && !(ExtractToken(req).Some? && verify(ExtractToken(req).value).Rejected?) ==>
      r.error == Unauthorized
  {
    var token := ExtractToken(req);
    if token.None? then Failure(Unauthorized)
    else
      match verify(token.value)
      case Rejected(m) => Failure(m)
      case Verified(decoded) =>
        if decoded.None? || !TruthyString(decoded.value.id) then Failure(Unauthorized)
        else if decoded.value.id.value !in users then Failure(Unauthorized)
        else Success(Identity(decoded.value.id.value, users[decoded.value.id.value]))
  }
}
