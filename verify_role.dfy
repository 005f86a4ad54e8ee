/** The admin gate of the client (client/src/util/verifyRole.util.js): the stored token is sent as a
    bearer header, and the role in the answer decides the admin flag. */
module VerifyRole {
  import opened Js
  import opened AuthModel
  import GetId

  /** The `GET /api/verify-role` outcome: the answer's `role` field, or a thrown request. */
  datatype RoleReply = RoleAnswer(role: Field<string>) | RequestFailed

  /** What a call does: the `Authorization` header it sends, if any, the value passed to
      `setIsAdmin`, if it is called, and whether the user is sent back to `/`. */
  datatype Decision = Decision(header: Option<string>, isAdmin: Option<bool>, redirect: bool)

  predicate AdminRoleName(role: Field<string>) {
    role == Given("admin") || role == Given("superadmin")
  }

  /** `verifyRole`. `token` is `localStorage.getItem("token")`; `reply` is only consulted when a
      request is made. */
  function Verify(token: Option<string>, reply: RoleReply): (d: Decision)
    ensures Blank(token) ==> d == Decision(None, None, true)
    ensures !Blank(token) ==> d.header == Some("Bearer " + token.value) && d.isAdmin.Some?
    ensures !Blank(token) ==>
      (d.isAdmin == Some(true) <==> reply.RoleAnswer? && AdminRoleName(reply.role))
    ensures d.redirect <==> d.isAdmin != Some(true)
  {
    if Blank(token) then Decision(None, None, true)
    else
      var ok := reply.RoleAnswer? && AdminRoleName(reply.role);
      Decision(Some("Bearer " + token.value), Some(ok), !ok)
  }

  /** For an answer naming one of the schema's roles, the flag is set exactly for the two staff
      roles. */
  lemma FlagOfRole(token: string, r: Role)
    requires token != ""
    ensures Verify(Some(token), RoleAnswer(Given(RoleName(r)))).isAdmin == Some(r.Admin? || r.Superadmin?)
  {
    match r
    case Customer =>
    case Admin =>
    case Superadmin =>
  }

  /** The header the client sends gives the server back the stored token, for a token without a
      space (a JWT has none). */
  lemma HeaderCarriesToken(token: string, reply: RoleReply, body: Field<string>)
    requires token != "" && ' ' !in token
    ensures Verify(Some(token), reply).header.Some?
    ensures GetId.ExtractToken(GetId.AuthRequest(Verify(Some(token), reply).header, body)) == Some(token)
  {
    GetId.SchemeIgnored("Bearer", token, body);
  }
}
