/** The two middlewares in front of every protected route: bearer-token
    authentication and the admin-role gate. Token signature and expiry
    checking is the parameter `verify`, which yields the token's principal or
    None when the token is invalid or expired. */
module Auth {
  import opened Common
  import opened Text

  /** The payload of a verified token; `role` is "" when the payload has none. */
  datatype Principal = Principal(id: string, username: string, role: string)

  const BearerPrefix: string := "Bearer "

  /** The token carried by an `Authorization` header: what follows a
      case-sensitive "Bearer " prefix, and only when that is non-empty. */
  function BearerToken(header: Option<string>): (r: Option<string>)
    ensures r.Some? <==> header.Some? && StartsWith(header.value, BearerPrefix) && |header.value| > |BearerPrefix|
    ensures r.Some? ==> header.value == BearerPrefix + r.value && r.value != ""
  {
    var h := match header case Some(v) => v case None => "";
    if StartsWith(h, BearerPrefix) && h[|BearerPrefix|..] != "" then
      assert h == h[..|BearerPrefix|] + h[|BearerPrefix|..];
      Some(h[|BearerPrefix|..])
    else None
  }

  /** Every non-empty token survives being put in a header and read back. */
  lemma BearerRoundTrip(token: string)
    requires token != ""
    ensures BearerToken(Some(BearerPrefix + token)) == Some(token)
  {
  }

  /** `auth`: 401 without a usable bearer token or when the token does not
      verify; otherwise the token's principal. */
  function Authenticate(header: Option<string>, verify: string -> Option<Principal>): (r: Result<Principal>)
    ensures r.Failure? ==> r.status == Unauthorized
    ensures r.Success? <==> BearerToken(header).Some? && verify(BearerToken(header).value).Some?
    ensures r.Success? ==> Some(r.value) == verify(BearerToken(header).value)
  {
    match BearerToken(header)
    case None => Failure(Unauthorized)
    case Some(token) =>
      match verify(token)
      case None => Failure(Unauthorized)
      case Some(p) => Success(p)
  }

  /** The role `requireAdmin` looks at: a missing role counts as "user". */
  function EffectiveRole(p: Principal): (role: string)
    ensures role != ""
    ensures p.role != "" ==> role == p.role
    ensures role == "admin" <==> p.role == "admin"
  {
    if p.role == "" then "user" else p.role
  }

  /** `requireAdmin`: 403 for every role other than "admin". */
  function RequireAdmin(p: Principal): (r: Result<Principal>)
    ensures r.Success? <==> p.role == "admin"
    ensures r.Success? ==> r.value == p
    ensures r.Failure? ==> r.status == Forbidden
  {
    if EffectiveRole(p) != "admin" then Failure(Forbidden) else Success(p)
  }

  /** `auth` followed by `requireAdmin`, the guard of every admin route. */
  function AdminGate(header: Option<string>, verify: string -> Option<Principal>): (r: Result<Principal>)
    ensures r.Success? ==> r.value.role == "admin" && Authenticate(header, verify) == Success(r.value)
    ensures r.Failure? && r.status == Unauthorized <==> Authenticate(header, verify).Failure?
    ensures r.Failure? && r.status == Forbidden <==>
              Authenticate(header, verify).Success? && Authenticate(header, verify).value.role != "admin"
    ensures r.Failure? ==> r.status == Unauthorized || r.status == Forbidden
  {
    match Authenticate(header, verify)
    case Failure(s) => Failure(s)
    case Success(p) => RequireAdmin(p)
  }

  /** A protected list route: the collection when the gate lets the caller
      through, the gate's error otherwise. */
  function Guarded<T>(header: Option<string>, verify: string -> Option<Principal>, items: seq<T>): (r: Result<seq<T>>)
    ensures r.Success? <==> AdminGate(header, verify).Success?
    ensures r.Success? ==> r.value == items
    ensures r.Failure? ==> r.status == AdminGate(header, verify).status
  {
    match AdminGate(header, verify)
    case Failure(s) => Failure(s)
    case Success(_) => Success(items)
  }

  /** Without a header there is no access, whatever `verify` would accept. */
  lemma NoHeaderNoAccess(verify: string -> Option<Principal>)
    ensures AdminGate(None, verify) == Failure(Unauthorized)
  {
  }

  /** A lower-case "bearer " is not accepted. */
  lemma PrefixIsCaseSensitive(token: string)
    ensures BearerToken(Some("bearer " + token)) == None
  {
  }
}
