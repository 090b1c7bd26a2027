/**
 * The admin API-key decision (src/middlewares/admin-auth.ts): with no key
 * configured every request passes; otherwise the `X-Admin-API-Key` header,
 * or when that is missing or empty the `admin-api-key` query value, must
 * equal the configured key.
 */
module AdminAuth {
  import opened Wrappers
  import opened Errors

  /**
   * The `admin-api-key` query value: absent, a string, or something else the
   * query parser produced (an array or an object), which is truthy but never
   * equal to a string.
   */
  datatype QueryValue = Absent | Text(s: string) | NonString

  /** `req.get(header) || req.query[...]`: the key the request offers. */
  function Candidate(header: Option<string>, query: QueryValue): (c: QueryValue)
    ensures header.Some? && header.value != [] ==> c == Text(header.value)
    ensures !(header.Some? && header.value != []) ==> c == query
  {
    if header.Some? && header.value != [] then Text(header.value) else query
  }

  datatype Decision = Allow | Reject(error: AppError)

  /** The error thrown for a missing or wrong key. */
  function KeyRequired(): (e: AppError)
    ensures e.statusCode == 401 && e.code == UnauthorizedCode && e.kind == UnauthorizedError
  {
    NewUnauthorizedError("Admin API key required",
                         Some(map["message" := Str("Invalid or missing admin API key")]))
  }

  /** `adminAuth(req, res, next)`: `next()` is `Allow`, the thrown error is `Reject`. */
  function AdminAuth(configuredKey: Option<string>, header: Option<string>, query: QueryValue): (d: Decision)
    ensures d.Reject? ==> d.error == KeyRequired()
  {
    if configuredKey.None? || configuredKey.value == [] then Allow
    else
      match Candidate(header, query)
      case Text(k) => if k != [] && k == configuredKey.value then Allow else Reject(KeyRequired())
      case _ => Reject(KeyRequired())
  }

  /** With no key configured (unset or empty), every request is allowed. */
  lemma OpenWithoutKey(configuredKey: Option<string>, header: Option<string>, query: QueryValue)
    requires configuredKey.None? || configuredKey.value == []
    ensures AdminAuth(configuredKey, header, query) == Allow
  {
  }

  /**
   * With a key configured, a request is allowed exactly when the key it
   * offers (header first, then query) is a non-empty string equal to it.
   */
  lemma AllowedIffKeyMatches(key: string, header: Option<string>, query: QueryValue)
    requires key != []
    ensures AdminAuth(Some(key), header, query) == Allow <==> Candidate(header, query) == Text(key)
  {
  }

  /** A wrong non-empty header is rejected even when the query carries the right key. */
  lemma HeaderShadowsQuery(key: string, header: string)
    requires key != [] && header != [] && header != key
    ensures AdminAuth(Some(key), Some(header), Text(key)) == Reject(KeyRequired())
  {
  }

  /** An empty header falls back to the query value. */
  lemma EmptyHeaderFallsBack(key: string)
    requires key != []
    ensures AdminAuth(Some(key), Some([]), Text(key)) == Allow
    ensures AdminAuth(Some(key), Some([]), NonString).Reject?
  {
  }
}
