/**
 * The API-key gate in front of every endpoint (app/api/middleware.py): a
 * decision on the request path, the `x-api-key` header (absent or present)
 * and the configured key list.
 */
module Middleware {
  import opened Wrappers
  import Config

  /** Paths served without a key. */
  const ExcludedPaths: seq<string> := ["/", "/health", "/docs", "/openapi.json", "/redoc", "/honeypot/test"]

  /** Pass the request on, or answer 401 (no key) or 403 (wrong key). */
  datatype Decision = Forward | Unauthorized | Forbidden

  function StatusCode(d: Decision): (code: Option<int>)
    ensures d.Forward? <==> code.None?
  {
    match d
    case Forward => None
    case Unauthorized => Some(401)
    case Forbidden => Some(403)
  }

  /** `dispatch`: excluded path, then the missing key, then the empty key list, then membership. */
  function Dispatch(path: string, key: Option<string>, validKeys: seq<string>): (d: Decision)
    ensures path in ExcludedPaths ==> d == Forward
    ensures d == Unauthorized <==> path !in ExcludedPaths && (key.None? || key.value == [])
    ensures d == Forbidden <==>
      path !in ExcludedPaths && key.Some? && key.value != [] && validKeys != [] && key.value !in validKeys
    ensures path !in ExcludedPaths && d == Forward ==>
      key.Some? && key.value != [] && (validKeys == [] || key.value in validKeys)
    ensures key.Some? && key.value != [] && (validKeys == [] || key.value in validKeys) ==> d == Forward
  {
    if path in ExcludedPaths then Forward
    else if key.None? || key.value == [] then Unauthorized
    else if validKeys == [] then Forward
    else if key.value !in validKeys then Forbidden
    else Forward
  }

  /** With no keys configured, a request without a key is still refused with 401. */
  lemma MissingKeyBeforeOpenAccess(path: string)
    requires path !in ExcludedPaths
    ensures Dispatch(path, None, []) == Unauthorized
    ensures Dispatch(path, Some([]), []) == Unauthorized
    ensures forall key: string :: key != [] ==> Dispatch(path, Some(key), []) == Forward
  {
  }

  /** A key made only of blanks is never among the configured keys, so it is refused once any key is configured. */
  lemma BlankKeyRefused(path: string, apiKeys: string)
    requires path !in ExcludedPaths
    ensures Config.ApiKeysList(apiKeys) != [] ==> Dispatch(path, Some(" "), Config.ApiKeysList(apiKeys)) == Forbidden
  {
  }

  /** `/honeypot/message` is not excluded: it always needs a key. */
  lemma MessageEndpointNeedsKey(validKeys: seq<string>)
    ensures Dispatch("/honeypot/message", None, validKeys) == Unauthorized
  {
    assert "/honeypot/message" !in ExcludedPaths by {
      assert |"/honeypot/message"| == 17;
    }
  }
}
