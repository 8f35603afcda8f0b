/**
 * The request gate of cmd/server/main.go (checkURL): which (method, path)
 * pairs reach a handler, and the path pattern `^/[a-zA-Z0-9-]+$` it
 * matches GET paths against.
 */
module Routing {
  import opened Http

  const ShortenPath := "/api/shorten"

  /** The identifier character class `[a-zA-Z0-9-]`. */
  predicate IsIdChar(c: char)
  {
    'a' <= c <= 'z' || 'A' <= c <= 'Z' || '0' <= c <= '9' || c == '-'
  }

  predicate AllIdChars(s: string)
  {
    forall i :: 0 <= i < |s| ==> IsIdChar(s[i])
  }

  /** A short id as a GET path may carry it: `[a-zA-Z0-9-]+`. */
  predicate IsId(s: string)
  {
    |s| > 0 && AllIdChars(s)
  }

  /** The language of `^/[a-zA-Z0-9-]+$`, character by character. */
  predicate IsIdPath(path: string)
  {
    |path| > 0 && path[0] == '/' && IsId(path[1..])
  }

  /**
   * The pattern compiled to an automaton, as a regular-expression matcher
   * runs it over the path. `InId` is the only accepting state.
   */
  datatype MatchState = Begin | AfterSlash | InId | Failed

  function Step(q: MatchState, c: char): MatchState
  {
    match q
    case Begin => if c == '/' then AfterSlash else Failed
    case AfterSlash => if IsIdChar(c) then InId else Failed
    case InId => if IsIdChar(c) then InId else Failed
    case Failed => Failed
  }

  function Run(q: MatchState, s: string): MatchState
    decreases |s|
  {
    if s == [] then q else Run(Step(q, s[0]), s[1..])
  }

  /** MatchString of `^/[a-zA-Z0-9-]+$`: the whole path must be consumed. */
  predicate MatchString(path: string)
  {
    Run(Begin, path) == InId
  }

  lemma {:induction false} RunFailed(s: string)
    ensures Run(Failed, s) == Failed
    decreases |s|
  {
    if s != [] {
      RunFailed(s[1..]);
    }
  }

  lemma {:induction false} RunInId(s: string)
    ensures Run(InId, s) == InId <==> AllIdChars(s)
    decreases |s|
  {
    if s != [] {
      assert forall i :: 1 <= i < |s| ==> s[1..][i - 1] == s[i];
      if IsIdChar(s[0]) {
        RunInId(s[1..]);
      } else {
        RunFailed(s[1..]);
      }
    }
  }

  lemma RunAfterSlash(s: string)
    ensures Run(AfterSlash, s) == InId <==> IsId(s)
  {
    if s != [] {
      assert forall i :: 1 <= i < |s| ==> s[1..][i - 1] == s[i];
      if IsIdChar(s[0]) {
        RunInId(s[1..]);
      } else {
        RunFailed(s[1..]);
      }
    }
  }

  /** The automaton accepts exactly the paths of the character-class definition. */
  lemma MatchStringIsIdPath(path: string)
    ensures MatchString(path) <==> IsIdPath(path)
  {
    if path != [] {
      if path[0] == '/' {
        RunAfterSlash(path[1..]);
      } else {
        RunFailed(path[1..]);
      }
    }
  }

  /** The outcome of the gate: which handler, if any, the request reaches. */
  datatype Route = ToResolve(id: string) | ToCreate | ToCreateJSON | Rejected

  /**
   * The three accepted shapes, tried in the source's order; everything
   * else is rejected before any handler runs. A GET path's id is the path
   * without its leading slash (the `{id}` parameter of the `/{id}` route).
   */
  function CheckURL(verb: string, path: string): (r: Route)
    ensures r.ToResolve? <==> verb == MethodGet && IsIdPath(path)
    ensures r.ToResolve? ==> path == "/" + r.id && IsId(r.id)
    ensures r.ToCreate? <==> verb == MethodPost && path == "/"
    ensures r.ToCreateJSON? <==> verb == MethodPost && path == ShortenPath
    ensures r.Rejected? <==>
              !(verb == MethodGet && IsIdPath(path)) &&
              !(verb == MethodPost && (path == "/" || path == ShortenPath))
  {
    MatchStringIsIdPath(path);
    if verb == MethodGet && MatchString(path) then ToResolve(path[1..])
    else if verb == MethodPost && path == "/" then ToCreate
    else if verb == MethodPost && path == ShortenPath then ToCreateJSON
    else Rejected
  }

  /** A GET of `/` followed by an id reaches the resolver exactly when the id is well formed. */
  lemma IdPathRoutes(id: string)
    ensures IsId(id) ==> CheckURL(MethodGet, "/" + id) == ToResolve(id)
    ensures !IsId(id) ==> CheckURL(MethodGet, "/" + id) == Rejected
  {
  }

  /** GET rejections: an empty id, an extra segment, another method. */
  lemma RejectedGets()
    ensures CheckURL(MethodGet, "/") == Rejected
    ensures CheckURL(MethodGet, "/abc/def") == Rejected
    ensures CheckURL("DELETE", "/sharaga") == Rejected
  {
    assert !IsIdChar("/abc/def"[4]);
  }

  /**
   * Plain creates on a path other than `/`: the test suite's `/unneededID`,
   * and `/wrong` as one more such path.
   */
  lemma RejectedCreates()
    ensures CheckURL(MethodPost, "/unneededID") == Rejected
    ensures CheckURL(MethodPost, "/wrong") == Rejected
  {
  }

  /** The JSON-endpoint rejections of the test suite: a wrong path and a wrong method. */
  lemma RejectedShortens()
    ensures CheckURL(MethodPost, "/api/path") == Rejected
    ensures CheckURL("PUT", ShortenPath) == Rejected
  {
  }

  /** The accepted shapes of the test suite. */
  lemma AcceptedShapes()
    ensures CheckURL(MethodGet, "/sharaga") == ToResolve("sharaga")
    ensures CheckURL(MethodPost, "/") == ToCreate
    ensures CheckURL(MethodPost, ShortenPath) == ToCreateJSON
  {
    IdPathRoutes("sharaga");
  }
}
