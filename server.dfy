/**
 * The shortening service of cmd/server/main.go: the store (Connection and
 * its map), the three handlers, and the whole path of one request through
 * checkURL, the router and the logging writer.
 */
module Server {
  import opened Wrappers
  import opened Http
  import opened Routing
  import opened Logging

  /** The store the process starts with (mapURLmain). */
  const InitialStore: map<string, string> := map["sharaga" := "https://mai.ru"]

  const GetErrorBody := "Invalid URL for GET"
  const PostErrorBody := "Invalid URL for POST"
  /** What http.Error sends for a rejected request: the message and a newline. */
  const RejectErrorBody := "Invalid URL\n"
  /** What checkURL then writes once more through the logging writer. */
  const RejectLoggedBody := "Invalid URL"

  /**
   * encoding/json as the JSON handler uses it: decoding a request body
   * into the `url` field of SomeURL, which may fail, and marshalling
   * ShortURL{URL: id} with one-space indentation, which cannot.
   */
  datatype JsonCodec = JsonCodec(decodeSomeURL: string -> Option<string>, marshalShortURL: string -> string)

  /** A body that cannot be read fails to decode as well. */
  function DecodeBody(body: Option<string>, codec: JsonCodec): Option<string>
  {
    match body
    case None => None
    case Some(b) => codec.decodeSomeURL(b)
  }

  /**
   * Resolve: a known id answers a temporary redirect to the stored URL
   * with an empty body; an unknown id answers 400 without a Location.
   */
  function GetHandler(mapURL: map<string, string>, id: string): (r: Response)
    ensures id in mapURL ==>
              r.status == StatusTemporaryRedirect && r.location == Some(mapURL[id]) && r.body == ""
    ensures id !in mapURL ==>
              r.status == StatusBadRequest && r.location == None && r.body == GetErrorBody
  {
    if id !in mapURL then Response(StatusBadRequest, None, GetErrorBody)
    else Response(StatusTemporaryRedirect, Some(mapURL[id]), "")
  }

  /** The answer to one request and the store it leaves behind. */
  datatype Outcome = Outcome(response: Response, store: map<string, string>)

  /**
   * One request through checkURL and the router, as a function of the
   * store before it: the specification the Connection methods meet.
   */
  function Dispatch(store: map<string, string>, req: Request, urlID: string, codec: JsonCodec): Outcome
  {
    match CheckURL(req.verb, req.path)
    case ToResolve(id) => Outcome(GetHandler(store, id), store)
    case ToCreate =>
      if req.body.None? then Outcome(Response(StatusBadRequest, None, PostErrorBody), store)
      else Outcome(Response(StatusCreated, None, req.path + urlID), store[urlID := req.body.value])
    case ToCreateJSON =>
      var decoded := DecodeBody(req.body, codec);
      if decoded.None? then Outcome(Response(StatusBadRequest, None, ""), store)
      else Outcome(Response(StatusCreated, None, codec.marshalShortURL(urlID)), store[urlID := decoded.value])
    case Rejected => Outcome(Response(StatusBadRequest, None, RejectErrorBody + RejectLoggedBody), store)
  }

  /** The URL a request stores: the body of a create that gets past every error check. */
  function StoredURL(req: Request, codec: JsonCodec): Option<string>
  {
    match CheckURL(req.verb, req.path)
    case ToCreate => req.body
    case ToCreateJSON => DecodeBody(req.body, codec)
    case _ => None
  }

  /**
   * The store changes only through a successful create, and only at the
   * configured id; a create answers 201 exactly when it stores, and every
   * client error leaves the store as it was.
   */
  lemma DispatchEffect(store: map<string, string>, req: Request, urlID: string, codec: JsonCodec)
    ensures var o := Dispatch(store, req, urlID, codec);
            && o.store == (if StoredURL(req, codec).Some? then store[urlID := StoredURL(req, codec).value] else store)
            && (o.response.status == StatusCreated <==> StoredURL(req, codec).Some?)
            && (o.response.status == StatusBadRequest ==> o.store == store)
            && o.response.status in {StatusCreated, StatusTemporaryRedirect, StatusBadRequest}
            && (o.response.location.Some? <==> o.response.status == StatusTemporaryRedirect)
  {
  }

  /**
   * Round trip: after a plain create that stores `u` under the configured
   * id, a GET of that id redirects to `u`, provided the id is one the gate
   * lets through; an id outside `[a-zA-Z0-9-]+` (the empty one included)
   * can be stored but never resolved.
   */
  lemma CreateThenResolve(store: map<string, string>, urlID: string, u: string, codec: JsonCodec, getBody: Option<string>)
    ensures var created := Dispatch(store, Request(MethodPost, "/", Some(u)), urlID, codec);
            var resolved := Dispatch(created.store, Request(MethodGet, "/" + urlID, getBody), urlID, codec);
            && created.response == Response(StatusCreated, None, "/" + urlID)
            && (IsId(urlID) ==> resolved.response == Response(StatusTemporaryRedirect, Some(u), ""))
            && (!IsId(urlID) ==> resolved.response.status == StatusBadRequest && resolved.response.location == None)
  {
    AcceptedShapes();
    IdPathRoutes(urlID);
  }

  /**
   * The same round trip through the JSON endpoint: a body that decodes is
   * stored and answered with 201 whatever the id, and resolves only under
   * an id the gate lets through; a body that does not decode changes nothing.
   */
  lemma CreateJSONThenResolve(store: map<string, string>, urlID: string, body: string, codec: JsonCodec, getBody: Option<string>)
    ensures var created := Dispatch(store, Request(MethodPost, ShortenPath, Some(body)), urlID, codec);
            var resolved := Dispatch(created.store, Request(MethodGet, "/" + urlID, getBody), urlID, codec);
            && (codec.decodeSomeURL(body).Some? ==>
                  created.response == Response(StatusCreated, None, codec.marshalShortURL(urlID)) &&
                  created.store == store[urlID := codec.decodeSomeURL(body).value])
            && (codec.decodeSomeURL(body).Some? && IsId(urlID) ==>
                  resolved.response == Response(StatusTemporaryRedirect, codec.decodeSomeURL(body), ""))
            && (!IsId(urlID) ==>
                  resolved.response.status == StatusBadRequest && resolved.response.location == None)
            && (codec.decodeSomeURL(body).None? ==>
                  created.response.status == StatusBadRequest && created.store == store)
  {
    AcceptedShapes();
    IdPathRoutes(urlID);
  }

  /** Two creates under the same id: the second URL wins. */
  lemma LastWriteWins(store: map<string, string>, urlID: string, u1: string, u2: string, codec: JsonCodec)
    ensures var first := Dispatch(store, Request(MethodPost, "/", Some(u1)), urlID, codec);
            var second := Dispatch(first.store, Request(MethodPost, "/", Some(u2)), urlID, codec);
            GetHandler(second.store, urlID) == Response(StatusTemporaryRedirect, Some(u2), "")
  {
    AcceptedShapes();
  }

  /** The store after a sequence of requests, served one after another. */
  function AfterRequests(store: map<string, string>, reqs: seq<Request>, urlID: string, codec: JsonCodec): map<string, string>
    decreases |reqs|
  {
    if reqs == [] then store
    else Dispatch(AfterRequests(store, reqs[..|reqs| - 1], urlID, codec), reqs[|reqs| - 1], urlID, codec).store
  }

  /** The URL stored by the last request of the sequence that stores one. */
  function LastStored(reqs: seq<Request>, codec: JsonCodec): Option<string>
    decreases |reqs|
  {
    if reqs == [] then None
    else if StoredURL(reqs[|reqs| - 1], codec).Some? then StoredURL(reqs[|reqs| - 1], codec)
    else LastStored(reqs[..|reqs| - 1], codec)
  }

  /**
   * Single-slot mode: whatever sequence of requests is served, the store
   * differs from the initial one at most at the configured id, which
   * holds the URL of the last successful create.
   */
  lemma {:induction false} SingleSlot(store: map<string, string>, reqs: seq<Request>, urlID: string, codec: JsonCodec)
    ensures AfterRequests(store, reqs, urlID, codec) ==
            if LastStored(reqs, codec).Some? then store[urlID := LastStored(reqs, codec).value] else store
    decreases |reqs|
  {
    if reqs != [] {
      var init := reqs[..|reqs| - 1];
      SingleSlot(store, init, urlID, codec);
      DispatchEffect(AfterRequests(store, init, urlID, codec), reqs[|reqs| - 1], urlID, codec);
    }
  }

  /**
   * What a GET answers after any sequence of requests: every other id
   * resolves as it did before, and the configured id resolves to the
   * last URL created, if any create succeeded.
   */
  lemma ResolveAfterRequests(store: map<string, string>, reqs: seq<Request>, urlID: string, codec: JsonCodec, id: string)
    ensures var after := AfterRequests(store, reqs, urlID, codec);
            && (id != urlID ==> GetHandler(after, id) == GetHandler(store, id))
            && (id == urlID && LastStored(reqs, codec).Some? ==>
                  GetHandler(after, id) == Response(StatusTemporaryRedirect, LastStored(reqs, codec), ""))
  {
    SingleSlot(store, reqs, urlID, codec);
  }

  /** The shared store: one map from short id to original URL, updated in place. */
  class Connection {
    var mapURL: map<string, string>

    constructor (seed: map<string, string>)
      ensures mapURL == seed
    {
      mapURL := seed;
    }

    /**
     * Plain create: the whole body is the URL, stored under the configured
     * id; the answer echoes the request path followed by the id. A body
     * that cannot be read is a client error and the store is untouched.
     */
    method PostHandler(req: Request, urlID: string) returns (r: Response)
      modifies this`mapURL
      ensures req.body.None? ==>
                r == Response(StatusBadRequest, None, PostErrorBody) && mapURL == old(mapURL)
      ensures req.body.Some? ==>
                r == Response(StatusCreated, None, req.path + urlID) &&
                mapURL == old(mapURL)[urlID := req.body.value]
      ensures req.body.Some? ==> GetHandler(mapURL, urlID).location == req.body
      ensures forall id :: id != urlID ==> GetHandler(mapURL, id) == GetHandler(old(mapURL), id)
    {
      if req.body.None? {
        r := Response(StatusBadRequest, None, PostErrorBody);
        return;
      }
      mapURL := mapURL[urlID := req.body.value];
      r := Response(StatusCreated, None, req.path + urlID);
    }

    /**
     * JSON create: the `url` field of the decoded body is stored under the
     * configured id and the answer is the marshalled ShortURL. A body that
     * does not decode is a client error with no body; the store is untouched.
     */
    method PostHandlerJSON(req: Request, urlID: string, codec: JsonCodec) returns (r: Response)
      modifies this`mapURL
      ensures DecodeBody(req.body, codec).None? ==>
                r == Response(StatusBadRequest, None, "") && mapURL == old(mapURL)
      ensures DecodeBody(req.body, codec).Some? ==>
                r == Response(StatusCreated, None, codec.marshalShortURL(urlID)) &&
                mapURL == old(mapURL)[urlID := DecodeBody(req.body, codec).value]
      ensures DecodeBody(req.body, codec).Some? ==>
                GetHandler(mapURL, urlID).location == DecodeBody(req.body, codec)
      ensures forall id :: id != urlID ==> GetHandler(mapURL, id) == GetHandler(old(mapURL), id)
    {
      var someURL := DecodeBody(req.body, codec);
      if someURL.None? {
        r := Response(StatusBadRequest, None, "");
        return;
      }
      mapURL := mapURL[urlID := someURL.value];
      r := Response(StatusCreated, None, codec.marshalShortURL(urlID));
    }

    /**
     * Serves one request on a fresh response writer: the gate, the handler
     * it routes to, and the logging writer around it. Returns the status
     * code and byte count that would be logged.
     */
    method Serve(req: Request, urlID: string, codec: JsonCodec, res: Transport) returns (code: int, size: int)
      requires res.status == 0 && res.location == [] && res.sent == []
      modifies this`mapURL, res
      ensures var o := Dispatch(old(mapURL), req, urlID, codec);
              && mapURL == o.store
              && code == o.response.status && res.status == code
              && res.location == (if o.response.location.Some? then [o.response.location.value] else [])
              && res.sent == o.response.body[..Min(|o.response.body|, old(res.capacity))]
              && res.capacity == old(res.capacity) - |res.sent|
      ensures !CheckURL(req.verb, req.path).Rejected? ==>
                var body := Dispatch(old(mapURL), req, urlID, codec).response.body;
                size == if |body| <= old(res.capacity) then |body| else 0
      ensures CheckURL(req.verb, req.path).Rejected? ==>
                size == if |RejectErrorBody + RejectLoggedBody| <= old(res.capacity) then |RejectLoggedBody| else 0
    {
      var logRW := new LogResponse(res);
      match CheckURL(req.verb, req.path) {
        case ToResolve(id) =>
          var r := GetHandler(mapURL, id);
          Answer(logRW, r);
        case ToCreate =>
          var r := PostHandler(req, urlID);
          Answer(logRW, r);
        case ToCreateJSON =>
          var r := PostHandlerJSON(req, urlID, codec);
          Answer(logRW, r);
        case Rejected =>
          Reject(logRW);
      }
      code, size := logRW.code, logRW.size;
    }
  }

  /**
   * The rejecting branch of checkURL: http.Error answers 400 on the
   * connection directly, bypassing the count; then the message is written
   * once more through the logging writer, which records 400.
   */
  method Reject(w: LogResponse)
    requires w.Valid() && w.res.status == 0 && w.res.sent == []
    modifies w, w.res
    ensures w.Valid() && w.code == StatusBadRequest && w.res.status == StatusBadRequest
    ensures w.res.location == old(w.res.location)
    ensures w.res.sent == (RejectErrorBody + RejectLoggedBody)[..Min(|RejectErrorBody + RejectLoggedBody|, old(w.res.capacity))]
    ensures w.res.capacity == old(w.res.capacity) - |w.res.sent|
    ensures w.size == old(w.size) + (if |RejectErrorBody + RejectLoggedBody| <= old(w.res.capacity) then |RejectLoggedBody| else 0)
  {
    w.res.WriteHeader(StatusBadRequest);
    var _, _ := w.res.Write(RejectErrorBody);
    w.WriteHeader(StatusBadRequest);
    var _, _ := w.Write(RejectLoggedBody);
  }

  /**
   * A handler's writes, in the order the handlers make them: the Location
   * header, the status, then the body.
   */
  method Answer(w: LogResponse, r: Response)
    requires w.Valid() && w.res.status == 0 && w.res.location == [] && w.res.sent == []
    requires 100 <= r.status <= 999
    modifies w, w.res
    ensures w.Valid() && w.code == r.status && w.res.status == r.status
    ensures w.res.location == (if r.location.Some? then [r.location.value] else [])
    ensures w.res.sent == r.body[..Min(|r.body|, old(w.res.capacity))]
    ensures w.res.capacity == old(w.res.capacity) - |w.res.sent|
    ensures w.size == old(w.size) + (if |r.body| <= old(w.res.capacity) then |r.body| else 0)
  {
    if r.location.Some? {
      w.AddLocation(r.location.value);
    }
    w.WriteHeader(r.status);
    var _, _ := w.Write(r.body);
  }
}

/**
 * The request sequences of the repository's tests, replayed through the
 * model on connections that accept every byte.
 */
module ServerScenarios {
  import opened Wrappers
  import opened Http
  import opened Routing
  import opened Server

  const ShortenBody := "{\"url\": \"https://ilovebebra.com\"}"
  const MalformedBody := "<\"url\": \"https://ilovebebra.com\">"

  /** Resolve of a seeded id, and of an unknown one. */
  method ResolveScenarios() returns (codes: seq<int>, location: seq<string>, location2: seq<string>)
    ensures codes == [StatusTemporaryRedirect, StatusBadRequest]
    ensures location == ["https://mai.ru"]
    ensures location2 == []
  {
    var codec := JsonCodec(_ => None, id => id);
    AcceptedShapes();
    IdPathRoutes("test");
    var c := new Connection(InitialStore);
    var res := new Transport(1000);
    var code, _ := c.Serve(Request(MethodGet, "/sharaga", None), "", codec, res);
    location := res.location;
    var c2 := new Connection(map["api" := "https://practicum.net"]);
    var res2 := new Transport(1000);
    var code2, _ := c2.Serve(Request(MethodGet, "/test", None), "", codec, res2);
    location2 := res2.location;
    codes := [code, code2];
  }

  /**
   * Plain create as the tests run it, with the empty configured id: the
   * create succeeds and answers `/`, but the id it stored cannot be asked
   * for, since `GET /` does not pass the gate.
   */
  method EmptyIdScenario(seed: map<string, string>, u: string) returns (codes: seq<int>, body: string)
    ensures codes == [StatusCreated, StatusBadRequest]
    ensures body == "/"
  {
    var codec := JsonCodec(_ => None, id => id);
    CreateThenResolve(seed, "", u, codec, None);
    var c := new Connection(seed);
    var r1 := new Transport(1000);
    var code1, _ := c.Serve(Request(MethodPost, "/", Some(u)), "", codec, r1);
    var r2 := new Transport(1000);
    var code2, _ := c.Serve(Request(MethodGet, "/", None), "", codec, r2);
    codes := [code1, code2];
    body := r1.sent;
  }

  /**
   * With a well-formed configured id, a create on `/` followed by a GET of
   * the id redirects to the URL just stored, through the whole pipeline.
   */
  method RoundTripScenario(seed: map<string, string>, urlID: string, u: string, codec: JsonCodec)
    returns (codes: seq<int>, body: string, location: seq<string>)
    requires IsId(urlID)
    ensures codes == [StatusCreated, StatusTemporaryRedirect]
    ensures body == "/" + urlID
    ensures location == [u]
  {
    CreateThenResolve(seed, urlID, u, codec, None);
    var c := new Connection(seed);
    var r1 := new Transport(1 + |urlID|);
    var code1, _ := c.Serve(Request(MethodPost, "/", Some(u)), urlID, codec, r1);
    var r2 := new Transport(1000);
    var code2, _ := c.Serve(Request(MethodGet, "/" + urlID, None), urlID, codec, r2);
    codes := [code1, code2];
    body := r1.sent;
    location := r2.location;
  }

  /** The JSON endpoint: one success and the three rejections of the tests, and a plain create on a wrong path. */
  method ShortenScenarios(codec: JsonCodec) returns (codes: seq<int>)
    requires codec.decodeSomeURL(ShortenBody) == Some("https://ilovebebra.com")
    requires codec.decodeSomeURL(MalformedBody) == None
    ensures codes == [StatusCreated, StatusBadRequest, StatusBadRequest, StatusBadRequest, StatusBadRequest]
  {
    AcceptedShapes();
    RejectedCreates();
    RejectedShortens();
    var c := new Connection(map[]);
    var r1 := new Transport(1000);
    var code1, _ := c.Serve(Request(MethodPost, ShortenPath, Some(ShortenBody)), "", codec, r1);
    var r2 := new Transport(1000);
    var code2, _ := c.Serve(Request(MethodPost, "/api/path", Some(ShortenBody)), "", codec, r2);
    var r3 := new Transport(1000);
    var code3, _ := c.Serve(Request("PUT", ShortenPath, Some(ShortenBody)), "", codec, r3);
    var r4 := new Transport(1000);
    var code4, _ := c.Serve(Request(MethodPost, ShortenPath, Some(MalformedBody)), "", codec, r4);
    var r5 := new Transport(1000);
    var code5, _ := c.Serve(Request(MethodPost, "/unneededID", Some("https://practicum.net")), "", codec, r5);
    codes := [code1, code2, code3, code4, code5];
  }
}
