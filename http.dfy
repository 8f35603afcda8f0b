/**
 * The slice of net/http the URL shortener relies on: requests as values,
 * handler answers as values, and the connection's response writer as a
 * byte sink.
 */
module Http {
  import opened Wrappers

  const MethodGet := "GET"
  const MethodPost := "POST"

  const StatusOK := 200
  const StatusCreated := 201
  const StatusTemporaryRedirect := 307
  const StatusBadRequest := 400

  /** An inbound request; `verb` is its HTTP method, `body` is `None` when reading the body fails. */
  datatype Request = Request(verb: string, path: string, body: Option<string>)

  /**
   * What a handler answers: the status code, the `Location` header it
   * adds (if any) and the bytes it writes to the body.
   */
  datatype Response = Response(status: int, location: Option<string>, body: string)

  function Min(a: int, b: int): int
  {
    if a <= b then a else b
  }

  /**
   * The http.ResponseWriter of one connection. The status is fixed by the
   * first WriteHeader (or by the first Write, as 200); later calls are
   * superfluous. The connection accepts `capacity` more bytes; a Write
   * beyond that writes what fits and reports an error, as io.Writer allows.
   */
  class Transport {
    var status: int            // 0 until the header is written
    var location: seq<string>  // values of the Location header
    var sent: string           // bytes the client received
    var capacity: nat          // bytes the connection still accepts

    constructor (capacity: nat)
      ensures status == 0 && location == [] && sent == []
      ensures this.capacity == capacity
    {
      status := 0;
      location := [];
      sent := [];
      this.capacity := capacity;
    }

    /** A header added once the status is written is not sent; net/http drops it. */
    method AddLocation(v: string)
      modifies this`location
      ensures location == if old(status) == 0 then old(location) + [v] else old(location)
    {
      if status == 0 {
        location := location + [v];
      }
    }

    method WriteHeader(code: int)
      modifies this`status
      ensures status == if old(status) == 0 then code else old(status)
    {
      if status == 0 {
        status := code;
      }
    }

    method Write(b: string) returns (n: nat, failed: bool)
      modifies this`status, this`sent, this`capacity
      ensures n == Min(|b|, old(capacity)) && failed == (n < |b|)
      ensures sent == old(sent) + b[..n]
      ensures capacity == old(capacity) - n
      ensures status == if old(status) == 0 then StatusOK else old(status)
    {
      if status == 0 {
        status := StatusOK;
      }
      n := Min(|b|, capacity);
      failed := n < |b|;
      sent := sent + b[..n];
      capacity := capacity - n;
    }
  }
}
