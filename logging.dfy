/**
 * logResponse of cmd/server/main.go: a response writer that forwards every
 * call to the connection's writer and records the status code and the
 * number of body bytes the connection took.
 */
module Logging {
  import opened Http

  class LogResponse {
    const res: Transport
    var code: int   // the last status code written through this wrapper
    var size: int   // body bytes the wrapped writer reported as written

    /** The count never runs ahead of what the connection received. */
    ghost predicate Valid()
      reads this, res
    {
      0 <= size <= |res.sent|
    }

    constructor (res: Transport)
      ensures this.res == res && code == 0 && size == 0
      ensures Valid()
    {
      this.res := res;
      code := 0;
      size := 0;
    }

    /**
     * Forwards the bytes. On a write error it answers 0 and leaves the
     * count alone; otherwise the count grows by what the writer reported.
     */
    method Write(b: string) returns (n: int, failed: bool)
      requires Valid()
      modifies this`size, res
      ensures Valid()
      ensures failed <==> old(res.capacity) < |b|
      ensures failed ==> n == 0 && size == old(size)
      ensures !failed ==> n == |b| && size == old(size) + |b|
      ensures old(size) <= size
      ensures res.sent == old(res.sent) + b[..Min(|b|, old(res.capacity))]
      ensures res.capacity == old(res.capacity) - Min(|b|, old(res.capacity))
      ensures res.status == if old(res.status) == 0 then StatusOK else old(res.status)
      ensures res.location == old(res.location)
    {
      var written, err := res.Write(b);
      if err {
        return 0, true;
      }
      size := size + written;
      return written, false;
    }

    /** Forwards the status and records it, whether or not the writer keeps it. */
    method WriteHeader(statusCode: int)
      requires Valid()
      modifies this`code, res
      ensures Valid()
      ensures code == statusCode && size == old(size)
      ensures res.status == if old(res.status) == 0 then statusCode else old(res.status)
      ensures res.sent == old(res.sent) && res.capacity == old(res.capacity)
      ensures res.location == old(res.location)
    {
      res.WriteHeader(statusCode);
      code := statusCode;
    }

    /** Header().Add("Location", v): the header map is the wrapped writer's own. */
    method AddLocation(v: string)
      requires Valid()
      modifies res
      ensures Valid()
      ensures res.location == if old(res.status) == 0 then old(res.location) + [v] else old(res.location)
      ensures res.status == old(res.status) && res.sent == old(res.sent)
      ensures res.capacity == old(res.capacity)
    {
      res.AddLocation(v);
    }
  }
}
