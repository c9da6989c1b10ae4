/** The part of net/http that the listener's handlers touch: a response is
    observed as the trace of calls made on its http.ResponseWriter. */
module Http {

  const StatusOK := 200
  const StatusBadRequest := 400
  const StatusConflict := 409
  const StatusInternalServerError := 500

  /** One call on the response writer: WriteHeader(status), Write(bytes) or Flush(). */
  datatype Event = Header(status: int) | Chunk(bytes: string) | Flushed

  /** The status the client receives: the first WriteHeader decides it; a Write or
      Flush before any WriteHeader, or a handler that writes nothing, commits 200. */
  function StatusOf(trace: seq<Event>): int
  {
    if trace != [] && trace[0].Header? then trace[0].status else StatusOK
  }

  /** The response body: every written chunk, in order. */
  function BodyOf(trace: seq<Event>): string
  {
    if trace == [] then ""
    else (if trace[0].Chunk? then trace[0].bytes else "") + BodyOf(trace[1..])
  }

  lemma {:induction false} BodyOfAppend(a: seq<Event>, b: seq<Event>)
    ensures BodyOf(a + b) == BodyOf(a) + BodyOf(b)
  {
    if a == [] {
      assert a + b == b;
    } else {
      assert (a + b)[1..] == a[1..] + b;
      BodyOfAppend(a[1..], b);
    }
  }

  /** An http.ResponseWriter seen through the calls made on it. `flusher` says
      whether the writer also implements http.Flusher. */
  class ResponseWriter {
    const flusher: bool
    var trace: seq<Event>

    constructor (flusher: bool)
      ensures this.flusher == flusher && trace == []
    {
      this.flusher := flusher;
      trace := [];
    }

    method WriteHeader(status: int)
      modifies this
      ensures trace == old(trace) + [Header(status)]
    {
      trace := trace + [Header(status)];
    }

    method Write(bytes: string)
      modifies this
      ensures trace == old(trace) + [Chunk(bytes)]
    {
      trace := trace + [Chunk(bytes)];
    }

    /** Only reachable through the http.Flusher type assertion. */
    method Flush()
      requires flusher
      modifies this
      ensures trace == old(trace) + [Flushed]
    {
      trace := trace + [Flushed];
    }
  }
}
