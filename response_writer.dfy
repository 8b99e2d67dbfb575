/** The status-capturing writer (pkg/middleware/response_writer.go): it
    wraps the client's writer, forwards every call to it, and remembers the
    last status code written, 200 until then. */
module StatusCapture {
  import opened Http

  class ResponseWriter {
    const inner: Sink
    var statusCode: int

    /** NewResponseWriter */
    constructor (w: Sink)
      ensures inner == w && statusCode == StatusOK
    {
      inner := w;
      statusCode := StatusOK;
    }

    /** Records the code and forwards the same code. */
    method WriteHeader(code: int)
      modifies this, inner
      ensures statusCode == code
      ensures inner.sent == old(inner.sent) + [Event.WriteHeader(code)] && inner.header == old(inner.header)
    {
      statusCode := code;
      inner.WriteHeader(code);
    }

    /** Body writes reach the wrapped writer unchanged (the writer is
        embedded) and leave the captured code alone. */
    method Write(chunk: Bytes)
      modifies inner
      ensures inner.sent == old(inner.sent) + [Event.Write(chunk)] && inner.header == old(inner.header)
    {
      inner.Write(chunk);
    }

    function StatusCode(): int
      reads this
    {
      statusCode
    }

    /** A handler making the calls `events` on the wrapper: the client sees
        exactly those calls and the captured code is the last one written. */
    method Serve(events: seq<Event>)
      modifies this, inner
      ensures StatusCode() == LastStatus(events, old(StatusCode()))
      ensures inner.sent == old(inner.sent) + events && inner.header == old(inner.header)
    {
      var i := 0;
      while i < |events|
        invariant 0 <= i <= |events|
        invariant statusCode == LastStatus(events[..i], old(statusCode))
        invariant inner.sent == old(inner.sent) + events[..i] && inner.header == old(inner.header)
      {
        var prefix := events[..i + 1];
        assert prefix[..i] == events[..i] && prefix[i] == events[i];
        match events[i] {
          case WriteHeader(code) => WriteHeader(code);
          case Write(chunk) => Write(chunk);
        }
        i := i + 1;
      }
      assert events[..|events|] == events;
    }
  }

  /** A fresh wrapper reports what the client receives when the handler
      writes at most one status, before any body: 200 when it writes none. */
  lemma {:induction false} CapturedMatchesClient(events: seq<Event>)
    requires forall i :: 0 < i < |events| ==> events[i].Write?
    ensures LastStatus(events, StatusOK) == ClientStatus(events)
  {
    if |events| > 1 {
      var prefix := events[..|events| - 1];
      assert forall i :: 0 < i < |prefix| ==> prefix[i].Write?;
      CapturedMatchesClient(prefix);
      assert prefix[0] == events[0];
    }
  }

  /** When a handler writes a second status, the client keeps the first
      while the wrapper reports the second. */
  lemma SecondStatusDiverges(first: int, second: int)
    requires first != second
    ensures ClientStatus([Event.WriteHeader(first), Event.WriteHeader(second)]) == first
    ensures LastStatus([Event.WriteHeader(first), Event.WriteHeader(second)], StatusOK) == second
  {
  }
}
