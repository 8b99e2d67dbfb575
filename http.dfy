/** The parts of net/http that the middlewares read and write: a request, the
    calls made on a response writer, and the client's response writer. */
module Http {

  newtype byte = x: int | 0 <= x < 256

  type Bytes = seq<byte>

  const StatusOK := 200
  const StatusCreated := 201
  const StatusUnauthorized := 401
  const StatusForbidden := 403
  const StatusTooManyRequests := 429
  const StatusInternalServerError := 500
  const StatusServiceUnavailable := 503

  /** A request as the middlewares see it. `verb` is r.Method; `query` is r.URL.Query() kept as the
      (name, value) pairs in the order they appear in the URL; `header` maps a
      header name, spelt as the source spells it, to its first value (Go's
      canonical form of names, such as `X-User-Id` for `X-User-ID`, is not
      modelled: each header has one spelling throughout the model). */
  datatype Request = Request(
    verb: string,
    path: string,
    query: seq<(string, string)>,
    header: map<string, string>,
    remoteAddr: string)
  {
    /** r.Header.Get(name): the empty string when the header is absent */
    function HeaderGet(name: string): (v: string)
      ensures name !in header ==> v == ""
      ensures name in header ==> v == header[name]
    {
      if name in header then header[name] else ""
    }
  }

  /** One call made on an http.ResponseWriter by a handler. */
  datatype Event = WriteHeader(code: int) | Write(chunk: Bytes)

  /** The bytes one call contributes to the response body. */
  function Chunk(e: Event): Bytes {
    match e
    case Write(c) => c
    case WriteHeader(_) => []
  }

  /** The chunks written by a sequence of calls, concatenated in order. */
  function Body(events: seq<Event>): Bytes
  {
    if events == [] then [] else Body(events[..|events| - 1]) + Chunk(events[|events| - 1])
  }

  /** The status the client receives for a sequence of calls: the code of
      the first call when it is a WriteHeader; otherwise 200, which a first
      Write (or no call at all) implies, and later WriteHeader calls are
      superfluous. */
  function ClientStatus(events: seq<Event>): (code: int)
    ensures events == [] ==> code == StatusOK
    ensures events != [] && events[0].Write? ==> code == StatusOK
    ensures events != [] && events[0].WriteHeader? ==> code == events[0].code
  {
    if events != [] && events[0].WriteHeader? then events[0].code else StatusOK
  }

  /** The status a status-capturing writer holds after the calls `events`,
      having started at `init`: the code of the last WriteHeader, or `init` when there is
      none. */
  function LastStatus(events: seq<Event>, init: int): (s: int)
    ensures (forall i :: 0 <= i < |events| ==> !events[i].WriteHeader?) ==> s == init
    ensures s != init ==> Event.WriteHeader(s) in events
  {
    if events == [] then init
    else if events[|events| - 1].WriteHeader? then events[|events| - 1].code
    else
      var prefix := events[..|events| - 1];
      assert forall e :: e in prefix ==> e in events;
      LastStatus(prefix, init)
  }

  /** The status held is the code of the last WriteHeader call. */
  lemma {:induction false} LastStatusIsLastHeader(events: seq<Event>, init: int, i: int)
    requires LastHeaderAt(events, i)
    ensures LastStatus(events, init) == events[i].code
    decreases |events|
  {
    if i < |events| - 1 {
      var prefix := events[..|events| - 1];
      assert LastHeaderAt(prefix, i);
      LastStatusIsLastHeader(prefix, init, i);
    }
  }

  /** Call `i` is a WriteHeader and no later call is one. */
  predicate LastHeaderAt(events: seq<Event>, i: int) {
    0 <= i < |events| && events[i].WriteHeader?
    && forall j :: i < j < |events| ==> !events[j].WriteHeader?
  }

  /** Text whose characters are all ASCII, so that its UTF-8 encoding is
      one byte per character. */
  predicate IsAscii(s: string) {
    forall i :: 0 <= i < |s| ==> s[i] as int < 128
  }

  /** The low byte of each character: the UTF-8 encoding of ASCII text,
      which every message written here is. */
  function Ascii(s: string): (b: Bytes)
    ensures |b| == |s|
    ensures IsAscii(s) ==> forall i :: 0 <= i < |s| ==> b[i] as int == s[i] as int
  {
    seq(|s|, i requires 0 <= i < |s| => (s[i] as int % 256) as byte)
  }

  const PlainText := "text/plain; charset=utf-8"

  /** The headers http.Error sets. */
  function ErrorHeader(h: map<string, string>): map<string, string> {
    h["Content-Type" := PlainText]["X-Content-Type-Options" := "nosniff"]
  }

  /** The calls http.Error makes: the status, then the message and a newline. */
  function ErrorEvents(message: string, code: int): seq<Event> {
    [Event.WriteHeader(code), Event.Write(Ascii(message + "\n"))]
  }

  /** The client of http.Error receives the error code and the message
      followed by a newline as the body. */
  lemma ErrorReply(message: string, code: int)
    ensures ClientStatus(ErrorEvents(message, code)) == code
    ensures Body(ErrorEvents(message, code)) == Ascii(message + "\n")
  {
    var chunk := Ascii(message + "\n");
    var events := ErrorEvents(message, code);
    var head := [Event.WriteHeader(code)];
    assert events == head + [Event.Write(chunk)];
    assert events[..1] == head;
    assert Body(head) == Body(head[..0]) + Chunk(head[0]) == [];
    assert Body(events) == Body(head) + Chunk(Event.Write(chunk));
  }

  /** The client's response writer: the headers set so far and every call
      made on it, in order. */
  class Sink {
    var header: map<string, string>
    var sent: seq<Event>

    constructor ()
      ensures header == map[] && sent == []
    {
      header := map[];
      sent := [];
    }

    /** w.Header().Set(name, value) */
    method SetHeader(name: string, value: string)
      modifies this
      ensures header == old(header)[name := value] && sent == old(sent)
    {
      header := header[name := value];
    }

    method WriteHeader(code: int)
      modifies this
      ensures sent == old(sent) + [Event.WriteHeader(code)] && header == old(header)
    {
      sent := sent + [Event.WriteHeader(code)];
    }

    method Write(chunk: Bytes)
      modifies this
      ensures sent == old(sent) + [Event.Write(chunk)] && header == old(header)
    {
      sent := sent + [Event.Write(chunk)];
    }

    /** A handler making the calls `events` on this writer, in order. */
    method Replay(events: seq<Event>)
      modifies this
      ensures sent == old(sent) + events && header == old(header)
    {
      var i := 0;
      while i < |events|
        invariant 0 <= i <= |events|
        invariant sent == old(sent) + events[..i] && header == old(header)
      {
        match events[i] {
          case WriteHeader(code) => WriteHeader(code);
          case Write(chunk) => Write(chunk);
        }
        assert events[..i + 1] == events[..i] + [events[i]];
        i := i + 1;
      }
      assert events[..|events|] == events;
    }
  }

  /** http.Error(w, message, code) */
  method WriteError(w: Sink, message: string, code: int)
    modifies w
    ensures w.header == ErrorHeader(old(w.header))
    ensures w.sent == old(w.sent) + ErrorEvents(message, code)
  {
    w.SetHeader("Content-Type", PlainText);
    w.SetHeader("X-Content-Type-Options", "nosniff");
    w.WriteHeader(code);
    w.Write(Ascii(message + "\n"));
  }
}
