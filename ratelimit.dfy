/** The fixed-window rate limiter (pkg/middleware/ratelimit.go): a counter
    per client address in the key-value store, incremented on every request
    and given an expiry when the increment creates it. A request whose
    count exceeds the maximum is refused. */
module RateLimit {
  import opened Http
  import opened Wrappers
  import opened Cache

  const KeyPrefix := "ratelimit:"
  const RateLimitingError := "Rate limiting error"
  const TooManyRequests := "Too many requests"

  /** The counter key of a client address. */
  function CounterKey(remoteAddr: string): (k: string)
    ensures |k| == |KeyPrefix| + |remoteAddr|
    ensures k[..|KeyPrefix|] == KeyPrefix && k[|KeyPrefix|..] == remoteAddr
  {
    KeyPrefix + remoteAddr
  }

  /** Distinct addresses have distinct counters. */
  lemma CounterKeyInjective(a: string, b: string)
    ensures CounterKey(a) == CounterKey(b) <==> a == b
  {
    if CounterKey(a) == CounterKey(b) {
      assert a == CounterKey(a)[|KeyPrefix|..];
      assert b == CounterKey(b)[|KeyPrefix|..];
    }
  }

  /** The value INCR reads for a key: 0 when the key is absent. */
  function CountOf(counts: map<string, int>, key: string): int {
    if key in counts then counts[key] else 0
  }

  /** Whether a request whose post-increment count is `count` is let through. */
  predicate Admitted(count: int, maxRequests: int) {
    count <= maxRequests
  }

  /** The counters held by the store: their values and the expiry window
      set on each (the store's clock is not modelled; Lapse stands for a
      window running out). `up` is false when every command fails. */
  class Counters {
    var counts: map<string, int>
    var ttl: map<string, int>
    const up: bool

    constructor (up: bool)
      ensures counts == map[] && ttl == map[] && this.up == up
    {
      counts := map[];
      ttl := map[];
      this.up := up;
    }

    /** Every counter is positive and will expire. */
    predicate Valid()
      reads this
    {
      forall k :: k in counts ==> counts[k] >= 1 && k in ttl
    }

    /** INCR: the new value, creating the counter at 1. */
    method Incr(key: string) returns (r: Result<int, StoreError>)
      modifies this
      ensures !up ==> r == Failure(ConnectionDown) && counts == old(counts)
      ensures up ==> (r == Success(CountOf(old(counts), key) + 1)
                      && counts == old(counts)[key := CountOf(old(counts), key) + 1])
      ensures ttl == old(ttl)
    {
      if !up {
        return Failure(ConnectionDown);
      }
      var n := CountOf(counts, key) + 1;
      counts := counts[key := n];
      r := Success(n);
    }

    /** EXPIRE: sets the window of an existing counter; a missing key is
        left alone. */
    method Expire(key: string, window: int) returns (applied: bool)
      modifies this
      ensures applied <==> up && key in old(counts)
      ensures ttl == (if applied then old(ttl)[key := window] else old(ttl))
      ensures counts == old(counts)
    {
      if !up || key !in counts {
        return false;
      }
      ttl := ttl[key := window];
      applied := true;
    }

    /** The window of an expiring counter runs out: the counter is gone. */
    method Lapse(key: string)
      requires key in ttl
      modifies this
      ensures counts == old(counts) - {key} && ttl == old(ttl) - {key}
    {
      counts := counts - {key};
      ttl := ttl - {key};
    }
  }

  /** What the client receives for one request. */
  function Reply(served: seq<Event>, ok: bool): seq<Event> {
    if ok then served else ErrorEvents(TooManyRequests, StatusTooManyRequests)
  }

  /** Counters `counts`/`ttl` and response `sent`/`header` are those after
      `i` requests of a run that started from `counts0`, `ttl0`, `sent0`
      and `header0`. */
  ghost predicate RunValues(counts: map<string, int>, ttl: map<string, int>, sent: seq<Event>, header: map<string, string>,
                            key: string, i: nat, counts0: map<string, int>, ttl0: map<string, int>,
                            sent0: seq<Event>, header0: map<string, string>, served: seq<Event>,
                            maxRequests: int, window: int)
  {
    var start := CountOf(counts0, key);
    var rs := WindowRun(start, i, maxRequests);
    && counts == CountsAfter(counts0, key, start, i)
    && ttl == TtlAfter(ttl0, key, start, i, window)
    && sent == sent0 + Replies(served, rs)
    && header == HeaderAfter(header0, rs)
  }

  lemma RunValuesCount(counts: map<string, int>, ttl: map<string, int>, sent: seq<Event>, header: map<string, string>,
                       key: string, i: nat, counts0: map<string, int>, ttl0: map<string, int>,
                       sent0: seq<Event>, header0: map<string, string>, served: seq<Event>,
                       maxRequests: int, window: int)
    requires RunValues(counts, ttl, sent, header, key, i, counts0, ttl0, sent0, header0, served, maxRequests, window)
    ensures CountOf(counts, key) == CountOf(counts0, key) + i
  {
  }

  /** One more request of a run keeps RunValues. */
  lemma RunValuesStep(counts: map<string, int>, ttl: map<string, int>, sent: seq<Event>, header: map<string, string>,
                      key: string, i: nat, counts0: map<string, int>, ttl0: map<string, int>,
                      sent0: seq<Event>, header0: map<string, string>, served: seq<Event>,
                      maxRequests: int, window: int)
    requires CountOf(counts0, key) >= 0
    requires RunValues(counts, ttl, sent, header, key, i, counts0, ttl0, sent0, header0, served, maxRequests, window)
    ensures var count := CountOf(counts0, key) + i;
      var ok := Admitted(count + 1, maxRequests);
      RunValues(counts[key := count + 1],
                if count == 0 then ttl[key := window] else ttl,
                sent + Reply(served, ok),
                if ok then header else ErrorHeader(header),
                key, i + 1, counts0, ttl0, sent0, header0, served, maxRequests, window)
  {
    var start := CountOf(counts0, key);
    CounterStep(counts0, ttl0, key, start, i, window);
    ReplyStep(sent, header, served, start, i, sent0, header0, maxRequests);
  }

  /** The response part of one more request of a run. */
  lemma ReplyStep(sent: seq<Event>, header: map<string, string>, served: seq<Event>, start: int, i: nat,
                  sent0: seq<Event>, header0: map<string, string>, maxRequests: int)
    requires sent == sent0 + Replies(served, WindowRun(start, i, maxRequests))
    requires header == HeaderAfter(header0, WindowRun(start, i, maxRequests))
    ensures var ok := Admitted(start + i + 1, maxRequests);
      && sent + Reply(served, ok) == sent0 + Replies(served, WindowRun(start, i + 1, maxRequests))
      && (if ok then header else ErrorHeader(header)) == HeaderAfter(header0, WindowRun(start, i + 1, maxRequests))
  {
    RunStep(served, header0, start, i, maxRequests);
    var ok := Admitted(start + i + 1, maxRequests);
    AppendAssociative(sent0, Replies(served, WindowRun(start, i, maxRequests)), Reply(served, ok));
  }

  lemma AppendAssociative<T>(a: seq<T>, b: seq<T>, c: seq<T>)
    ensures (a + b) + c == a + (b + c)
  {
  }

  class RateLimiter {
    const counters: Counters
    const maxRequests: int
    const window: int

    constructor (counters: Counters, maxRequests: int, window: int)
      ensures this.counters == counters && this.maxRequests == maxRequests && this.window == window
    {
      this.counters := counters;
      this.maxRequests := maxRequests;
      this.window := window;
    }

    /** RateLimit applied to one request: count it, set the expiry when the
        count is 1, and refuse it with 429 when the count exceeds the
        maximum; a failing store gives 500 and counts nothing. Only the
        request's own counter changes, and a refused request is counted
        too. */
    method RateLimit(next: Request -> seq<Event>, r: Request, w: Sink)
      modifies counters, w
      ensures var key := CounterKey(r.remoteAddr);
        if !counters.up then
          counters.counts == old(counters.counts) && counters.ttl == old(counters.ttl)
          && w.header == ErrorHeader(old(w.header))
          && w.sent == old(w.sent) + ErrorEvents(RateLimitingError, StatusInternalServerError)
        else
          var count := CountOf(old(counters.counts), key) + 1;
          && counters.counts == old(counters.counts)[key := count]
          && counters.ttl == (if count == 1 then old(counters.ttl)[key := window] else old(counters.ttl))
          && (!Admitted(count, maxRequests) ==>
                w.header == ErrorHeader(old(w.header))
                && w.sent == old(w.sent) + ErrorEvents(TooManyRequests, StatusTooManyRequests))
          && (Admitted(count, maxRequests) ==> w.header == old(w.header) && w.sent == old(w.sent) + next(r))
      ensures old(counters.Valid()) ==> counters.Valid()
    {
      var key := CounterKey(r.remoteAddr);
      var val := counters.Incr(key);
      if val.Failure? {
        WriteError(w, RateLimitingError, StatusInternalServerError);
        return;
      }
      if val.value == 1 {
        var _ := counters.Expire(key, window);
      }
      if val.value > maxRequests {
        WriteError(w, TooManyRequests, StatusTooManyRequests);
        return;
      }
      w.Replay(next(r));
    }

    /** The state of the store and of the response after `i` requests of a
        run that started from counters `counts0`/`ttl0` and response
        `sent0`/`header0`. */
    ghost predicate RunState(r: Request, w: Sink, i: nat, counts0: map<string, int>, ttl0: map<string, int>,
                             sent0: seq<Event>, header0: map<string, string>, served: seq<Event>)
      reads this, counters, w
    {
      RunValues(counters.counts, counters.ttl, w.sent, w.header, CounterKey(r.remoteAddr), i,
                counts0, ttl0, sent0, header0, served, maxRequests, window)
    }

    /** One request on an available store, its counter holding `count`
        before it. */
    method Request1(next: Request -> seq<Event>, r: Request, w: Sink, count: int)
      requires counters.up && counters.Valid()
      requires CountOf(counters.counts, CounterKey(r.remoteAddr)) == count
      modifies counters, w
      ensures counters.Valid()
      ensures counters.counts == old(counters.counts)[CounterKey(r.remoteAddr) := count + 1]
      ensures counters.ttl == (if count == 0 then old(counters.ttl)[CounterKey(r.remoteAddr) := window] else old(counters.ttl))
      ensures w.sent == old(w.sent) + Reply(next(r), Admitted(count + 1, maxRequests))
      ensures w.header == (if Admitted(count + 1, maxRequests) then old(w.header) else ErrorHeader(old(w.header)))
    {
      RateLimit(next, r, w);
    }

    /** One request of a run on an available store. */
    method Step(next: Request -> seq<Event>, r: Request, w: Sink, i: nat, ghost counts0: map<string, int>,
                ghost ttl0: map<string, int>, ghost sent0: seq<Event>, ghost header0: map<string, string>)
      requires counters.up && counters.Valid() && CountOf(counts0, CounterKey(r.remoteAddr)) >= 0
      requires RunState(r, w, i, counts0, ttl0, sent0, header0, next(r))
      modifies counters, w
      ensures counters.Valid()
      ensures RunState(r, w, i + 1, counts0, ttl0, sent0, header0, next(r))
    {
      var key := CounterKey(r.remoteAddr);
      var count := CountOf(counters.counts, key);
      ghost var counts, ttl, sent, header := counters.counts, counters.ttl, w.sent, w.header;
      RunValuesCount(counts, ttl, sent, header, key, i, counts0, ttl0, sent0, header0, next(r), maxRequests, window);
      Request1(next, r, w, count);
      RunValuesStep(counts, ttl, sent, header, key, i, counts0, ttl0, sent0, header0, next(r), maxRequests, window);
    }

    /** `n` successive requests from one client within one window of an
        available store, its counter holding `start` before the first:
        request i sees the count start + i + 1, so what it gets is what
        WindowRun says. */
    method Run(next: Request -> seq<Event>, r: Request, w: Sink, n: nat)
      requires counters.up && counters.Valid()
      modifies counters, w
      ensures var key, start := CounterKey(r.remoteAddr), CountOf(old(counters.counts), CounterKey(r.remoteAddr));
        var rs := WindowRun(start, n, maxRequests);
        && counters.counts == CountsAfter(old(counters.counts), key, start, n)
        && counters.ttl == TtlAfter(old(counters.ttl), key, start, n, window)
        && w.sent == old(w.sent) + Replies(next(r), rs)
        && w.header == HeaderAfter(old(w.header), rs)
      ensures counters.Valid()
    {
      ghost var counts0, ttl0, sent0, header0 := counters.counts, counters.ttl, w.sent, w.header;
      var i := 0;
      while i < n
        invariant 0 <= i <= n
        invariant counters.Valid()
        invariant RunState(r, w, i, counts0, ttl0, sent0, header0, next(r))
      {
        Step(next, r, w, i, counts0, ttl0, sent0, header0);
        i := i + 1;
      }
    }

    /** A run that starts once the client's window has lapsed: the counter
        is gone, so exactly the first maxRequests requests reach the
        handler. */
    method FreshWindowRun(next: Request -> seq<Event>, r: Request, w: Sink, n: nat)
      requires counters.up && counters.Valid()
      modifies counters, w
      ensures var key, rs := CounterKey(r.remoteAddr), WindowRun(0, n, maxRequests);
        && counters.counts == CountsAfter(old(counters.counts) - {key}, key, 0, n)
        && counters.ttl == TtlAfter(old(counters.ttl) - {key}, key, 0, n, window)
        && w.sent == old(w.sent) + Replies(next(r), rs)
        && w.header == HeaderAfter(old(w.header), rs)
        && Passed(rs) == if maxRequests <= 0 then 0 else if n <= maxRequests then n else maxRequests
      ensures counters.Valid()
    {
      var key := CounterKey(r.remoteAddr);
      if key in counters.ttl {
        counters.Lapse(key);
      } else {
        assert counters.counts == counters.counts - {key} && counters.ttl == counters.ttl - {key};
      }
      Run(next, r, w, n);
      FirstRequestsPass(n, maxRequests);
    }
  }

  /** The outcomes of `n` successive requests from one address within one
      window, its counter holding `start` before the first: request i sees
      the count start + i + 1. */
  function WindowRun(start: int, n: nat, maxRequests: int): (rs: seq<bool>)
    ensures |rs| == n
    ensures forall i :: 0 <= i < n ==> rs[i] == Admitted(start + i + 1, maxRequests)
  {
    if n == 0 then [] else WindowRun(start, n - 1, maxRequests) + [Admitted(start + n, maxRequests)]
  }

  /** How many of the outcomes let the request through. */
  function Passed(rs: seq<bool>): nat {
    if rs == [] then 0 else Passed(rs[..|rs| - 1]) + (if rs[|rs| - 1] then 1 else 0)
  }

  /** What the client receives over a run of outcomes: the handler's reply
      for each admitted request, the 429 reply for each refused one. */
  function Replies(served: seq<Event>, rs: seq<bool>): seq<Event> {
    if rs == [] then []
    else Replies(served, rs[..|rs| - 1]) + Reply(served, rs[|rs| - 1])
  }

  /** The response headers after a run: the error headers once some request
      was refused. */
  function HeaderAfter(h: map<string, string>, rs: seq<bool>): map<string, string> {
    if false in rs then ErrorHeader(h) else h
  }

  lemma ErrorHeaderIdempotent(h: map<string, string>)
    ensures ErrorHeader(ErrorHeader(h)) == ErrorHeader(h)
  {
  }

  /** The counters after `i` requests of a run whose counter started at
      `start`. */
  function CountsAfter(counts: map<string, int>, key: string, start: int, i: nat): map<string, int> {
    if i == 0 then counts else counts[key := start + i]
  }

  /** The expiries after `i` requests of a run: the window is set by the
      request that creates the counter. */
  function TtlAfter(ttl: map<string, int>, key: string, start: int, i: nat, window: int): map<string, int> {
    if start == 0 && i > 0 then ttl[key := window] else ttl
  }

  /** One more request moves the counters as Incr and Expire do. */
  lemma CounterStep(counts: map<string, int>, ttl: map<string, int>, key: string, start: int, i: nat, window: int)
    requires start == CountOf(counts, key) >= 0
    ensures CountOf(CountsAfter(counts, key, start, i), key) == start + i
    ensures CountsAfter(counts, key, start, i)[key := start + i + 1] == CountsAfter(counts, key, start, i + 1)
    ensures (if start + i == 0 then TtlAfter(ttl, key, start, i, window)[key := window] else TtlAfter(ttl, key, start, i, window))
            == TtlAfter(ttl, key, start, i + 1, window)
  {
  }

  /** Extending a run by one outcome extends what the client receives. */
  lemma RunStep(served: seq<Event>, h: map<string, string>, start: int, i: nat, maxRequests: int)
    ensures var rs, next := WindowRun(start, i, maxRequests), WindowRun(start, i + 1, maxRequests);
      var ok := Admitted(start + i + 1, maxRequests);
      && Replies(served, next) == Replies(served, rs) + Reply(served, ok)
      && HeaderAfter(h, next) == (if ok then HeaderAfter(h, rs) else ErrorHeader(HeaderAfter(h, rs)))
  {
    var rs, next := WindowRun(start, i, maxRequests), WindowRun(start, i + 1, maxRequests);
    assert next[..i] == rs;
    assert false in next <==> false in rs || !next[i];
    ErrorHeaderIdempotent(h);
  }

  /** Within one fresh window exactly the first maxRequests requests pass:
      the number passed is n capped at maxRequests (none when it is not
      positive). */
  lemma {:induction false} FirstRequestsPass(n: nat, maxRequests: int)
    ensures Passed(WindowRun(0, n, maxRequests)) == if maxRequests <= 0 then 0 else if n <= maxRequests then n else maxRequests
  {
    if n > 0 {
      var rs := WindowRun(0, n, maxRequests);
      assert rs[..n - 1] == WindowRun(0, n - 1, maxRequests);
      FirstRequestsPass(n - 1, maxRequests);
    }
  }

  /** Once a request is refused in a window, every later one in the same
      window is refused too. */
  lemma RefusalIsFinal(start: int, n: nat, maxRequests: int, i: nat, j: nat)
    requires i <= j < n
    requires !WindowRun(start, n, maxRequests)[i]
    ensures !WindowRun(start, n, maxRequests)[j]
  {
  }
}
