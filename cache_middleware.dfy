/** The response-caching middleware (CacheMiddleware): writes invalidate the
    keys their patterns match, GET hits are answered from the store, GET
    misses are recorded and stored when they succeed.

    The origin handler is a function from the request to the calls it makes
    on the response writer it is given. */
module CacheMiddleware {
  import opened Http
  import opened Wrappers
  import opened Cache
  import opened CacheKeys

  const ContentTypeHeader := "Content-Type"
  const JsonContentType := "application/json"
  const CacheHeader := "X-Cache"
  const HitValue := "HIT"

  /** The keys of `data` that some pattern of `patterns` matches. */
  function Invalidated(data: map<string, Bytes>, patterns: seq<string>): (ks: set<string>)
    ensures ks <= data.Keys
    ensures forall k :: k in ks <==> k in data && exists p :: p in patterns && Matches(p, k)
  {
    set k | k in data && exists p :: p in patterns && Matches(p, k)
  }

  /** Only these recorded statuses are stored. */
  predicate Cacheable(status: int) {
    status == StatusOK || status == StatusCreated
  }

  /** What a GET finds in the store: the decoded value under `key`, or
      nothing when the store is down, the key is absent or its bytes do not
      decode (every Get error is a miss). */
  function Lookup(up: bool, data: map<string, Bytes>, key: string): (v: Option<Bytes>)
    ensures v.Some? ==> up && key in data && Encode(v.value) == data[key]
    ensures v.None? ==> !up || key !in data || Decode(data[key]).None?
  {
    if up && key in data then
      var d := Decode(data[key]);
      if d.Some? then
        assert Encode(d.value) == data[key];
        d
      else None
    else None
  }

  /** The store after a GET miss whose origin response was `events`: the
      body is stored under `key` when the recorded status is 200 or 201 and
      the store is up. */
  function AfterMiss(up: bool, data: map<string, Bytes>, key: string, events: seq<Event>): (d: map<string, Bytes>)
    ensures d.Keys <= data.Keys + {key}
    ensures forall k :: k in data && k != key ==> k in d && d[k] == data[k]
  {
    if up && Cacheable(LastStatus(events, 0)) then data[key := Encode(Body(events))] else data
  }

  /** The writer handed to the origin handler on a miss: every call is
      passed through to the client's writer, the body is also buffered, and
      the last status code is kept. */
  class ResponseRecorder {
    const out: Sink
    var buf: Bytes
    var status: int

    constructor (out: Sink)
      ensures this.out == out && buf == [] && status == 0
    {
      this.out := out;
      buf := [];
      status := 0;
    }

    method Write(b: Bytes)
      modifies this, out
      ensures buf == old(buf) + b && status == old(status)
      ensures out.sent == old(out.sent) + [Event.Write(b)] && out.header == old(out.header)
    {
      buf := buf + b;
      out.Write(b);
    }

    method WriteHeader(code: int)
      modifies this, out
      ensures status == code && buf == old(buf)
      ensures out.sent == old(out.sent) + [Event.WriteHeader(code)] && out.header == old(out.header)
    {
      status := code;
      out.WriteHeader(code);
    }
  }

  /** The origin handler making the calls `events` on a recorder. */
  method ServeToRecorder(rec: ResponseRecorder, events: seq<Event>)
    modifies rec, rec.out
    ensures rec.buf == old(rec.buf) + Body(events)
    ensures rec.status == LastStatus(events, old(rec.status))
    ensures rec.out.sent == old(rec.out.sent) + events && rec.out.header == old(rec.out.header)
  {
    var i := 0;
    while i < |events|
      invariant 0 <= i <= |events|
      invariant rec.buf == old(rec.buf) + Body(events[..i])
      invariant rec.status == LastStatus(events[..i], old(rec.status))
      invariant rec.out.sent == old(rec.out.sent) + events[..i] && rec.out.header == old(rec.out.header)
    {
      var prefix := events[..i + 1];
      assert prefix[..i] == events[..i] && prefix[i] == events[i];
      match events[i] {
        case WriteHeader(code) => rec.WriteHeader(code);
        case Write(chunk) => rec.Write(chunk);
      }
      i := i + 1;
    }
    assert events[..|events|] == events;
  }

  class CacheMiddleware {
    const cache: Store
    const duration: int

    constructor (cache: Store, expiration: int)
      ensures this.cache == cache && duration == expiration
    {
      this.cache := cache;
      duration := expiration;
    }

    /** invalidateRelatedCaches: for each pattern, list the matching keys and
        delete them; a failing listing or delete is skipped, and the result
        is always nil. Afterwards no key matching a pattern is left and every
        other key is as it was. */
    method InvalidateRelatedCaches(r: Request) returns (err: Option<StoreError>)
      modifies cache
      ensures err == None
      ensures cache.up ==> cache.data == old(cache.data) - Invalidated(old(cache.data), BuildCachePatterns(r))
      ensures !cache.up ==> cache.data == old(cache.data)
    {
      InvalidatePatterns(BuildCachePatterns(r));
      err := None;
    }

    /** The loop of invalidateRelatedCaches over a list of patterns. */
    method InvalidatePatterns(patterns: seq<string>)
      modifies cache
      ensures cache.up ==> cache.data == old(cache.data) - Invalidated(old(cache.data), patterns)
      ensures !cache.up ==> cache.data == old(cache.data)
    {
      var i := 0;
      while i < |patterns|
        invariant 0 <= i <= |patterns|
        invariant cache.up ==> cache.data == old(cache.data) - Invalidated(old(cache.data), patterns[..i])
        invariant !cache.up ==> cache.data == old(cache.data)
      {
        var scan := cache.Keys(patterns[i]);
        if scan.Success? {
          ghost var before := cache.data;
          assert (set k | k in scan.value) == MatchingKeys(before, patterns[i]);
          DeleteKeys(scan.value);
          assert cache.up ==> cache.data == before - MatchingKeys(before, patterns[i]);
          InvalidatedStep(old(cache.data), before, patterns, i);
        }
        i := i + 1;
      }
      assert patterns[..|patterns|] == patterns;
    }

    /** The inner loop of invalidateRelatedCaches: delete each listed key,
        going on past a failing delete. */
    method DeleteKeys(keys: seq<string>)
      modifies cache
      ensures cache.up ==> cache.data == old(cache.data) - (set k | k in keys)
      ensures !cache.up ==> cache.data == old(cache.data)
    {
      var j := 0;
      while j < |keys|
        invariant 0 <= j <= |keys|
        invariant cache.up ==> cache.data == old(cache.data) - (set t | 0 <= t < j :: keys[t])
        invariant !cache.up ==> cache.data == old(cache.data)
      {
        var _ := cache.Delete(keys[j]);
        j := j + 1;
      }
      assert (set t | 0 <= t < |keys| :: keys[t]) == (set k | k in keys);
    }

    /** CacheHandler applied to one request. Any method but GET invalidates,
        then hands the request to the origin; a GET hit writes the stored
        bytes with the JSON content type and `X-Cache: HIT` without calling
        the origin; a GET miss lets the origin answer through a recorder and
        stores the answer when its recorded status is 200 or 201. */
    method CacheHandler(next: Request -> seq<Event>, r: Request, w: Sink)
      modifies cache, w
      ensures r.verb != "GET" ==>
        && w.sent == old(w.sent) + next(r) && w.header == old(w.header)
        && (cache.up ==> cache.data == old(cache.data) - Invalidated(old(cache.data), BuildCachePatterns(r)))
        && (!cache.up ==> cache.data == old(cache.data))
      ensures r.verb == "GET" && Lookup(cache.up, old(cache.data), BuildCacheKey(r)).Some? ==>
        && w.header == old(w.header)[ContentTypeHeader := JsonContentType][CacheHeader := HitValue]
        && w.sent == old(w.sent) + [Event.Write(Lookup(cache.up, old(cache.data), BuildCacheKey(r)).value)]
        && cache.data == old(cache.data)
      ensures r.verb == "GET" && Lookup(cache.up, old(cache.data), BuildCacheKey(r)).None? ==>
        && w.sent == old(w.sent) + next(r) && w.header == old(w.header)
        && cache.data == AfterMiss(cache.up, old(cache.data), BuildCacheKey(r), next(r))
    {
      if r.verb != "GET" {
        var _ := InvalidateRelatedCaches(r);
        w.Replay(next(r));
        return;
      }
      ServeGet(next(r), BuildCacheKey(r), w);
    }

    /** The GET path of CacheHandler for the key `key`, the origin answering
        with `served`: a hit writes the stored bytes with the JSON content
        type and `X-Cache: HIT`; a miss lets the origin answer through a
        recorder and stores a 200 or 201 answer. */
    method ServeGet(served: seq<Event>, key: string, w: Sink)
      modifies cache, w
      ensures Lookup(cache.up, old(cache.data), key).Some? ==>
        && w.header == old(w.header)[ContentTypeHeader := JsonContentType][CacheHeader := HitValue]
        && w.sent == old(w.sent) + [Event.Write(Lookup(cache.up, old(cache.data), key).value)]
        && cache.data == old(cache.data)
      ensures Lookup(cache.up, old(cache.data), key).None? ==>
        && w.sent == old(w.sent) + served && w.header == old(w.header)
        && cache.data == AfterMiss(cache.up, old(cache.data), key, served)
    {
      var cached := cache.Get(key);
      assert cached.Success? <==> Lookup(cache.up, cache.data, key).Some?;
      if cached.Success? {
        w.SetHeader(ContentTypeHeader, JsonContentType);
        w.SetHeader(CacheHeader, HitValue);
        w.Write(cached.value);
        return;
      }
      var recorder := new ResponseRecorder(w);
      ServeToRecorder(recorder, served);
      assert recorder.buf == Body(served);
      if recorder.status == StatusOK || recorder.status == StatusCreated {
        var _ := cache.Set(key, recorder.buf);
      }
    }
  }

  /** Deleting the keys matching one more pattern extends the invalidated
      set by that pattern. */
  lemma InvalidatedStep(data: map<string, Bytes>, before: map<string, Bytes>, patterns: seq<string>, i: nat)
    requires i < |patterns|
    requires before == data - Invalidated(data, patterns[..i])
    ensures before - MatchingKeys(before, patterns[i]) == data - Invalidated(data, patterns[..i + 1])
  {
    assert patterns[..i + 1] == patterns[..i] + [patterns[i]];
  }

  /** Removing keys other than `key` does not change what a GET of `key`
      finds. */
  lemma LookupUnaffected(data: map<string, Bytes>, gone: set<string>, key: string)
    requires key !in gone
    ensures Lookup(true, data - gone, key) == Lookup(true, data, key)
  {
  }

  /** A handler that never calls WriteHeader leaves the recorded status at
      0, so its answer is never stored, even when the client sees 200. */
  lemma NeverCachedWithoutWriteHeader(up: bool, data: map<string, Bytes>, key: string, events: seq<Event>)
    requires forall i :: 0 <= i < |events| ==> events[i].Write?
    ensures AfterMiss(up, data, key, events) == data
  {
    assert LastStatus(events, 0) == 0;
  }

  /** A stored miss is a hit for the next GET with the same key: it returns
      the concatenated body the origin wrote. */
  lemma MissThenHit(up: bool, data: map<string, Bytes>, key: string, events: seq<Event>)
    requires up && Cacheable(LastStatus(events, 0))
    ensures Lookup(up, AfterMiss(up, data, key, events), key) == Some(Body(events))
  {
    DecodeEncode(Body(events));
  }

  /** A miss whose status is not 200 or 201 leaves the store as it was, so
      the next GET misses again unless the key was already there. */
  lemma FailedMissStoresNothing(up: bool, data: map<string, Bytes>, key: string, events: seq<Event>)
    requires !Cacheable(LastStatus(events, 0))
    ensures AfterMiss(up, data, key, events) == data
    ensures key !in data ==> Lookup(up, AfterMiss(up, data, key, events), key) == None
  {
  }

  /** After a write, a GET with the same version whose key has a further
      segment misses: the write's base pattern removed its entry. */
  lemma WriteInvalidatesScopedReads(data: map<string, Bytes>, w: Request, g: Request)
    requires PathVersion(w.path) == PathVersion(g.path) && Cache.GlobFree(PathVersion(w.path))
    requires OptionalSegments(g) != []
    ensures BuildCacheKey(g) !in data - Invalidated(data, BuildCachePatterns(w))
    ensures Lookup(true, data - Invalidated(data, BuildCachePatterns(w)), BuildCacheKey(g)) == None
  {
    BasePatternCoversKeys(w, g);
    var p := BuildCachePatterns(w)[0];
    assert p in BuildCachePatterns(w);
  }

  /** The gap, at the level of the store: a cached bare list key
      `version:tasks` survives every write with the same (star-free)
      version, so a later plain GET of the list can return the answer from
      before the write. */
  lemma BareListSurvivesWrites(data: map<string, Bytes>, w: Request, g: Request)
    requires PathVersion(w.path) == PathVersion(g.path)
    requires '*' !in PathVersion(g.path)
    requires OptionalSegments(g) == []
    ensures Lookup(true, data - Invalidated(data, BuildCachePatterns(w)), BuildCacheKey(g))
         == Lookup(true, data, BuildCacheKey(g))
  {
    BareKeyEscapesInvalidation(w, g);
    var key := BuildCacheKey(g);
    var gone := Invalidated(data, BuildCachePatterns(w));
    assert key !in gone;
    LookupUnaffected(data, gone, key);
  }
}
