/** The Redis-backed cache store (RedisCache): a map from keys to stored
    bytes behind a connection that is either up or down. */
module Cache {
  import opened Http
  import opened Wrappers

  /** What a store call can fail with: the connection is down (every call
      then fails), the key is absent (redis.Nil), or the stored bytes do not
      decode (a json.Unmarshal error). */
  datatype StoreError = ConnectionDown | NotFound | Undecodable

  // ---------------------------------------------------------------------
  // Glob patterns, as used by KEYS and SCAN MATCH: `*` matches any run of
  // characters (also an empty run, also one holding ':'); every other
  // character matches itself.
  // ---------------------------------------------------------------------

  predicate Matches(pattern: string, key: string)
    decreases |pattern| + |key|
  {
    if pattern == [] then key == []
    else if pattern[0] == '*' then
      Matches(pattern[1..], key) || (key != [] && Matches(pattern, key[1..]))
    else
      key != [] && key[0] == pattern[0] && Matches(pattern[1..], key[1..])
  }

  /** Text that holds none of the other glob characters of KEYS (`?`,
      `[` and `\`), so that Matches and the store agree on a pattern built
      from it. */
  predicate GlobFree(s: string) {
    '?' !in s && '[' !in s && '\\' !in s
  }

  /** A lone `*` matches every key. */
  lemma {:induction false} StarMatchesAll(key: string)
    ensures Matches("*", key)
  {
    if key != [] {
      StarMatchesAll(key[1..]);
    }
  }

  /** Every pattern matches its own text (a `*` also matches a literal `*`). */
  lemma {:induction false} MatchesItself(p: string)
    ensures Matches(p, p)
  {
    if p != [] {
      MatchesItself(p[1..]);
      if p[0] == '*' {
        assert Matches(p[1..], p[1..]);
        assert Matches(p, p[1..]) by { assert Matches(p[1..], p[1..]); }
      }
    }
  }

  /** Matching is compositional: the concatenation of two patterns matches the
      concatenation of two keys they match. */
  lemma {:induction false} MatchesConcat(p1: string, k1: string, p2: string, k2: string)
    requires Matches(p1, k1) && Matches(p2, k2)
    ensures Matches(p1 + p2, k1 + k2)
    decreases |p1| + |k1|
  {
    if p1 == [] {
      assert p1 + p2 == p2 && k1 + k2 == k2;
    } else if p1[0] == '*' {
      assert (p1 + p2)[0] == '*' && (p1 + p2)[1..] == p1[1..] + p2;
      if Matches(p1[1..], k1) {
        MatchesConcat(p1[1..], k1, p2, k2);
      } else {
        MatchesConcat(p1, k1[1..], p2, k2);
        assert (k1 + k2)[1..] == k1[1..] + k2;
      }
    } else {
      MatchesConcat(p1[1..], k1[1..], p2, k2);
      assert (p1 + p2)[1..] == p1[1..] + p2;
      assert (k1 + k2)[1..] == k1[1..] + k2;
    }
  }

  /** For a pattern without `*`, matching is string equality. */
  lemma {:induction false} StarFreeMatchesOnlyItself(p: string, key: string)
    requires '*' !in p
    ensures Matches(p, key) <==> key == p
  {
    if p != [] && key != [] {
      StarFreeMatchesOnlyItself(p[1..], key[1..]);
      assert p == [p[0]] + p[1..] && key == [key[0]] + key[1..];
    }
  }

  /** `prefix*`, for a star-free prefix, matches exactly the keys that start
      with `prefix`. */
  lemma {:induction false} PrefixStarMatches(prefix: string, key: string)
    requires '*' !in prefix
    ensures Matches(prefix + "*", key) <==> |prefix| <= |key| && key[..|prefix|] == prefix
  {
    if |prefix| <= |key| && key[..|prefix|] == prefix {
      MatchesItself(prefix);
      StarMatchesAll(key[|prefix|..]);
      MatchesConcat(prefix, prefix, "*", key[|prefix|..]);
      assert prefix + key[|prefix|..] == key;
    }
    if Matches(prefix + "*", key) && prefix != [] {
      assert (prefix + "*")[1..] == prefix[1..] + "*";
      PrefixStarMatches(prefix[1..], key[1..]);
    }
  }

  // ---------------------------------------------------------------------
  // The stored form of a value. The cache stores json.Marshal(value); the
  // model keeps an abstract injective encoding with its decoder.
  // ---------------------------------------------------------------------

  const Quote: byte := 34

  function Encode(value: Bytes): Bytes {
    [Quote] + value + [Quote]
  }

  function Decode(data: Bytes): Option<Bytes> {
    if |data| >= 2 && data[0] == Quote && data[|data| - 1] == Quote
    then Some(data[1..|data| - 1]) else None
  }

  lemma DecodeEncode(value: Bytes)
    ensures Decode(Encode(value)) == Some(value)
  {
    assert Encode(value)[1..|value| + 1] == value;
  }

  /** The keys of `data` that match `pattern`. */
  function MatchingKeys(data: map<string, Bytes>, pattern: string): (ks: set<string>)
    ensures ks <= data.Keys
    ensures forall k :: k in ks <==> k in data && Matches(pattern, k)
  {
    set k | k in data && Matches(pattern, k)
  }

  predicate NoDuplicates<T(==)>(s: seq<T>) {
    forall i, j :: 0 <= i < j < |s| ==> s[i] != s[j]
  }

  /** The store. `up` is the state of the connection for the life of the
      object: when it is down every call fails and nothing changes. */
  class Store {
    var data: map<string, Bytes>
    const up: bool

    constructor (up: bool)
      ensures this.up == up && data == map[]
    {
      this.up := up;
      data := map[];
    }

    /** Set stores the encoded value under `key`, overwriting any previous
        value, and touches no other key. The expiration is not modelled. */
    method Set(key: string, value: Bytes) returns (err: Option<StoreError>)
      modifies this
      ensures up ==> err == None && data == old(data)[key := Encode(value)]
      ensures !up ==> err == Some(ConnectionDown) && data == old(data)
    {
      if !up {
        return Some(ConnectionDown);
      }
      data := data[key := Encode(value)];
      err := None;
    }

    /** Get returns the decoded value stored under `key`. */
    method Get(key: string) returns (r: Result<Bytes, StoreError>)
      ensures !up ==> r == Failure(ConnectionDown)
      ensures up && key !in data ==> r == Failure(NotFound)
      ensures up && key in data && Decode(data[key]) == None ==> r == Failure(Undecodable)
      ensures up && key in data && Decode(data[key]).Some? ==> r == Success(Decode(data[key]).value)
    {
      if !up {
        return Failure(ConnectionDown);
      }
      if key !in data {
        return Failure(NotFound);
      }
      var decoded := Decode(data[key]);
      if decoded.None? {
        return Failure(Undecodable);
      }
      r := Success(decoded.value);
    }

    /** Delete removes `key` if present; deleting an absent key succeeds. */
    method Delete(key: string) returns (err: Option<StoreError>)
      modifies this
      ensures up ==> err == None && data == old(data) - {key}
      ensures !up ==> err == Some(ConnectionDown) && data == old(data)
    {
      if !up {
        return Some(ConnectionDown);
      }
      data := data - {key};
      err := None;
    }

    /** Keys lists, without repetition and in no particular order, exactly
        the stored keys that match `pattern`; it changes nothing. */
    method Keys(pattern: string) returns (r: Result<seq<string>, StoreError>)
      ensures !up ==> r == Failure(ConnectionDown)
      ensures up ==> r.Success? && NoDuplicates(r.value)
      ensures up ==> forall k :: k in r.value <==> k in data && Matches(pattern, k)
    {
      if !up {
        return Failure(ConnectionDown);
      }
      var found: seq<string> := [];
      var rest := data.Keys;
      while rest != {}
        invariant rest <= data.Keys
        invariant NoDuplicates(found)
        invariant forall k :: k in found ==> k !in rest
        invariant forall k :: k in found <==> k in data && k !in rest && Matches(pattern, k)
        decreases rest
      {
        var k :| k in rest;
        if Matches(pattern, k) {
          found := found + [k];
        }
        rest := rest - {k};
      }
      r := Success(found);
    }

    /** DeletePattern scans the keys matching `pattern` and deletes them one
        by one, giving up at the first failing delete. */
    method DeletePattern(pattern: string) returns (err: Option<StoreError>)
      modifies this
      ensures up ==> err == None && data == old(data) - MatchingKeys(old(data), pattern)
      ensures !up ==> err == Some(ConnectionDown) && data == old(data)
    {
      var scan := Keys(pattern);
      if scan.Failure? {
        return Some(scan.error);
      }
      var keys := scan.value;
      var i := 0;
      while i < |keys|
        invariant 0 <= i <= |keys|
        invariant data == old(data) - (set j | 0 <= j < i :: keys[j])
      {
        var e := Delete(keys[i]);
        if e.Some? {
          return e;
        }
        i := i + 1;
      }
      assert (set j | 0 <= j < |keys| :: keys[j]) == MatchingKeys(old(data), pattern);
      err := None;
    }

    /** Clear removes every key (FLUSHALL). */
    method Clear() returns (err: Option<StoreError>)
      modifies this
      ensures up ==> err == None && data == map[]
      ensures !up ==> err == Some(ConnectionDown) && data == old(data)
    {
      if !up {
        return Some(ConnectionDown);
      }
      data := map[];
      err := None;
    }

    /** Ping reports whether the connection is up. */
    method Ping() returns (err: Option<StoreError>)
      ensures err == None <==> up
      ensures err != None ==> err == Some(ConnectionDown)
    {
      err := if up then None else Some(ConnectionDown);
    }
  }

  /** A value set under a key reads back unchanged, and a key that was
      deleted reads as absent. */
  method SetThenGet(s: Store, key: string, value: Bytes) returns (r: Result<Bytes, StoreError>)
    modifies s
    ensures s.up ==> r == Success(value)
    ensures !s.up ==> r == Failure(ConnectionDown)
  {
    var _ := s.Set(key, value);
    DecodeEncode(value);
    r := s.Get(key);
  }

  method DeleteThenGet(s: Store, key: string) returns (r: Result<Bytes, StoreError>)
    modifies s
    ensures s.up ==> r == Failure(NotFound)
    ensures !s.up ==> r == Failure(ConnectionDown)
  {
    var _ := s.Delete(key);
    r := s.Get(key);
  }
}
