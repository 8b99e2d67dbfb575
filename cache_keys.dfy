/** The cache key and the invalidation patterns of the response cache
    (buildCacheKey, buildCachePatterns, isCacheableParam). */
module CacheKeys {
  import opened Text
  import opened Http
  import opened Wrappers
  import Cache

  // ---------------------------------------------------------------------
  // Query parameters
  // ---------------------------------------------------------------------

  /** isCacheableParam: the allow-list of parameters that shape the key. */
  predicate IsCacheableParam(name: string) {
    name in {"status", "limit", "page", "sort", "order"}
  }

  /** `name` appears among the query parameters */
  predicate HasParam(q: seq<(string, string)>, name: string) {
    exists i :: 0 <= i < |q| && q[i].0 == name
  }

  /** params.Get(name): the first value given for `name`, or "" */
  function FirstValue(q: seq<(string, string)>, name: string): (v: string)
    ensures !HasParam(q, name) ==> v == ""
  {
    if q == [] then ""
    else if q[0].0 == name then q[0].1
    else
      assert HasParam(q[1..], name) ==> HasParam(q, name) by {
        if HasParam(q[1..], name) {
          var i :| 0 <= i < |q[1..]| && q[1..][i].0 == name;
          assert q[i + 1].0 == name;
        }
      }
      FirstValue(q[1..], name)
  }

  /** The distinct allow-listed names of the query, in order of first
      appearance (the keys of r.URL.Query() kept by the filter loop; their
      order does not matter, since they are sorted next). */
  function CacheableNames(q: seq<(string, string)>): (names: seq<string>)
    ensures Cache.NoDuplicates(names)
    ensures forall n :: n in names <==> IsCacheableParam(n) && HasParam(q, n)
  {
    if q == [] then []
    else
      var rest := CacheableNames(q[..|q| - 1]);
      var n := q[|q| - 1].0;
      assert forall m :: HasParam(q, m) <==> HasParam(q[..|q| - 1], m) || m == n by {
        forall m ensures HasParam(q, m) <==> HasParam(q[..|q| - 1], m) || m == n {
          if HasParam(q, m) && m != n {
            var i :| 0 <= i < |q| && q[i].0 == m;
            assert q[..|q| - 1][i].0 == m;
          }
          if HasParam(q[..|q| - 1], m) {
            var i :| 0 <= i < |q| - 1 && q[..|q| - 1][i].0 == m;
            assert q[i].0 == m;
          }
        }
      }
      if IsCacheableParam(n) && n !in rest then rest + [n] else rest
  }

  // ---------------------------------------------------------------------
  // sort.Strings: byte-wise lexicographic order, here on characters
  // ---------------------------------------------------------------------

  predicate StrLess(a: string, b: string) {
    if a == [] then b != []
    else if b == [] then false
    else if a[0] != b[0] then a[0] < b[0]
    else StrLess(a[1..], b[1..])
  }

  lemma {:induction false} StrLessIrreflexive(a: string)
    ensures !StrLess(a, a)
  {
    if a != [] { StrLessIrreflexive(a[1..]); }
  }

  lemma {:induction false} StrLessTransitive(a: string, b: string, c: string)
    requires StrLess(a, b) && StrLess(b, c)
    ensures StrLess(a, c)
  {
    if a != [] && b != [] && c != [] && a[0] == b[0] && b[0] == c[0] {
      StrLessTransitive(a[1..], b[1..], c[1..]);
    }
  }

  lemma {:induction false} StrLessTotal(a: string, b: string)
    ensures a == b || StrLess(a, b) || StrLess(b, a)
  {
    if a != [] && b != [] && a[0] == b[0] {
      StrLessTotal(a[1..], b[1..]);
      assert a == [a[0]] + a[1..] && b == [b[0]] + b[1..];
    }
  }

  predicate StrictlySorted(s: seq<string>) {
    forall i, j :: 0 <= i < j < |s| ==> StrLess(s[i], s[j])
  }

  function Insert(x: string, s: seq<string>): (r: seq<string>)
    requires StrictlySorted(s) && x !in s
    ensures StrictlySorted(r)
    ensures multiset(r) == multiset(s) + multiset{x}
  {
    if s == [] then [x]
    else if StrLess(x, s[0]) then
      forall j | 0 <= j < |s| ensures StrLess(x, s[j]) {
        if j > 0 { StrLessTransitive(x, s[0], s[j]); }
      }
      [x] + s
    else
      StrLessTotal(x, s[0]);
      var t := Insert(x, s[1..]);
      assert s == [s[0]] + s[1..];
      forall j | 0 <= j < |t| ensures StrLess(s[0], t[j]) {
        assert t[j] in multiset(t);
        if t[j] != x {
          assert t[j] in multiset(s[1..]);
          var k :| 0 <= k < |s[1..]| && s[1..][k] == t[j];
          assert s[k + 1] == t[j];
        }
      }
      [s[0]] + t
  }

  /** sort.Strings on names that are pairwise distinct: a strictly sorted
      permutation of them. */
  function SortStrings(xs: seq<string>): (r: seq<string>)
    requires Cache.NoDuplicates(xs)
    ensures StrictlySorted(r)
    ensures multiset(r) == multiset(xs)
  {
    if xs == [] then []
    else
      var rest := SortStrings(xs[1..]);
      assert xs == [xs[0]] + xs[1..];
      assert xs[0] !in multiset(xs[1..]);
      assert xs[0] !in rest by { assert xs[0] !in multiset(rest); }
      Insert(xs[0], rest)
  }

  /** A strictly sorted sequence is determined by its elements: whatever order
      the names came in, sorting them gives one and the same sequence. */
  lemma {:induction false} SortedDeterminedByElements(s: seq<string>, t: seq<string>)
    requires StrictlySorted(s) && StrictlySorted(t)
    requires forall x :: x in s <==> x in t
    ensures s == t
  {
    if s != [] { assert s[0] in t; }
    if t != [] { assert t[0] in s; }
    if s != [] && t != [] {
      if s[0] != t[0] {
        var i :| 0 <= i < |t| && t[i] == s[0];
        var j :| 0 <= j < |s| && s[j] == t[0];
        StrLessTransitive(s[0], s[j], s[0]);
        StrLessIrreflexive(s[0]);
      }
      forall x ensures x in s[1..] <==> x in t[1..] {
        if x in s[1..] {
          var i :| 1 <= i < |s| && s[i] == x;
          assert x in t;
          if x == t[0] { StrLessIrreflexive(x); }
          assert t == [t[0]] + t[1..];
        }
        if x in t[1..] {
          var i :| 1 <= i < |t| && t[i] == x;
          assert x in s;
          if x == s[0] { StrLessIrreflexive(x); }
          assert s == [s[0]] + s[1..];
        }
      }
      SortedDeterminedByElements(s[1..], t[1..]);
      assert s == [s[0]] + s[1..] && t == [t[0]] + t[1..];
    }
  }

  // ---------------------------------------------------------------------
  // buildCacheKey
  // ---------------------------------------------------------------------

  /** The allow-listed names of the query, sorted. */
  function SortedCacheableNames(q: seq<(string, string)>): (names: seq<string>)
    ensures StrictlySorted(names)
    ensures forall n :: n in names <==> IsCacheableParam(n) && HasParam(q, n)
  {
    var names := CacheableNames(q);
    var sorted := SortStrings(names);
    assert forall n :: n in sorted <==> n in multiset(names);
    sorted
  }

  /** The normalised query string: `name=value` for each sorted allow-listed
      name, with its first value, joined by "&". */
  function NormalizedQuery(q: seq<(string, string)>): string {
    JoinWith(QueryParts(SortedCacheableNames(q), q), "&")
  }

  /** `name=value` for each name, with the name's first value */
  function QueryParts(names: seq<string>, q: seq<(string, string)>): (parts: seq<string>)
    ensures |parts| == |names|
  {
    seq(|names|, i requires 0 <= i < |names| => names[i] + "=" + FirstValue(q, names[i]))
  }

  /** strings.Split(strings.Trim(path, "/"), "/") */
  function PathParts(path: string): seq<string> {
    Split(Trim(path, '/'), '/')
  }

  /** parts[1], or "v1" when the path has fewer than two segments */
  function PathVersion(path: string): string {
    var parts := PathParts(path);
    if |parts| > 1 then parts[1] else "v1"
  }

  /** parts[3], present only when the path has more than three segments */
  function ResourceId(path: string): (id: Option<string>)
    ensures id.Some? <==> |PathParts(path)| > 3
  {
    var parts := PathParts(path);
    if |parts| > 3 then Some(parts[3]) else None
  }

  const UserHeader := "X-User-ID"

  /** The query segment of the key: present only when some allow-listed
      parameter is. */
  function QuerySegment(q: seq<(string, string)>): (segs: seq<string>)
    ensures segs == [] <==> NoCacheableParam(q)
  {
    var names := SortedCacheableNames(q);
    if |names| > 0 then
      assert IsCacheableParam(names[0]) && HasParam(q, names[0]);
      [NormalizedQuery(q)]
    else []
  }

  ghost predicate NoCacheableParam(q: seq<(string, string)>) {
    forall n :: IsCacheableParam(n) ==> !HasParam(q, n)
  }

  /** The optional segments of the key, in order: the X-User-ID header, the
      resource id, the normalised query. */
  function OptionalSegments(r: Request): (segs: seq<string>)
    ensures segs == [] <==>
      r.HeaderGet(UserHeader) == "" && |PathParts(r.path)| <= 3 && NoCacheableParam(r.query)
  {
    UserSegment(r.HeaderGet(UserHeader)) + ScopeSegments(r.path, r.query)
  }

  /** The segments after the user: the resource id, then the query. */
  function ScopeSegments(path: string, q: seq<(string, string)>): (segs: seq<string>)
    ensures segs == [] <==> |PathParts(path)| <= 3 && NoCacheableParam(q)
  {
    IdSegment(path) + QuerySegment(q)
  }

  function UserSegment(user: string): (segs: seq<string>)
    ensures |segs| <= 1 && (segs == [] <==> user == "")
  {
    if user != "" then [user] else []
  }

  function IdSegment(path: string): (segs: seq<string>)
    ensures |segs| <= 1 && (segs == [] <==> |PathParts(path)| <= 3)
  {
    var id := ResourceId(path);
    if id.Some? then [id.value] else []
  }

  /** The segments of the key, before joining with ':'. */
  function KeySegments(r: Request): seq<string> {
    [PathVersion(r.path), "tasks"] + OptionalSegments(r)
  }

  /** buildCacheKey */
  function BuildCacheKey(r: Request): (k: string)
    ensures HasPrefix(k, PathVersion(r.path) + ":tasks")
  {
    JoinOfKeySegments(PathVersion(r.path), OptionalSegments(r));
    Join(KeySegments(r), ':')
  }

  /** The key with version `v` and optional segments `opt`, written out. */
  function KeyOf(v: string, opt: seq<string>): string {
    v + ":tasks" + Tail(opt)
  }

  /** ":" followed by each segment, i.e. what joining adds after a head. */
  function Tail(segments: seq<string>): (t: string)
    ensures t == "" <==> segments == []
  {
    if segments == [] then "" else ":" + segments[0] + Tail(segments[1..])
  }

  lemma {:induction false} JoinIsHeadAndTail(segments: seq<string>)
    requires |segments| >= 1
    ensures Join(segments, ':') == segments[0] + Tail(segments[1..])
    decreases |segments|
  {
    if |segments| > 1 {
      JoinIsHeadAndTail(segments[1..]);
      assert segments[1..][1..] == segments[2..];
    }
  }

  /** The key is `version:tasks` followed by ":segment" for each optional
      segment; it is `version:tasks` alone exactly when there is no user, no
      resource id and no allow-listed parameter. */
  lemma KeyShape(r: Request)
    ensures BuildCacheKey(r) == KeyOf(PathVersion(r.path), OptionalSegments(r))
    ensures BuildCacheKey(r) == PathVersion(r.path) + ":tasks" <==>
      r.HeaderGet(UserHeader) == "" && |PathParts(r.path)| <= 3 && NoCacheableParam(r.query)
  {
    JoinOfKeySegments(PathVersion(r.path), OptionalSegments(r));
  }

  lemma JoinOfKeySegments(v: string, opt: seq<string>)
    ensures Join([v, "tasks"] + opt, ':') == v + ":tasks" + Tail(opt)
    ensures Join([v, "tasks"] + opt, ':') == v + ":tasks" <==> opt == []
  {
    var segs := [v, "tasks"] + opt;
    JoinIsHeadAndTail(segs);
    assert segs[1..] == ["tasks"] + opt;
    assert segs[1..][1..] == opt;
    var t := Tail(opt);
    assert Tail(segs[1..]) == ":" + "tasks" + t;
    assert v + (":" + "tasks" + t) == v + ":tasks" + t;
    if v + ":tasks" + t == v + ":tasks" {
      assert |t| == 0;
    }
  }

  /** Only the first value of each allow-listed parameter counts: two queries
      that agree on which allow-listed names are present and on their first
      values give the same normalised query, whatever the order of the names,
      the repeated values and the other parameters. */
  ghost predicate AgreeOnCacheable(q1: seq<(string, string)>, q2: seq<(string, string)>) {
    forall n :: IsCacheableParam(n) ==>
      HasParam(q1, n) == HasParam(q2, n) && FirstValue(q1, n) == FirstValue(q2, n)
  }

  lemma NormalizedQueryDependsOnCacheable(q1: seq<(string, string)>, q2: seq<(string, string)>)
    requires AgreeOnCacheable(q1, q2)
    ensures NormalizedQuery(q1) == NormalizedQuery(q2)
    ensures SortedCacheableNames(q1) == SortedCacheableNames(q2)
  {
    var n1, n2 := SortedCacheableNames(q1), SortedCacheableNames(q2);
    forall x ensures x in n1 <==> x in n2 {
      assert x in n1 <==> IsCacheableParam(x) && HasParam(q1, x);
      assert x in n2 <==> IsCacheableParam(x) && HasParam(q2, x);
    }
    SortedDeterminedByElements(n1, n2);
    forall i | 0 <= i < |n1| ensures FirstValue(q1, n1[i]) == FirstValue(q2, n1[i]) {
      assert n1[i] in n1;
      assert IsCacheableParam(n1[i]);
    }
    assert QueryParts(n1, q1) == QueryParts(n1, q2);
  }

  /** Path segments 0 and 2 never affect the key: two requests whose paths
      agree on the number of segments and on segments 1 and 3, and that carry
      the same user and allow-listed parameters, share their key. */
  lemma KeyIgnoresOtherInputs(r1: Request, r2: Request)
    requires |PathParts(r1.path)| == |PathParts(r2.path)|
    requires forall i :: (i == 1 || i == 3) && i < |PathParts(r1.path)| ==> PathParts(r1.path)[i] == PathParts(r2.path)[i]
    requires r1.HeaderGet(UserHeader) == r2.HeaderGet(UserHeader)
    requires AgreeOnCacheable(r1.query, r2.query)
    ensures BuildCacheKey(r1) == BuildCacheKey(r2)
  {
    var p1, p2 := PathParts(r1.path), PathParts(r2.path);
    assert PathVersion(r1.path) == PathVersion(r2.path) by {
      if |p1| > 1 { assert p1[1] == p2[1]; }
    }
    assert IdSegment(r1.path) == IdSegment(r2.path) by {
      if |p1| > 3 { assert p1[3] == p2[3]; }
    }
    QuerySegmentAgrees(r1.query, r2.query);
    assert OptionalSegments(r1) == OptionalSegments(r2);
    KeyShape(r1);
    KeyShape(r2);
  }

  lemma QuerySegmentAgrees(q1: seq<(string, string)>, q2: seq<(string, string)>)
    requires AgreeOnCacheable(q1, q2)
    ensures QuerySegment(q1) == QuerySegment(q2)
  {
    NormalizedQueryDependsOnCacheable(q1, q2);
  }

  /** Swapping two neighbouring parameters with different names keeps the key:
      the order in which distinct names appear does not matter. */
  lemma SwapKeepsAgreement(q: seq<(string, string)>, i: nat)
    requires i + 1 < |q| && q[i].0 != q[i + 1].0
    ensures AgreeOnCacheable(q, q[..i] + [q[i + 1], q[i]] + q[i + 2..])
  {
    var q' := q[..i] + [q[i + 1], q[i]] + q[i + 2..];
    assert |q'| == |q|;
    forall n | IsCacheableParam(n)
      ensures HasParam(q, n) == HasParam(q', n) && FirstValue(q, n) == FirstValue(q', n)
    {
      assert forall k :: 0 <= k < |q| && k != i && k != i + 1 ==> q'[k] == q[k];
      assert q'[i] == q[i + 1] && q'[i + 1] == q[i];
      if HasParam(q, n) {
        var k :| 0 <= k < |q| && q[k].0 == n;
        var k' := if k == i then i + 1 else if k == i + 1 then i else k;
        assert q'[k'].0 == n;
      }
      if HasParam(q', n) {
        var k :| 0 <= k < |q'| && q'[k].0 == n;
        var k' := if k == i then i + 1 else if k == i + 1 then i else k;
        assert q[k'].0 == n;
      }
      FirstOfPermuted(q, q', i, n);
    }
  }

  lemma {:induction false} FirstOfPermuted(q: seq<(string, string)>, q': seq<(string, string)>, i: nat, n: string)
    requires i + 1 < |q| && q[i].0 != q[i + 1].0
    requires q' == q[..i] + [q[i + 1], q[i]] + q[i + 2..]
    ensures FirstValue(q, n) == FirstValue(q', n)
  {
    if i == 0 {
      assert q'[0] == q[1] && q'[1] == q[0] && q'[2..] == q[2..];
      assert q[1..][1..] == q[2..] && q'[1..][1..] == q'[2..];
    } else {
      assert q'[0] == q[0];
      assert q'[1..] == q[1..][..i - 1] + [q[1..][i], q[1..][i - 1]] + q[1..][i + 1..];
      FirstOfPermuted(q[1..], q'[1..], i - 1, n);
    }
  }

  /** A parameter outside the allow-list never changes the key. */
  lemma OtherParamKeepsAgreement(q: seq<(string, string)>, name: string, value: string)
    requires !IsCacheableParam(name)
    ensures AgreeOnCacheable(q, q + [(name, value)])
  {
    var q' := q + [(name, value)];
    forall n | IsCacheableParam(n)
      ensures HasParam(q, n) == HasParam(q', n) && FirstValue(q, n) == FirstValue(q', n)
    {
      if HasParam(q, n) {
        var k :| 0 <= k < |q| && q[k].0 == n;
        assert q'[k].0 == n;
      }
      FirstOfExtended(q, (name, value), n);
    }
  }

  /** A later repetition of an allow-listed name never changes the key: only
      the first value counts. */
  lemma RepeatKeepsAgreement(q: seq<(string, string)>, name: string, value: string)
    requires HasParam(q, name)
    ensures AgreeOnCacheable(q, q + [(name, value)])
  {
    var q' := q + [(name, value)];
    forall n | IsCacheableParam(n)
      ensures HasParam(q, n) == HasParam(q', n) && FirstValue(q, n) == FirstValue(q', n)
    {
      if HasParam(q, n) {
        var k :| 0 <= k < |q| && q[k].0 == n;
        assert q'[k].0 == n;
      }
      FirstOfExtended(q, (name, value), n);
    }
  }

  lemma {:induction false} FirstOfExtended(q: seq<(string, string)>, p: (string, string), n: string)
    requires HasParam(q, n) || p.0 != n
    ensures FirstValue(q + [p], n) == FirstValue(q, n)
  {
    if q != [] {
      assert (q + [p])[1..] == q[1..] + [p];
      if q[0].0 != n {
        if HasParam(q, n) {
          var k :| 0 <= k < |q| && q[k].0 == n;
          assert q[1..][k - 1].0 == n;
        }
        FirstOfExtended(q[1..], p, n);
      }
    } else {
      assert q + [p] == [p];
    }
  }

  /** Two requests for the same path and query with different X-User-ID
      headers get different keys. */
  lemma UsersGetDistinctKeys(r1: Request, r2: Request)
    requires r1.path == r2.path && r1.query == r2.query
    requires r1.HeaderGet(UserHeader) != r2.HeaderGet(UserHeader)
    ensures BuildCacheKey(r1) != BuildCacheKey(r2)
  {
    KeyShape(r1);
    KeyShape(r2);
    var rest := ScopeSegments(r1.path, r1.query);
    DistinctUserKeys(PathVersion(r1.path), r1.HeaderGet(UserHeader), r2.HeaderGet(UserHeader), rest);
  }

  lemma DistinctUserKeys(v: string, u1: string, u2: string, rest: seq<string>)
    requires u1 != u2
    ensures KeyOf(v, UserSegment(u1) + rest) != KeyOf(v, UserSegment(u2) + rest)
  {
    TailOfConcat(UserSegment(u1), rest);
    TailOfConcat(UserSegment(u2), rest);
    var head, t := v + ":tasks", Tail(rest);
    var m1, m2 := Tail(UserSegment(u1)), Tail(UserSegment(u2));
    assert m1 == (if u1 != "" then ":" + u1 else "");
    assert m2 == (if u2 != "" then ":" + u2 else "");
    assert KeyOf(v, UserSegment(u1) + rest) == head + m1 + t;
    assert KeyOf(v, UserSegment(u2) + rest) == head + m2 + t;
    assert (head + m1 + t)[|head|..|head| + |m1|] == m1;
    assert (head + m2 + t)[|head|..|head| + |m2|] == m2;
    assert u1 != "" ==> m1[1..] == u1;
    assert u2 != "" ==> m2[1..] == u2;
  }

  lemma {:induction false} TailOfConcat(a: seq<string>, b: seq<string>)
    ensures Tail(a + b) == Tail(a) + Tail(b)
  {
    if a != [] {
      assert (a + b)[1..] == a[1..] + b;
      TailOfConcat(a[1..], b);
    } else {
      assert a + b == b;
    }
  }

  // ---------------------------------------------------------------------
  // buildCachePatterns
  // ---------------------------------------------------------------------

  /** buildCachePatterns: the patterns whose keys a write request deletes;
      the first is always the version's base pattern. */
  function BuildCachePatterns(r: Request): (ps: seq<string>)
    ensures 1 <= |ps| <= 4 && ps[0] == PathVersion(r.path) + ":tasks:*"
  {
    PatternsFor(PathVersion(r.path), r.HeaderGet(UserHeader), ResourceId(r.path))
  }

  /** The base pattern, then the user pattern when there is a user, then the
      two resource patterns when there is a resource id. */
  function PatternsFor(v: string, user: string, id: Option<string>): (ps: seq<string>)
    ensures |ps| == 1 + (if user != "" then 1 else 0) + (if id.Some? then 2 else 0)
    ensures ps[0] == v + ":tasks:*"
    ensures user != "" ==> ps[1] == v + ":tasks:" + user + ":*"
    ensures id.Some? ==> ps[|ps| - 2] == v + ":tasks:*:" + id.value && ps[|ps| - 1] == v + ":tasks:*:" + id.value + ":*"
  {
    [v + ":tasks:*"]
      + (if user != "" then [v + ":tasks:" + user + ":*"] else [])
      + (if id.Some? then [v + ":tasks:*:" + id.value, v + ":tasks:*:" + id.value + ":*"] else [])
  }

  /** The pattern list: the base pattern first, the user pattern when the
      header is set, and the two resource patterns when the path names a
      resource; so it has 1 to 4 entries. */
  lemma PatternShape(r: Request)
    ensures var ps := BuildCachePatterns(r);
      var v, u := PathVersion(r.path), r.HeaderGet(UserHeader);
      && |ps| == 1 + (if u != "" then 1 else 0) + (if |PathParts(r.path)| > 3 then 2 else 0)
      && ps[0] == v + ":tasks:*"
      && (u != "" ==> ps[1] == v + ":tasks:" + u + ":*")
      && (|PathParts(r.path)| > 3 ==>
            ps[|ps| - 2] == v + ":tasks:*:" + PathParts(r.path)[3]
            && ps[|ps| - 1] == v + ":tasks:*:" + PathParts(r.path)[3] + ":*")
  {
  }

  /** `text*` matches `text` followed by anything. */
  lemma LiteralThenStar(text: string, rest: string)
    ensures Cache.Matches(text + "*", text + rest)
  {
    Cache.MatchesItself(text);
    Cache.StarMatchesAll(rest);
    Cache.MatchesConcat(text, text, "*", rest);
  }

  /** Every key of a read that has at least one optional segment is matched
      by the base pattern of a write with the same version. */
  lemma BasePatternCoversKeys(w: Request, g: Request)
    requires PathVersion(w.path) == PathVersion(g.path) && Cache.GlobFree(PathVersion(w.path))
    requires OptionalSegments(g) != []
    ensures Cache.Matches(BuildCachePatterns(w)[0], BuildCacheKey(g))
  {
    KeyShape(g);
    BaseCovers(PathVersion(g.path), OptionalSegments(g));
  }

  lemma BaseCovers(v: string, opt: seq<string>)
    requires opt != []
    ensures Cache.Matches(v + ":tasks:*", KeyOf(v, opt))
  {
    var rest := opt[0] + Tail(opt[1..]);
    assert Tail(opt) == ":" + rest;
    assert KeyOf(v, opt) == (v + ":tasks:") + rest;
    assert v + ":tasks:*" == (v + ":tasks:") + "*";
    LiteralThenStar(v + ":tasks:", rest);
  }

  /** The gap: a read with no user, no resource id and no allow-listed
      parameter has the key `version:tasks`, which no pattern of any write
      with the same (star-free) version matches, so invalidation never
      removes it. */
  lemma BareKeyEscapesInvalidation(w: Request, g: Request)
    requires PathVersion(w.path) == PathVersion(g.path)
    requires '*' !in PathVersion(g.path)
    requires OptionalSegments(g) == []
    ensures BuildCacheKey(g) == PathVersion(g.path) + ":tasks"
    ensures forall p :: p in BuildCachePatterns(w) ==> !Cache.Matches(p, BuildCacheKey(g))
  {
    KeyShape(g);
    BareEscapes(PathVersion(g.path), w.HeaderGet(UserHeader), ResourceId(w.path));
  }

  lemma BareEscapes(v: string, user: string, id: Option<string>)
    requires '*' !in v
    ensures forall p :: p in PatternsFor(v, user, id) ==> !Cache.Matches(p, v + ":tasks")
  {
    var prefix := v + ":tasks:";
    var key := v + ":tasks";
    forall p | p in PatternsFor(v, user, id) ensures !Cache.Matches(p, key) {
      assert p[..|prefix|] == prefix;
      assert p == prefix + p[|prefix|..];
      if Cache.Matches(p, key) {
        StarFreePrefixForced(prefix, p[|prefix|..], key);
      }
    }
  }

  /** A pattern that starts with star-free text only matches keys that start
      with that text. */
  lemma {:induction false} StarFreePrefixForced(prefix: string, rest: string, key: string)
    requires '*' !in prefix
    requires Cache.Matches(prefix + rest, key)
    ensures |prefix| <= |key| && key[..|prefix|] == prefix
  {
    if prefix != [] {
      assert (prefix + rest)[1..] == prefix[1..] + rest;
      StarFreePrefixForced(prefix[1..], rest, key[1..]);
    }
  }

  /** The user pattern of a write matches every key of a read by the same
      user that carries a further segment. */
  lemma UserPatternCoversUserKeys(w: Request, g: Request)
    requires PathVersion(w.path) == PathVersion(g.path) && Cache.GlobFree(PathVersion(w.path))
    requires w.HeaderGet(UserHeader) == g.HeaderGet(UserHeader) != ""
    requires Cache.GlobFree(w.HeaderGet(UserHeader))
    requires |OptionalSegments(g)| >= 2
    ensures Cache.Matches(BuildCachePatterns(w)[1], BuildCacheKey(g))
  {
    KeyShape(g);
    UserCovers(PathVersion(g.path), g.HeaderGet(UserHeader), ScopeSegments(g.path, g.query));
  }

  lemma UserCovers(v: string, u: string, rest: seq<string>)
    requires rest != []
    ensures Cache.Matches(v + ":tasks:" + u + ":*", KeyOf(v, [u] + rest))
  {
    var tail := rest[0] + Tail(rest[1..]);
    assert ([u] + rest)[1..] == rest;
    assert Tail([u] + rest) == ":" + u + (":" + tail);
    assert KeyOf(v, [u] + rest) == (v + ":tasks:" + u + ":") + tail;
    assert v + ":tasks:" + u + ":*" == (v + ":tasks:" + u + ":") + "*";
    LiteralThenStar(v + ":tasks:" + u + ":", tail);
  }

  /** The two resource patterns of a write on resource `id` match the keys of
      a scoped read of that resource: the first without a query, the second
      with one. */
  lemma ResourcePatternsCoverScopedReads(w: Request, g: Request)
    requires PathVersion(w.path) == PathVersion(g.path) && Cache.GlobFree(PathVersion(w.path))
    requires |PathParts(w.path)| > 3 && |PathParts(g.path)| > 3
    requires PathParts(w.path)[3] == PathParts(g.path)[3] && Cache.GlobFree(PathParts(w.path)[3])
    requires g.HeaderGet(UserHeader) != ""
    ensures var ps := BuildCachePatterns(w);
      Cache.Matches(ps[|ps| - 2], BuildCacheKey(g)) || Cache.Matches(ps[|ps| - 1], BuildCacheKey(g))
  {
    KeyShape(g);
    var id := PathParts(g.path)[3];
    var u := g.HeaderGet(UserHeader);
    assert ScopeSegments(g.path, g.query) == [id] + QuerySegment(g.query);
    assert OptionalSegments(g) == [u, id] + QuerySegment(g.query);
    assert ResourceId(w.path) == Some(id);
    ResourceCovers(PathVersion(g.path), w.HeaderGet(UserHeader), u, id, QuerySegment(g.query));
  }

  lemma ResourceCovers(v: string, writer: string, u: string, id: string, qs: seq<string>)
    requires |qs| <= 1
    ensures var ps := PatternsFor(v, writer, Some(id));
      Cache.Matches(ps[|ps| - 2], KeyOf(v, [u, id] + qs))
      || Cache.Matches(ps[|ps| - 1], KeyOf(v, [u, id] + qs))
  {
    var ps := PatternsFor(v, writer, Some(id));
    assert ps[|ps| - 2] == v + ":tasks:*:" + id && ps[|ps| - 1] == v + ":tasks:*:" + id + ":*";
    var head := v + ":tasks:";
    var mid := ":" + id;
    assert head + "*" + mid == v + ":tasks:*:" + id;
    LiteralThenStar(head, u);
    Cache.MatchesItself(mid);
    Cache.MatchesConcat(head + "*", head + u, mid, mid);
    var segs := [u, id] + qs;
    assert segs[1..] == [id] + qs && segs[1..][1..] == qs;
    assert Tail(segs) == ":" + u + (":" + id + Tail(qs));
    assert head + "*" + mid == v + ":tasks:*:" + id;
    if qs == [] {
      assert KeyOf(v, segs) == head + u + mid;
    } else {
      var q := qs[0];
      assert qs[1..] == [];
      assert Tail(qs) == ":" + q;
      assert KeyOf(v, segs) == (head + u + mid) + (":" + q);
      LiteralThenStar(":", q);
      Cache.MatchesConcat(head + "*" + mid, head + u + mid, ":*", ":" + q);
      assert head + "*" + mid + ":*" == v + ":tasks:*:" + id + ":*";
    }
  }
}
