/** The few operations of Go's `strings` package that the service relies on,
    written over Dafny strings (`seq<char>`). */
module Text {

  /** strings.HasPrefix */
  predicate HasPrefix(s: string, prefix: string) {
    |prefix| <= |s| && s[..|prefix|] == prefix
  }

  /** strings.Contains for a single character */
  predicate ContainsChar(s: string, c: char) {
    c in s
  }

  /** strings.Join(parts, string(sep)) */
  function Join(parts: seq<string>, sep: char): (s: string)
    decreases |parts|
  {
    if |parts| == 0 then ""
    else if |parts| == 1 then parts[0]
    else parts[0] + [sep] + Join(parts[1..], sep)
  }

  /** strings.Join with a separator of any length (used for "&") */
  function JoinWith(parts: seq<string>, sep: string): (s: string)
    decreases |parts|
  {
    if |parts| == 0 then ""
    else if |parts| == 1 then parts[0]
    else parts[0] + sep + JoinWith(parts[1..], sep)
  }

  /** strings.Split(s, string(sep)): the maximal `sep`-free pieces of `s`, in
      order; the empty string splits into one empty piece. */
  function Split(s: string, sep: char): (parts: seq<string>)
    ensures |parts| >= 1
    ensures Join(parts, sep) == s
    ensures forall i :: 0 <= i < |parts| ==> sep !in parts[i]
    ensures |parts| == 1 <==> sep !in s
  {
    if s == [] then [[]]
    else
      var rest := Split(s[1..], sep);
      if s[0] == sep then
        assert s == [sep] + s[1..];
        [[]] + rest
      else
        assert s == [s[0]] + s[1..];
        JoinHeadLemma(s[0], rest, sep);
        [[s[0]] + rest[0]] + rest[1..]
  }

  /** Join of a first piece and a non-empty rest. */
  lemma JoinCons(x: string, rest: seq<string>, sep: char)
    requires rest != []
    ensures Join([x] + rest, sep) == x + [sep] + Join(rest, sep)
  {
    assert ([x] + rest)[1..] == rest;
  }

  lemma JoinHeadLemma(c: char, parts: seq<string>, sep: char)
    requires |parts| >= 1
    ensures Join([[c] + parts[0]] + parts[1..], sep) == [c] + Join(parts, sep)
  {
    var q := [[c] + parts[0]] + parts[1..];
    assert q[1..] == parts[1..];
  }

  /** Joining sep-free pieces and splitting again gives the pieces back:
      Split and Join are inverse on that domain. */
  lemma {:induction false} SplitJoin(parts: seq<string>, sep: char)
    requires |parts| >= 1
    requires forall i :: 0 <= i < |parts| ==> sep !in parts[i]
    ensures Split(Join(parts, sep), sep) == parts
    decreases |parts|, |parts[0]|
  {
    if |parts| == 1 {
      SplitFree(parts[0], sep);
    } else if parts[0] == [] {
      var tail := Join(parts[1..], sep);
      assert Join(parts, sep) == [sep] + tail;
      SplitJoin(parts[1..], sep);
      assert ([sep] + tail)[1..] == tail;
    } else {
      var c := parts[0][0];
      var shorter := [parts[0][1..]] + parts[1..];
      assert shorter[1..] == parts[1..];
      assert forall i :: 0 <= i < |shorter| ==> sep !in shorter[i] by {
        forall i | 0 <= i < |shorter| ensures sep !in shorter[i] {
          if i == 0 { assert parts[0] == [c] + shorter[0]; } else { assert shorter[i] == parts[i]; }
        }
      }
      SplitJoin(shorter, sep);
      assert parts[0] == [c] + shorter[0];
      JoinHeadLemma(c, shorter, sep);
      assert [[c] + shorter[0]] + shorter[1..] == parts;
      var s := Join(parts, sep);
      assert s == [c] + Join(shorter, sep);
      assert s[1..] == Join(shorter, sep);
      assert c != sep;
    }
  }

  lemma {:induction false} SplitFree(s: string, sep: char)
    requires sep !in s
    ensures Split(s, sep) == [s]
  {
    if s != [] {
      SplitFree(s[1..], sep);
      assert [s[0]] + s[1..] == s;
    }
  }

  /** strings.Trim(s, string(c)): drop every leading and trailing `c`. */
  function TrimLeft(s: string, c: char): (r: string)
    ensures |r| <= |s| && r == s[|s| - |r|..]
    ensures r != [] ==> r[0] != c
    ensures forall i :: 0 <= i < |s| - |r| ==> s[i] == c
  {
    if s != [] && s[0] == c then TrimLeft(s[1..], c) else s
  }

  function TrimRight(s: string, c: char): (r: string)
    ensures |r| <= |s| && r == s[..|r|]
    ensures r != [] ==> r[|r| - 1] != c
    ensures forall i :: |r| <= i < |s| ==> s[i] == c
  {
    if s != [] && s[|s| - 1] == c then TrimRight(s[..|s| - 1], c) else s
  }

  function Trim(s: string, c: char): (r: string)
    ensures r != [] ==> r[0] != c && r[|r| - 1] != c
    ensures c !in s ==> r == s
  {
    TrimRight(TrimLeft(s, c), c)
  }

  /** Trim cuts exactly a run of `c`s at each end: the result is a slice of
      `s` and every character cut is `c`. */
  lemma TrimCutsOnlyC(s: string, c: char)
    ensures exists i :: Trimmed(s, c, i, Trim(s, c))
  {
    var left := TrimLeft(s, c);
    CutEnds(s, c, |s| - |left|, left, TrimRight(left, c));
    assert Trimmed(s, c, |s| - |left|, Trim(s, c));
  }

  /** Cutting `c`s off the front, then `c`s off the back. */
  lemma CutEnds(s: string, c: char, i: int, left: string, r: string)
    requires 0 <= i <= |s| && left == s[i..]
    requires |r| <= |left| && r == left[..|r|]
    requires forall k :: 0 <= k < i ==> s[k] == c
    requires forall k :: |r| <= k < |left| ==> left[k] == c
    ensures Trimmed(s, c, i, r)
  {
    forall k | i + |r| <= k < |s| ensures s[k] == c {
      assert s[k] == left[k - i];
    }
  }

  /** `r` is `s` without its first `i` characters and without what follows
      `r`, and every character cut is `c`. */
  predicate Trimmed(s: string, c: char, i: int, r: string) {
    0 <= i && i + |r| <= |s| && r == s[i..i + |r|]
    && (forall k :: 0 <= k < i ==> s[k] == c)
    && (forall k :: i + |r| <= k < |s| ==> s[k] == c)
  }

  /** `pat` occurs in `s` starting at position `j` */
  predicate OccursAt(s: string, pat: string, j: int) {
    0 <= j && j + |pat| <= |s| && s[j..j + |pat|] == pat
  }

  /** strings.Index: the position of the first occurrence of `pat` in `s`,
      or -1 when there is none. */
  function IndexOf(s: string, pat: string): (r: int)
    ensures r == -1 || 0 <= r <= |s| - |pat|
    ensures r >= 0 ==> OccursAt(s, pat, r)
    ensures forall j :: 0 <= j < (if r < 0 then |s| + 1 else r) ==> !OccursAt(s, pat, j)
    decreases |s|
  {
    if |s| < |pat| then -1
    else if s[..|pat|] == pat then 0
    else
      var t := s[1..];
      var k := IndexOf(t, pat);
      assert !OccursAt(s, pat, 0) by { assert s[0..|pat|] == s[..|pat|]; }
      forall j | 1 <= j <= |s| ensures OccursAt(s, pat, j) == OccursAt(t, pat, j - 1) {
        if j + |pat| <= |s| { assert s[j..j + |pat|] == t[j - 1..j - 1 + |pat|]; }
      }
      if k < 0 then -1 else k + 1
  }

  /** A match with none before it is the first. */
  lemma IndexOfFirst(s: string, pat: string, i: int)
    requires OccursAt(s, pat, i)
    requires forall j :: 0 <= j < i ==> !OccursAt(s, pat, j)
    ensures IndexOf(s, pat) == i
  {
  }

  /** strings.Contains */
  predicate Contains(s: string, pat: string) {
    IndexOf(s, pat) >= 0
  }

  /** strings.Split(s, sep)[k] for k = 0 and 1, for a separator of any
      length: the text before the first `sep`, and the text between the first
      and the second one (or up to the end). */
  function BeforeFirst(s: string, sep: string): (r: string)
    requires sep != ""
    ensures HasPrefix(s, r)
    ensures !Contains(s, sep) ==> r == s
    ensures Contains(s, sep) ==> HasPrefix(s, r + sep) && |r| == IndexOf(s, sep)
    ensures !Contains(r, sep)
  {
    var i := IndexOf(s, sep);
    if i < 0 then s
    else
      var r := s[..i];
      assert (r + sep) == s[..i + |sep|];
      forall j | OccursAt(r, sep, j) ensures OccursAt(s, sep, j) {
        assert r[j..j + |sep|] == s[j..j + |sep|];
      }
      r
  }

  function AfterFirst(s: string, sep: string): (r: string)
    requires sep != ""
    requires Contains(s, sep)
    ensures |r| < |s| && r == s[|s| - |r|..]
    ensures s == BeforeFirst(s, sep) + sep + r
  {
    var i := IndexOf(s, sep);
    assert s == s[..i] + s[i..i + |sep|] + s[i + |sep|..];
    s[i + |sep|..]
  }
}
