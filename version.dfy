/** API version negotiation (pkg/api/version): a registry of versions, the
    resolution of a request's version from its Accept header or a path
    segment, and the headers the middleware adds. */
module Version {
  import opened Text
  import opened Http

  datatype APIVersion = APIVersion(major: int, minor: int, deprecated: bool, sunsetDate: string)

  /** The zero APIVersion, read for a version that is not registered. */
  const ZeroVersion := APIVersion(0, 0, false, "")

  const AcceptHeader := "Accept"
  const VendorMarker := "application/vnd.task."
  const VersionHeader := "X-API-Version"
  const WarningHeader := "Warning"

  /** The version named by the Accept header: when it contains the vendor
      marker, the text after the first marker (up to a second one), cut at
      the first '+'. */
  function AcceptVersion(accept: string): (v: string)
    requires Contains(accept, VendorMarker)
    ensures HasPrefix(AfterFirst(accept, VendorMarker), v)
    ensures !Contains(v, "+")
  {
    var rest := AfterFirst(accept, VendorMarker);
    var inner := BeforeFirst(rest, VendorMarker);
    var v := BeforeFirst(inner, "+");
    assert rest[..|v|] == inner[..|v|];
    v
  }

  /** A path segment that names a registered version: it starts with 'v' and
      the rest is registered. */
  predicate VersionSegment(part: string, versions: map<string, APIVersion>) {
    HasPrefix(part, "v") && part[1..] in versions
  }

  /** The index of the first version segment at or after `from`, or -1. */
  function FirstVersionSegment(parts: seq<string>, versions: map<string, APIVersion>, from: nat): (i: int)
    requires from <= |parts|
    ensures i == -1 || from <= i < |parts|
    ensures i >= 0 ==> VersionSegment(parts[i], versions)
    ensures forall j :: from <= j < (if i < 0 then |parts| else i) ==> !VersionSegment(parts[j], versions)
    decreases |parts| - from
  {
    if from == |parts| then -1
    else if VersionSegment(parts[from], versions) then from
    else FirstVersionSegment(parts, versions, from + 1)
  }

  /** The path with segment `i` removed: "/" + the other segments joined by
      '/' (so a leading empty segment gives a path starting with "//"). */
  function WithoutSegment(parts: seq<string>, i: nat): (p: string)
    requires i < |parts|
    ensures HasPrefix(p, "/")
    ensures |parts| >= 2 && (forall k :: 0 <= k < |parts| ==> '/' !in parts[k]) ==>
      Split(p[1..], '/') == parts[..i] + parts[i + 1..]
  {
    var rest := parts[..i] + parts[i + 1..];
    var p := "/" + Join(rest, '/');
    assert p[1..] == Join(rest, '/');
    if |parts| >= 2 && (forall k :: 0 <= k < |parts| ==> '/' !in parts[k]) then
      assert forall k :: 0 <= k < |rest| ==> '/' !in rest[k] by {
        forall k | 0 <= k < |rest| ensures '/' !in rest[k] {
          if k < i { assert rest[k] == parts[k]; } else { assert rest[k] == parts[k + 1]; }
        }
      }
      SplitJoin(rest, '/');
      p
    else p
  }

  /** The version a request resolves to and its path afterwards. */
  function Resolve(versions: map<string, APIVersion>, default: string, accept: string, path: string): (r: (string, string))
    ensures r.0 in versions || r.0 == default
    ensures Contains(accept, VendorMarker) && AcceptVersion(accept) in versions ==>
      r == (AcceptVersion(accept), path)
    ensures !(Contains(accept, VendorMarker) && AcceptVersion(accept) in versions) ==>
      var parts := Split(path, '/');
      var i := FirstVersionSegment(parts, versions, 0);
      (i < 0 ==> r == (default, path))
      && (i >= 0 ==> r == (parts[i][1..], WithoutSegment(parts, i)))
  {
    if Contains(accept, VendorMarker) && AcceptVersion(accept) in versions then (AcceptVersion(accept), path)
    else
      var parts := Split(path, '/');
      var i := FirstVersionSegment(parts, versions, 0);
      if i < 0 then (default, path) else (parts[i][1..], WithoutSegment(parts, i))
  }

  /** The Warning header for a deprecated version: warn-code 299 with no
      agent, as section 5.5 of RFC 7234 lays out. */
  function DeprecationWarning(version: string, sunsetDate: string): (w: string)
    ensures HasPrefix(w, "299 - \"") && w[|w| - 1] == '"'
    ensures Contains(w, "Deprecated API version")
  {
    var w := "299 - \"" + "Deprecated API version " + version + ". Please upgrade before " + sunsetDate + "\"";
    var pat := "Deprecated API version";
    assert w[7..7 + |pat|] == pat;
    assert OccursAt(w, pat, 7);
    w
  }

  class VersionManager {
    var versions: map<string, APIVersion>
    const default: string

    constructor (defaultVersion: string)
      ensures versions == map[] && default == defaultVersion
    {
      versions := map[];
      default := defaultVersion;
    }

    /** RegisterVersion inserts or replaces the entry of `version` only. */
    method RegisterVersion(version: string, major: int, minor: int, deprecated: bool, sunsetDate: string)
      modifies this
      ensures versions == old(versions)[version := APIVersion(major, minor, deprecated, sunsetDate)]
      ensures forall v :: v in old(versions) && v != version ==> v in versions && versions[v] == old(versions)[v]
    {
      versions := versions[version := APIVersion(major, minor, deprecated, sunsetDate)];
    }

    /** GetVersion: the Accept header first, then the path segments in
        order; returns the version and the request's path afterwards. */
    method GetVersion(r: Request) returns (version: string, path: string)
      ensures (version, path) == Resolve(versions, default, r.HeaderGet(AcceptHeader), r.path)
    {
      var accept := r.HeaderGet(AcceptHeader);
      if Contains(accept, VendorMarker) {
        var candidate := AcceptVersion(accept);
        if candidate in versions {
          return candidate, r.path;
        }
      }
      var parts := Split(r.path, '/');
      var i := 0;
      while i < |parts|
        invariant 0 <= i <= |parts|
        invariant FirstVersionSegment(parts, versions, 0) == FirstVersionSegment(parts, versions, i)
      {
        var part := parts[i];
        if HasPrefix(part, "v") {
          var candidate := part[1..];
          if candidate in versions {
            return candidate, WithoutSegment(parts, i);
          }
        }
        i := i + 1;
      }
      version, path := default, r.path;
    }

    /** The entry of a version, the zero entry when it is not registered. */
    function Entry(version: string): (e: APIVersion)
      reads this
      ensures version !in versions ==> !e.deprecated
    {
      if version in versions then versions[version] else ZeroVersion
    }

    /** VersionMiddleware applied to one request: sets X-API-Version, sets
        Warning when the resolved version is deprecated, then hands the
        request with its rewritten path to the next handler once. */
    method VersionMiddleware(next: Request -> seq<Event>, r: Request, w: Sink)
      modifies w
      ensures var (v, p) := Resolve(versions, default, r.HeaderGet(AcceptHeader), r.path);
        && w.header == (if Entry(v).deprecated
                        then old(w.header)[VersionHeader := v][WarningHeader := DeprecationWarning(v, Entry(v).sunsetDate)]
                        else old(w.header)[VersionHeader := v])
        && w.sent == old(w.sent) + next(r.(path := p))
    {
      var version, path := GetVersion(r);
      var apiVersion := Entry(version);
      w.SetHeader(VersionHeader, version);
      if apiVersion.deprecated {
        w.SetHeader(WarningHeader, DeprecationWarning(version, apiVersion.sunsetDate));
      }
      w.Replay(next(r.(path := path)));
    }
  }

  // ---------------------------------------------------------------------
  // Properties and worked examples
  // ---------------------------------------------------------------------

  /** The first occurrence of a pattern that starts the text is at 0. */
  lemma IndexOfAtStart(s: string, pat: string)
    requires HasPrefix(s, pat)
    ensures IndexOf(s, pat) == 0
  {
    assert OccursAt(s, pat, 0);
  }

  /** The first marker of `accept` starts at position `i`. */
  predicate FirstMarkerAt(accept: string, i: int) {
    OccursAt(accept, VendorMarker, i)
    && forall j :: 0 <= j < i ==> !OccursAt(accept, VendorMarker, j)
  }

  /** An Accept header whose first marker follows `pre`, and whose rest
      holds no second marker, names the rest up to its first '+'. */
  lemma AcceptVersionOfMarkedHeader(pre: string, rest: string)
    requires FirstMarkerAt(pre + VendorMarker + rest, |pre|)
    requires !Contains(rest, VendorMarker)
    ensures Contains(pre + VendorMarker + rest, VendorMarker)
    ensures AcceptVersion(pre + VendorMarker + rest) == BeforeFirst(rest, "+")
  {
    var accept := pre + VendorMarker + rest;
    IndexOfFirst(accept, VendorMarker, |pre|);
    assert accept[|pre| + |VendorMarker|..] == rest;
  }

  /** The marker starts with 'a', so a prefix without 'a' holds no part of
      a first marker: the first marker is the one after it. */
  lemma MarkerAfterPlainPrefix(pre: string, rest: string)
    requires 'a' !in pre
    ensures FirstMarkerAt(pre + VendorMarker + rest, |pre|)
  {
    var accept := pre + VendorMarker + rest;
    assert accept[|pre|..|pre| + |VendorMarker|] == VendorMarker;
    forall j | 0 <= j < |pre| ensures !OccursAt(accept, VendorMarker, j) {
      assert accept[j] == pre[j];
    }
  }

  /** Cutting `v + "+" + s` at the first '+' gives `v` when `v` has none. */
  lemma CutAtPlus(v: string, s: string)
    requires '+' !in v
    ensures BeforeFirst(v + "+" + s, "+") == v
  {
    var t := v + "+" + s;
    assert OccursAt(t, "+", |v|);
    forall j | 0 <= j < |v| ensures !OccursAt(t, "+", j) {
      assert t[j..j + 1] == [v[j]];
    }
  }

  lemma ShortTextHoldsNoMarker(t: string)
    requires |t| < |VendorMarker|
    ensures !Contains(t, VendorMarker)
  {
  }

  /** A header `pre + marker + v + "+" + s`, whose first marker follows
      `pre` and whose rest is too short to hold a second marker, names `v`,
      wherever the marker stands in the header. */
  lemma AcceptOfShortHeader(pre: string, v: string, s: string)
    requires FirstMarkerAt(pre + VendorMarker + (v + "+" + s), |pre|)
    requires '+' !in v
    requires |v| + 1 + |s| < |VendorMarker|
    ensures Contains(pre + VendorMarker + (v + "+" + s), VendorMarker)
    ensures AcceptVersion(pre + VendorMarker + (v + "+" + s)) == v
  {
    var rest := v + "+" + s;
    ShortTextHoldsNoMarker(rest);
    AcceptVersionOfMarkedHeader(pre, rest);
    CutAtPlus(v, s);
  }

  /** A vendor type listed after another media type is still found. */
  lemma AcceptAfterOtherType(accept: string)
    requires accept == "text/html," + "application/vnd.task." + "v2+json"
    ensures Contains(accept, VendorMarker)
    ensures AcceptVersion(accept) == "v2"
  {
    MarkerAfterPlainPrefix("text/html,", "v2" + "+" + "json");
    AcceptOfShortHeader("text/html,", "v2", "json");
    assert "text/html," + VendorMarker + ("v2" + "+" + "json") == accept;
  }

  /** `application/vnd.task.v1.1+json` names "v1.1" (with its 'v'), which is
      not a registered version such as "1.1", so such a header falls through
      to the path. */
  lemma AcceptKeepsLeadingV(accept: string)
    requires accept == "application/vnd.task." + "v1.1+json"
    ensures Contains(accept, VendorMarker)
    ensures AcceptVersion(accept) == "v1.1"
  {
    MarkerAfterPlainPrefix("", "v1.1" + "+" + "json");
    AcceptOfShortHeader("", "v1.1", "json");
    assert "" + VendorMarker + ("v1.1" + "+" + "json") == accept;
  }

  /** A leading version segment is removed from the path and the leading
      empty segment is kept, so the path starts with "//". */
  lemma LeadingVersionSegmentRemoved(versions: map<string, APIVersion>, default: string, accept: string, path: string,
                                     ver: string, rest: seq<string>)
    requires ver in versions
    requires !Contains(accept, VendorMarker)
    requires Split(path, '/') == ["", "v" + ver] + rest
    ensures Resolve(versions, default, accept, path) == (ver, "/" + Join([""] + rest, '/'))
  {
    var parts := Split(path, '/');
    assert !VersionSegment(parts[0], versions);
    assert VersionSegment(parts[1], versions) by { assert parts[1][1..] == ver; }
    assert FirstVersionSegment(parts, versions, 0) == 1;
    assert parts[..1] + parts[2..] == [""] + rest;
  }

  /** With "1.0" registered, "/v1.0/api/tasks" resolves to "1.0" and the
      path becomes "//api/tasks". */
  lemma PathSegmentRewrite(versions: map<string, APIVersion>, default: string, accept: string, path: string)
    requires "1.0" in versions
    requires !Contains(accept, VendorMarker)
    requires path == "/v1.0/api/tasks"
    ensures Resolve(versions, default, accept, path) == ("1.0", "//api/tasks")
  {
    var rest := ["api", "tasks"];
    SplitExamplePath(path);
    assert ["", "v" + "1.0"] + rest == ["", "v1.0", "api", "tasks"];
    LeadingVersionSegmentRemoved(versions, default, accept, path, "1.0", rest);
    RewrittenExamplePath(rest);
  }

  lemma RewrittenExamplePath(rest: seq<string>)
    requires rest == ["api", "tasks"]
    ensures "/" + Join([""] + rest, '/') == "//api/tasks"
  {
    JoinCons("", rest, '/');
    JoinCons("api", ["tasks"], '/');
    assert Join(["tasks"], '/') == "tasks";
  }

  lemma SplitExamplePath(path: string)
    requires path == "/v1.0/api/tasks"
    ensures Split(path, '/') == ["", "v1.0", "api", "tasks"]
  {
    var parts := ["", "v1.0", "api", "tasks"];
    JoinCons("api", ["tasks"], '/');
    JoinCons("v1.0", ["api", "tasks"], '/');
    JoinCons("", ["v1.0", "api", "tasks"], '/');
    assert [""] + ["v1.0", "api", "tasks"] == parts;
    assert Join(parts, '/') == "/v1.0/api/tasks";
    SplitJoin(parts, '/');
  }

  /** A path with no segment starting with 'v' and no versioned Accept
      header resolves to the default and keeps its path. */
  lemma DefaultWhenNothingMatches(versions: map<string, APIVersion>, default: string, accept: string, path: string)
    requires !Contains(accept, VendorMarker)
    requires forall i :: 0 <= i < |Split(path, '/')| ==> !HasPrefix(Split(path, '/')[i], "v")
    ensures Resolve(versions, default, accept, path) == (default, path)
  {
  }
}
