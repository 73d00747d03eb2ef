/**
 * The request listener of the REST bundle. On every kernel request, master or
 * sub-request, it sets the request attribute `is_rest_request` to whether the
 * request path starts with `/api/<segment>/v<major>[.<minor>]/`, where the
 * segment is one or more of `A-Z a-z 0-9 - _` and major and minor are decimal
 * digits. The classification is written character by character below and
 * proved equal to that structural description.
 */
module RequestListener {

  // ---------------------------------------------------------------------------
  // The path classifier
  // ---------------------------------------------------------------------------

  const REST_PREFIX := "/api/"

  /** The two character classes of the route: a bundle segment character, and a digit. */
  datatype CharClass = SegmentChar | Digit

  predicate InClass(c: char, cls: CharClass)
  {
    match cls
    case SegmentChar => 'a' <= c <= 'z' || 'A' <= c <= 'Z' || '0' <= c <= '9' || c == '-' || c == '_'
    case Digit => '0' <= c <= '9'
  }

  /** The end of the longest run of `cls` characters of `path` that starts at `i`. */
  function SpanEnd(path: string, i: nat, cls: CharClass): (j: nat)
    requires i <= |path|
    ensures i <= j <= |path|
    ensures forall k :: i <= k < j ==> InClass(path[k], cls)
    ensures j == |path| || !InClass(path[j], cls)
    decreases |path| - i
  {
    if i < |path| && InClass(path[i], cls) then SpanEnd(path, i + 1, cls) else i
  }

  /** Whether a request path is a REST route: the value of the `is_rest_request` flag. */
  predicate IsRestRoute(path: string)
    ensures IsRestRoute(path) ==> |path| > |REST_PREFIX| && path[..|REST_PREFIX|] == REST_PREFIX
  {
    if |path| < |REST_PREFIX| || path[..|REST_PREFIX|] != REST_PREFIX then false
    else
      var segmentEnd := SpanEnd(path, |REST_PREFIX|, SegmentChar);
      if segmentEnd == |REST_PREFIX| || segmentEnd + 2 > |path| || path[segmentEnd] != '/' || path[segmentEnd + 1] != 'v' then false
      else
        var majorEnd := SpanEnd(path, segmentEnd + 2, Digit);
        if majorEnd == segmentEnd + 2 || majorEnd == |path| then false
        else if path[majorEnd] == '/' then true
        else if path[majorEnd] != '.' then false
        else
          var minorEnd := SpanEnd(path, majorEnd + 1, Digit);
          minorEnd > majorEnd + 1 && minorEnd < |path| && path[minorEnd] == '/'
  }

  // ---------------------------------------------------------------------------
  // The structural description of a REST route, and its equivalence
  // ---------------------------------------------------------------------------

  ghost predicate AllInClass(s: string, cls: CharClass)
  {
    forall k :: 0 <= k < |s| ==> InClass(s[k], cls)
  }

  /** The optional minor version: nothing, or `.` followed by one or more digits. */
  ghost predicate IsMinorVersion(minor: string)
  {
    minor == [] || (|minor| > 1 && minor[0] == '.' && AllInClass(minor[1..], Digit))
  }

  function RestPath(segment: string, major: string, minor: string, rest: string): string
  {
    REST_PREFIX + segment + "/v" + major + minor + "/" + rest
  }

  /** `/api/` + segment + `/v` + major + minor + `/` + anything. */
  ghost predicate MatchesRestPattern(path: string)
  {
    exists segment, major, minor, rest ::
      && path == RestPath(segment, major, minor, rest)
      && |segment| > 0 && AllInClass(segment, SegmentChar)
      && |major| > 0 && AllInClass(major, Digit)
      && IsMinorVersion(minor)
  }

  /** SpanEnd is the only position where a run of the class ends. */
  lemma SpanEndAt(path: string, i: nat, cls: CharClass, j: nat)
    requires i <= j <= |path|
    requires forall k :: i <= k < j ==> InClass(path[k], cls)
    requires j == |path| || !InClass(path[j], cls)
    ensures SpanEnd(path, i, cls) == j
  {
  }

  lemma RestPathLayout(segment: string, major: string, minor: string, rest: string)
    ensures var p := RestPath(segment, major, minor, rest);
            var s, m, n := 5 + |segment|, 7 + |segment| + |major|, 7 + |segment| + |major| + |minor|;
            && |p| == n + 1 + |rest|
            && p[..5] == REST_PREFIX
            && p[5..s] == segment
            && p[s] == '/' && p[s + 1] == 'v'
            && p[s + 2..m] == major
            && p[m..n] == minor
            && p[n] == '/'
            && p[n + 1..] == rest
  {
    var p := RestPath(segment, major, minor, rest);
    var s, m, n := 5 + |segment|, 7 + |segment| + |major|, 7 + |segment| + |major| + |minor|;
    assert p == REST_PREFIX + segment + "/v" + major + minor + "/" + rest;
  }

  /** Cutting a path at the given positions and reassembling it as a REST path gives it back. */
  lemma Reassemble(path: string, s: nat, m: nat, n: nat)
    requires 5 < s && s + 2 < m <= n < |path|
    requires path[..5] == REST_PREFIX && path[s] == '/' && path[s + 1] == 'v' && path[n] == '/'
    ensures path == RestPath(path[5..s], path[s + 2..m], path[m..n], path[n + 1..])
  {
    var q := RestPath(path[5..s], path[s + 2..m], path[m..n], path[n + 1..]);
    RestPathLayout(path[5..s], path[s + 2..m], path[m..n], path[n + 1..]);
    forall idx | 0 <= idx < |path| ensures q[idx] == path[idx] {
      if idx < 5 {
        assert q[idx] == q[..5][idx] == path[..5][idx];
      } else if idx < s {
        assert q[idx] == q[5..s][idx - 5];
      } else if idx < s + 2 {
        assert q[s] == '/' && q[s + 1] == 'v';
      } else if idx < m {
        assert q[idx] == q[s + 2..m][idx - s - 2];
      } else if idx < n {
        assert q[idx] == q[m..n][idx - m];
      } else if idx > n {
        assert q[idx] == q[n + 1..][idx - n - 1];
      } else {
        assert q[n] == '/';
      }
    }
  }

  lemma {:induction false} RestRouteHasPattern(path: string)
    requires IsRestRoute(path)
    ensures MatchesRestPattern(path)
  {
    var s := SpanEnd(path, 5, SegmentChar);
    var m := SpanEnd(path, s + 2, Digit);
    var n := if path[m] == '/' then m else SpanEnd(path, m + 1, Digit);
    var segment, major, minor, rest := path[5..s], path[s + 2..m], path[m..n], path[n + 1..];
    assert AllInClass(segment, SegmentChar);
    assert AllInClass(major, Digit);
    if n > m {
      assert minor[1..] == path[m + 1..n];
      assert AllInClass(minor[1..], Digit);
    }
    Reassemble(path, s, m, n);
  }

  /** The classifier accepts a path once the ends of its three runs are known and well placed. */
  lemma AcceptedAt(path: string, s: nat, m: nat, n: nat)
    requires 5 < s && s + 2 < m <= n < |path| && path[..5] == REST_PREFIX
    requires SpanEnd(path, 5, SegmentChar) == s && path[s] == '/' && path[s + 1] == 'v'
    requires SpanEnd(path, s + 2, Digit) == m && path[n] == '/'
    requires m == n || (path[m] == '.' && m + 1 < n && SpanEnd(path, m + 1, Digit) == n)
    ensures IsRestRoute(path)
  {
  }

  /** A path cut into the pieces of the REST route shape at `s`, `m` and `n` is accepted. */
  lemma LayoutIsRestRoute(path: string, s: nat, m: nat, n: nat)
    requires 5 < s && s + 2 < m <= n < |path| && path[..5] == REST_PREFIX
    requires AllInClass(path[5..s], SegmentChar) && path[s] == '/' && path[s + 1] == 'v'
    requires AllInClass(path[s + 2..m], Digit) && path[n] == '/'
    requires IsMinorVersion(path[m..n])
    ensures IsRestRoute(path)
  {
    forall k | 5 <= k < s ensures InClass(path[k], SegmentChar) {
      assert path[k] == path[5..s][k - 5];
    }
    SpanEndAt(path, 5, SegmentChar, s);
    forall k | s + 2 <= k < m ensures InClass(path[k], Digit) {
      assert path[k] == path[s + 2..m][k - s - 2];
    }
    SpanEndAt(path, s + 2, Digit, m);
    if m < n {
      var minor := path[m..n];
      assert path[m] == minor[0];
      forall k | m + 1 <= k < n ensures InClass(path[k], Digit) {
        assert path[k] == minor[1..][k - m - 1];
      }
      SpanEndAt(path, m + 1, Digit, n);
    }
    AcceptedAt(path, s, m, n);
  }

  lemma {:induction false} PatternIsRestRoute(path: string, segment: string, major: string, minor: string, rest: string)
    requires path == RestPath(segment, major, minor, rest)
    requires |segment| > 0 && AllInClass(segment, SegmentChar)
    requires |major| > 0 && AllInClass(major, Digit)
    requires IsMinorVersion(minor)
    ensures IsRestRoute(path)
  {
    RestPathLayout(segment, major, minor, rest);
    LayoutIsRestRoute(path, 5 + |segment|, 7 + |segment| + |major|, 7 + |segment| + |major| + |minor|);
  }

  /** The character-level classifier accepts exactly the paths of the REST route shape. */
  lemma RestRouteIffPattern(path: string)
    ensures IsRestRoute(path) <==> MatchesRestPattern(path)
  {
    if IsRestRoute(path) {
      RestRouteHasPattern(path);
    }
    if MatchesRestPattern(path) {
      var segment, major, minor, rest :|
        && path == RestPath(segment, major, minor, rest)
        && |segment| > 0 && AllInClass(segment, SegmentChar)
        && |major| > 0 && AllInClass(major, Digit)
        && IsMinorVersion(minor);
      PatternIsRestRoute(path, segment, major, minor, rest);
    }
  }

  // ---------------------------------------------------------------------------
  // The listener and the request it flags
  // ---------------------------------------------------------------------------

  datatype RequestType = MasterRequest | SubRequest

  /** A request attribute value. */
  datatype AttributeValue = Bool(b: bool) | Text(s: string)

  const IS_REST_REQUEST := "is_rest_request"

  class Request {
    const pathInfo: string
    var attributes: map<string, AttributeValue>

    constructor (pathInfo: string)
      ensures this.pathInfo == pathInfo && attributes == map[]
    {
      this.pathInfo := pathInfo;
      attributes := map[];
    }
  }

  /** The kernel request handler: flags the request, whatever its type, and changes nothing else. */
  method OnKernelRequest(request: Request, requestType: RequestType)
    modifies request
    ensures request.attributes == old(request.attributes)[IS_REST_REQUEST := Bool(IsRestRoute(request.pathInfo))]
  {
    request.attributes := request.attributes[IS_REST_REQUEST := Bool(IsRestRoute(request.pathInfo))];
  }

  /** A fresh request for `uri`, of the given type, passed through the listener: its flag afterwards. */
  method PerformFakeRequest(uri: string, requestType: RequestType) returns (isRestRequest: AttributeValue)
    ensures isRestRequest == Bool(IsRestRoute(uri))
  {
    var request := new Request(uri);
    OnKernelRequest(request, requestType);
    isRestRequest := request.attributes[IS_REST_REQUEST];
  }

  // ---------------------------------------------------------------------------
  // The routes of the listener's tests
  // ---------------------------------------------------------------------------

  const REST_ROUTE := "/api/ezp/v2/rest-route"
  const NON_REST_ROUTE := "/non-rest-route"

  /** A stretch of a path, spelled out as a literal, whose every character is in the class. */
  lemma RunInClass(path: string, i: nat, j: nat, run: string, cls: CharClass)
    requires i <= j <= |path| && path[i..j] == run
    requires forall c :: c in run ==> InClass(c, cls)
    ensures forall k :: i <= k < j ==> InClass(path[k], cls)
  {
    forall k | i <= k < j ensures InClass(path[k], cls) {
      assert path[k] == run[k - i];
      assert run[k - i] in run;
    }
  }

  /** A path of the REST route shape whose pieces are spelled out is accepted. */
  lemma RestRouteOf(path: string, segment: string, major: string, minor: string, rest: string)
    requires path == RestPath(segment, major, minor, rest)
    requires |segment| > 0 && forall c :: c in segment ==> InClass(c, SegmentChar)
    requires |major| > 0 && forall c :: c in major ==> InClass(c, Digit)
    requires minor == [] || (|minor| > 1 && minor[0] == '.' && forall c :: c in minor[1..] ==> InClass(c, Digit))
    ensures IsRestRoute(path)
  {
    RunInClass(segment, 0, |segment|, segment, SegmentChar);
    RunInClass(major, 0, |major|, major, Digit);
    if minor != [] {
      RunInClass(minor[1..], 0, |minor| - 1, minor[1..], Digit);
    }
    PatternIsRestRoute(path, segment, major, minor, rest);
  }

  /**
   * The segment run from position 5 to `s` is empty, or is not followed by `/v`:
   * the path is not a REST route.
   */
  lemma BadSegment(path: string, s: nat)
    requires 5 <= s < |path| && path[..5] == REST_PREFIX
    requires forall k :: 5 <= k < s ==> InClass(path[k], SegmentChar)
    requires !InClass(path[s], SegmentChar)
    requires s == 5 || path[s] != '/' || s + 1 == |path| || path[s + 1] != 'v'
    ensures !IsRestRoute(path)
  {
    SpanEndAt(path, 5, SegmentChar, s);
  }

  /**
   * After a well-formed segment and `/v`, the digit run from `s + 2` to `m` is
   * empty, or is followed by neither `/` nor `.`: the path is not a REST route.
   */
  lemma BadMajorVersion(path: string, s: nat, m: nat)
    requires 5 < s && s + 2 <= m < |path| && path[..5] == REST_PREFIX
    requires forall k :: 5 <= k < s ==> InClass(path[k], SegmentChar)
    requires path[s] == '/' && path[s + 1] == 'v'
    requires forall k :: s + 2 <= k < m ==> InClass(path[k], Digit)
    requires !InClass(path[m], Digit)
    requires m == s + 2 || (path[m] != '/' && path[m] != '.')
    ensures !IsRestRoute(path)
  {
    SpanEndAt(path, 5, SegmentChar, s);
    SpanEndAt(path, s + 2, Digit, m);
  }

  // One lemma per route of the tests, each an instance of RestRouteOf, BadSegment or BadMajorVersion.

  lemma RestRoute()
    ensures IsRestRoute("/api/ezp/v2/rest-route")
  {
    assert "/api/ezp/v2/rest-route" == RestPath("ezp", "2", "", "rest-route");
    RestRouteOf("/api/ezp/v2/rest-route", "ezp", "2", "", "rest-route");
  }

  lemma RestTrue()
    ensures IsRestRoute("/api/ezp/v2/true")
  {
    assert "/api/ezp/v2/true" == RestPath("ezp", "2", "", "true");
    RestRouteOf("/api/ezp/v2/true", "ezp", "2", "", "true");
  }

  lemma RestDashedBundle()
    ensures IsRestRoute("/api/bundle-name/v2/true")
  {
    assert "/api/bundle-name/v2/true" == RestPath("bundle-name", "2", "", "true");
    RestRouteOf("/api/bundle-name/v2/true", "bundle-name", "2", "", "true");
  }

  lemma RestBundleWithDigits()
    ensures IsRestRoute("/api/MyBundle12/v2/true")
  {
    assert "/api/MyBundle12/v2/true" == RestPath("MyBundle12", "2", "", "true");
    RestRouteOf("/api/MyBundle12/v2/true", "MyBundle12", "2", "", "true");
  }

  lemma RestUnderscoredBundle()
    ensures IsRestRoute("/api/ThisIs_Bundle123/v2/true")
  {
    assert "/api/ThisIs_Bundle123/v2/true" == RestPath("ThisIs_Bundle123", "2", "", "true");
    RestRouteOf("/api/ThisIs_Bundle123/v2/true", "ThisIs_Bundle123", "2", "", "true");
  }

  lemma RestVersionOne()
    ensures IsRestRoute("/api/my-bundle/v1/true")
  {
    assert "/api/my-bundle/v1/true" == RestPath("my-bundle", "1", "", "true");
    RestRouteOf("/api/my-bundle/v1/true", "my-bundle", "1", "", "true");
  }

  lemma RestVersionTwo()
    ensures IsRestRoute("/api/my-bundle/v2/true")
  {
    assert "/api/my-bundle/v2/true" == RestPath("my-bundle", "2", "", "true");
    RestRouteOf("/api/my-bundle/v2/true", "my-bundle", "2", "", "true");
  }

  lemma RestMinorVersion()
    ensures IsRestRoute("/api/my-bundle/v2.7/true")
  {
    assert "/api/my-bundle/v2.7/true" == RestPath("my-bundle", "2", ".7", "true");
    assert ".7"[1..] == "7";
    RestRouteOf("/api/my-bundle/v2.7/true", "my-bundle", "2", ".7", "true");
  }

  lemma RestLongVersion()
    ensures IsRestRoute("/api/my-bundle/v122.73/true")
  {
    assert "/api/my-bundle/v122.73/true" == RestPath("my-bundle", "122", ".73", "true");
    assert ".73"[1..] == "73";
    RestRouteOf("/api/my-bundle/v122.73/true", "my-bundle", "122", ".73", "true");
  }

  /** The route of the master and sub-request tests, and every REST variation, is a REST route. */
  lemma RestRequestVariations()
    ensures IsRestRoute("/api/ezp/v2/rest-route")
    ensures IsRestRoute("/api/ezp/v2/true")
    ensures IsRestRoute("/api/bundle-name/v2/true")
    ensures IsRestRoute("/api/MyBundle12/v2/true")
    ensures IsRestRoute("/api/ThisIs_Bundle123/v2/true")
    ensures IsRestRoute("/api/my-bundle/v1/true")
    ensures IsRestRoute("/api/my-bundle/v2/true")
    ensures IsRestRoute("/api/my-bundle/v2.7/true")
    ensures IsRestRoute("/api/my-bundle/v122.73/true")
  {
    RestRoute();
    RestTrue();
    RestDashedBundle();
    RestBundleWithDigits();
    RestUnderscoredBundle();
    RestVersionOne();
    RestVersionTwo();
    RestMinorVersion();
    RestLongVersion();
  }

  /** A path outside `/api/`. */
  lemma NonRestOutsideApi()
    ensures !IsRestRoute("/non-rest-route")
  {
    assert "/non-rest-route"[..5][1] != REST_PREFIX[1];
  }

  /** The prefix `/ap/` instead of `/api/`. */
  lemma NonRestShortPrefix()
    ensures !IsRestRoute("/ap/ezp/v2/false")
  {
    assert "/ap/ezp/v2/false"[..5][3] != REST_PREFIX[3];
  }

  /** A space inside the segment. */
  lemma NonRestSpacedSegment()
    ensures !IsRestRoute("/api/bundle name/v2/false")
  {
    var p := "/api/bundle name/v2/false";
    assert p[..5] == REST_PREFIX;
    RunInClass(p, 5, 11, "bundle", SegmentChar);
    BadSegment(p, 11);
  }

  /** A slash inside the segment. */
  lemma NonRestSlashedSegment()
    ensures !IsRestRoute("/api/My/Bundle/v2/false")
  {
    var p := "/api/My/Bundle/v2/false";
    assert p[..5] == REST_PREFIX;
    RunInClass(p, 5, 7, "My", SegmentChar);
    BadSegment(p, 7);
  }

  /** An empty segment. */
  lemma NonRestEmptySegment()
    ensures !IsRestRoute("/api//v2/false")
  {
    var p := "/api//v2/false";
    assert p[..5] == REST_PREFIX;
    BadSegment(p, 5);
  }

  /** A version with no digit before the `/`. */
  lemma NonRestEmptyVersion()
    ensures !IsRestRoute("/api/my-bundle/v/false")
  {
    var p := "/api/my-bundle/v/false";
    assert p[..5] == REST_PREFIX;
    RunInClass(p, 5, 14, "my-bundle", SegmentChar);
    BadMajorVersion(p, 14, 16);
  }

  /** A major version followed by `-`. */
  lemma NonRestDashedVersion()
    ensures !IsRestRoute("/api/my-bundle/v2-2/false")
  {
    var p := "/api/my-bundle/v2-2/false";
    assert p[..5] == REST_PREFIX;
    RunInClass(p, 5, 14, "my-bundle", SegmentChar);
    RunInClass(p, 16, 17, "2", Digit);
    BadMajorVersion(p, 14, 17);
  }

  /** A major version followed by a space. */
  lemma NonRestSpacedVersion()
    ensures !IsRestRoute("/api/my-bundle/v2 7/false")
  {
    var p := "/api/my-bundle/v2 7/false";
    assert p[..5] == REST_PREFIX;
    RunInClass(p, 5, 14, "my-bundle", SegmentChar);
    RunInClass(p, 16, 17, "2", Digit);
    BadMajorVersion(p, 14, 17);
  }

  /** A `/` between the `v` and the digits. */
  lemma NonRestSplitVersion()
    ensures !IsRestRoute("/api/my-bundle/v/7/false")
  {
    var p := "/api/my-bundle/v/7/false";
    assert p[..5] == REST_PREFIX;
    RunInClass(p, 5, 14, "my-bundle", SegmentChar);
    BadMajorVersion(p, 14, 16);
  }

  /** The non-REST route, and every non-REST variation, is not. */
  lemma NonRestRequestVariations()
    ensures !IsRestRoute("/non-rest-route")
    ensures !IsRestRoute("/ap/ezp/v2/false")
    ensures !IsRestRoute("/api/bundle name/v2/false")
    ensures !IsRestRoute("/api/My/Bundle/v2/false")
    ensures !IsRestRoute("/api//v2/false")
    ensures !IsRestRoute("/api/my-bundle/v/false")
    ensures !IsRestRoute("/api/my-bundle/v2-2/false")
    ensures !IsRestRoute("/api/my-bundle/v2 7/false")
    ensures !IsRestRoute("/api/my-bundle/v/7/false")
  {
    NonRestOutsideApi();
    NonRestShortPrefix();
    NonRestSpacedSegment();
    NonRestSlashedSegment();
    NonRestEmptySegment();
    NonRestEmptyVersion();
    NonRestDashedVersion();
    NonRestSpacedVersion();
    NonRestSplitVersion();
  }
}
