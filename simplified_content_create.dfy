/**
 * The REST input parser of the simplified content create structure, up to the
 * point its body reaches: it requires three string elements, `ContentType`,
 * `ContentSection` and `Owner`, checked in that order and each handed to the
 * resource resolver once it has passed; and the href builder that prefixes an
 * href with the versioned REST root.
 */
module SimplifiedContentCreate {
  import RequestListener

  const REST_API_VERSION: nat := 2

  const CONTENT_TYPE := "ContentType"
  const CONTENT_SECTION := "ContentSection"
  const OWNER := "Owner"

  /** The required elements, in the order they are checked. */
  const REQUIRED_KEYS := [CONTENT_TYPE, CONTENT_SECTION, OWNER]

  /** An input element: a string, or a value of any other type (array, number, null). */
  datatype InputValue = Str(s: string) | NonString

  datatype ParserError = ParserError(message: string)

  /**
   * How parsing ends: with an error after resolving the hrefs of the elements that
   * passed, or with all three elements validated and resolved in order.
   */
  datatype Outcome =
    | Failed(resolved: seq<string>, error: ParserError)
    | Validated(resolved: seq<string>)

  /** The parser error naming a missing or non-string element. */
  function MissingOrInvalid(key: string): (message: string)
  {
    "Missing or invalid '" + key + "' element for ContentCreate."
  }

  /** Different elements give different messages, so the message names the failing element. */
  lemma MessageNamesElement(key: string, other: string)
    requires MissingOrInvalid(key) == MissingOrInvalid(other)
    ensures key == other
  {
    var before, after := "Missing or invalid '", "' element for ContentCreate.";
    assert |before| == 20 && |after| == 28;
    var m, n := MissingOrInvalid(key), MissingOrInvalid(other);
    assert m == before + key + after && n == before + other + after;
    assert |key| == |m| - 48 == |other|;
    assert key == m[20..20 + |key|];
    assert other == n[20..20 + |other|];
  }

  predicate IsStringElement(data: map<string, InputValue>, key: string)
  {
    key in data && data[key].Str?
  }

  /** Checks the required elements from `i` on, after resolving the hrefs in `resolved`. */
  function CheckFrom(data: map<string, InputValue>, i: nat, resolved: seq<string>): (r: Outcome)
    requires i <= |REQUIRED_KEYS|
    ensures |resolved| <= |r.resolved| <= |resolved| + |REQUIRED_KEYS| - i
    ensures r.resolved[..|resolved|] == resolved
    ensures r.Validated? ==> |r.resolved| == |resolved| + |REQUIRED_KEYS| - i
    decreases |REQUIRED_KEYS| - i
  {
    if i == |REQUIRED_KEYS| then Validated(resolved)
    else if !IsStringElement(data, REQUIRED_KEYS[i]) then Failed(resolved, ParserError(MissingOrInvalid(REQUIRED_KEYS[i])))
    else
      var more := resolved + [data[REQUIRED_KEYS[i]].s];
      var r := CheckFrom(data, i + 1, more);
      assert r.resolved[..|resolved|] == r.resolved[..|more|][..|resolved|];
      r
  }

  /**
   * The first failing check, in the order ContentType, ContentSection, Owner, decides
   * the error, after the hrefs of the elements before it were resolved; when none
   * fails, the three hrefs are resolved in that order.
   */
  function Parse(data: map<string, InputValue>): (r: Outcome)
    ensures r.Validated? <==> forall j :: 0 <= j < |REQUIRED_KEYS| ==> IsStringElement(data, REQUIRED_KEYS[j])
    ensures r.Validated? ==> r.resolved == [data[CONTENT_TYPE].s, data[CONTENT_SECTION].s, data[OWNER].s]
    ensures forall f: nat :: FirstInvalid(data, f) ==>
              r == Failed(Hrefs(data, f), ParserError(MissingOrInvalid(REQUIRED_KEYS[f])))
  {
    assert Hrefs(data, 0) == [];
    CheckFromOutcome(data, 0);
    CheckFrom(data, 0, [])
  }

  /** The string values of the first `n` required elements, in order. */
  function Hrefs(data: map<string, InputValue>, n: nat): (hrefs: seq<string>)
    requires n <= |REQUIRED_KEYS|
    requires forall j :: 0 <= j < n ==> IsStringElement(data, REQUIRED_KEYS[j])
  {
    if n == 0 then []
    else
      assert IsStringElement(data, REQUIRED_KEYS[n - 1]);
      Hrefs(data, n - 1) + [data[REQUIRED_KEYS[n - 1]].s]
  }

  /** The index of the first required element that is missing or not a string, if any. */
  ghost predicate FirstInvalid(data: map<string, InputValue>, i: nat)
  {
    i < |REQUIRED_KEYS| && !IsStringElement(data, REQUIRED_KEYS[i])
    && forall j :: 0 <= j < i ==> IsStringElement(data, REQUIRED_KEYS[j])
  }

  lemma {:induction false} CheckFromOutcome(data: map<string, InputValue>, i: nat)
    requires i <= |REQUIRED_KEYS|
    requires forall j :: 0 <= j < i ==> IsStringElement(data, REQUIRED_KEYS[j])
    ensures var r := CheckFrom(data, i, Hrefs(data, i));
            && (r.Validated? ==> (forall j :: 0 <= j < |REQUIRED_KEYS| ==> IsStringElement(data, REQUIRED_KEYS[j]))
                                 && r.resolved == Hrefs(data, |REQUIRED_KEYS|))
            && (r.Failed? ==> exists f: nat :: FirstInvalid(data, f) && r == Failed(Hrefs(data, f), ParserError(MissingOrInvalid(REQUIRED_KEYS[f]))))
    decreases |REQUIRED_KEYS| - i
  {
    if i < |REQUIRED_KEYS| {
      if !IsStringElement(data, REQUIRED_KEYS[i]) {
        assert FirstInvalid(data, i);
      } else {
        CheckFromOutcome(data, i + 1);
      }
    }
  }

  lemma FirstInvalidIsUnique(data: map<string, InputValue>, f: nat)
    requires FirstInvalid(data, f)
    ensures forall g: nat :: FirstInvalid(data, g) ==> g == f
  {
  }

  /** A missing or non-string `ContentType` fails first, before anything is resolved. */
  lemma ContentTypeCheckedFirst(data: map<string, InputValue>)
    requires !IsStringElement(data, CONTENT_TYPE)
    ensures Parse(data) == Failed([], ParserError(MissingOrInvalid(CONTENT_TYPE)))
  {
    assert FirstInvalid(data, 0);
  }

  /** A missing or non-string `ContentSection` fails once `ContentType` passed and was resolved. */
  lemma ContentSectionCheckedSecond(data: map<string, InputValue>)
    requires IsStringElement(data, CONTENT_TYPE) && !IsStringElement(data, CONTENT_SECTION)
    ensures Parse(data) == Failed([data[CONTENT_TYPE].s], ParserError(MissingOrInvalid(CONTENT_SECTION)))
  {
    assert REQUIRED_KEYS[0] == CONTENT_TYPE && REQUIRED_KEYS[1] == CONTENT_SECTION;
    assert FirstInvalid(data, 1);
    assert Hrefs(data, 1) == [data[CONTENT_TYPE].s];
  }

  /** A missing or non-string `Owner` fails once the other two passed and were resolved. */
  lemma OwnerCheckedThird(data: map<string, InputValue>)
    requires IsStringElement(data, CONTENT_TYPE) && IsStringElement(data, CONTENT_SECTION) && !IsStringElement(data, OWNER)
    ensures Parse(data) == Failed([data[CONTENT_TYPE].s, data[CONTENT_SECTION].s], ParserError(MissingOrInvalid(OWNER)))
  {
    assert REQUIRED_KEYS[0] == CONTENT_TYPE && REQUIRED_KEYS[1] == CONTENT_SECTION && REQUIRED_KEYS[2] == OWNER;
    assert FirstInvalid(data, 2);
    assert Hrefs(data, 1) == [data[CONTENT_TYPE].s];
    assert Hrefs(data, 2) == [data[CONTENT_TYPE].s] + [data[CONTENT_SECTION].s];
  }

  /** Elements other than the three required ones do not affect the outcome. */
  lemma ParseIgnoresOtherElements(data: map<string, InputValue>, other: map<string, InputValue>)
    requires forall j :: 0 <= j < |REQUIRED_KEYS| ==>
               (REQUIRED_KEYS[j] in data) == (REQUIRED_KEYS[j] in other)
               && (REQUIRED_KEYS[j] in data ==> data[REQUIRED_KEYS[j]] == other[REQUIRED_KEYS[j]])
    ensures Parse(data) == Parse(other)
  {
    assert IsStringElement(data, CONTENT_TYPE) == IsStringElement(other, CONTENT_TYPE) by {
      assert REQUIRED_KEYS[0] == CONTENT_TYPE;
    }
    assert IsStringElement(data, CONTENT_SECTION) == IsStringElement(other, CONTENT_SECTION) by {
      assert REQUIRED_KEYS[1] == CONTENT_SECTION;
    }
    assert IsStringElement(data, OWNER) == IsStringElement(other, OWNER) by {
      assert REQUIRED_KEYS[2] == OWNER;
    }
  }

  // ---------------------------------------------------------------------------
  // The href builder
  // ---------------------------------------------------------------------------

  /** The number a string of decimal digits spells. */
  function DigitsValue(digits: string): nat
    requires forall k :: 0 <= k < |digits| ==> '0' <= digits[k] <= '9'
  {
    if digits == [] then 0
    else DigitsValue(digits[..|digits| - 1]) * 10 + (digits[|digits| - 1] as int - '0' as int)
  }

  /** `%d` of a natural number: its decimal digits, without leading zeros, spelling that number. */
  function DecimalString(n: nat): (digits: string)
    ensures |digits| >= 1
    ensures forall k :: 0 <= k < |digits| ==> '0' <= digits[k] <= '9'
    ensures DigitsValue(digits) == n
    ensures |digits| == 1 || digits[0] != '0'
  {
    if n < 10 then [(n + '0' as int) as char]
    else
      var high := DecimalString(n / 10);
      var digits := high + [(n % 10 + '0' as int) as char];
      assert digits[..|digits| - 1] == high;
      digits
  }

  /** `/api/ezp/v<version><href>`: the versioned REST root followed by the href. */
  function GetRestHref(href: string): (path: string)
    ensures path == "/api/ezp/v2" + href
    ensures |path| == 11 + |href| && path[11..] == href
  {
    assert DecimalString(REST_API_VERSION) == "2" by {
      assert DigitsValue(DecimalString(REST_API_VERSION)) == 2;
    }
    "/api/ezp/v" + DecimalString(REST_API_VERSION) + href
  }

  /** An href that starts with `/` becomes a path the request listener flags as a REST request. */
  lemma RestHrefIsRestRoute(href: string)
    requires |href| > 0 && href[0] == '/'
    ensures RequestListener.IsRestRoute(GetRestHref(href))
  {
    var path := GetRestHref(href);
    var rest := href[1..];
    assert "/api/ezp/v2" + href == RequestListener.RestPath("ezp", "2", "", rest) by {
      assert href == "/" + rest;
      assert RequestListener.RestPath("ezp", "2", "", rest) == "/api/" + "ezp" + "/v" + "2" + "" + "/" + rest;
    }
    forall k | 0 <= k < 3 ensures RequestListener.InClass("ezp"[k], RequestListener.SegmentChar) {
      assert "ezp"[k] in "ezp";
    }
    assert RequestListener.InClass("2"[0], RequestListener.Digit);
    RequestListener.PatternIsRestRoute(path, "ezp", "2", "", rest);
  }
}
