/**
 * The REST input parser of the owner id criterion: it requires the key
 * `OwnerIdCriterion` and splits its string value at every comma, as `explode`
 * with the delimiter `,` does, into the list of owner ids of the criterion.
 */
module OwnerIdParser {
  import opened Wrappers

  const OWNER_ID_CRITERION := "OwnerIdCriterion"
  const INVALID_FORMAT := "Invalid <OwnerIdCriterion> format"

  datatype ParserError = ParserError(message: string)

  /** The criterion matching content owned by any of the listed ids. */
  datatype OwnerIdCriterion = OwnerIdCriterion(value: seq<string>)

  // ---------------------------------------------------------------------------
  // Splitting and joining at commas
  // ---------------------------------------------------------------------------

  /** `explode(',', s)`: the pieces of `s` between commas; the empty string gives one empty piece. */
  function Explode(s: string): (parts: seq<string>)
    ensures |parts| >= 1
    decreases |s|
  {
    if |s| == 0 then [""]
    else if s[0] == ',' then [""] + Explode(s[1..])
    else
      var rest := Explode(s[1..]);
      [[s[0]] + rest[0]] + rest[1..]
  }

  /** `implode(',', parts)`. */
  function Join(parts: seq<string>): (s: string)
    decreases |parts|
  {
    if |parts| == 0 then ""
    else if |parts| == 1 then parts[0]
    else parts[0] + "," + Join(parts[1..])
  }

  function CommaCount(s: string): nat
  {
    multiset(s)[',']
  }

  ghost predicate NoComma(parts: seq<string>)
  {
    forall k :: 0 <= k < |parts| ==> ',' !in parts[k]
  }

  /** Joining a piece in front of a non-empty list puts a comma between them. */
  lemma JoinCons(part: string, parts: seq<string>)
    requires |parts| >= 1
    ensures Join([part] + parts) == part + "," + Join(parts)
  {
    assert ([part] + parts)[1..] == parts;
  }

  /** Joining the pieces with commas gives back the string. */
  lemma {:induction false} JoinExplode(s: string)
    ensures Join(Explode(s)) == s
    decreases |s|
  {
    if |s| > 0 {
      var rest := Explode(s[1..]);
      JoinExplode(s[1..]);
      assert s == [s[0]] + s[1..];
      if s[0] == ',' {
        assert Explode(s) == [""] + rest;
        JoinCons("", rest);
        assert "" + "," + s[1..] == [s[0]] + s[1..];
      } else if |rest| == 1 {
        assert Explode(s) == [[s[0]] + rest[0]];
      } else {
        var tail := rest[1..];
        assert rest == [rest[0]] + tail;
        assert Explode(s) == [[s[0]] + rest[0]] + tail;
        JoinCons(rest[0], tail);
        JoinCons([s[0]] + rest[0], tail);
        assert ([s[0]] + rest[0]) + "," + Join(tail) == [s[0]] + (rest[0] + "," + Join(tail));
      }
    }
  }

  /** No piece contains a comma. */
  lemma {:induction false} ExplodeHasNoComma(s: string)
    ensures NoComma(Explode(s))
    decreases |s|
  {
    if |s| > 0 {
      var rest := Explode(s[1..]);
      ExplodeHasNoComma(s[1..]);
      var parts := Explode(s);
      if s[0] == ',' {
        forall k | 0 <= k < |parts| ensures ',' !in parts[k] {
          if k > 0 {
            assert parts[k] == rest[k - 1];
          }
        }
      } else {
        forall k | 0 <= k < |parts| ensures ',' !in parts[k] {
          if k > 0 {
            assert parts[k] == rest[k];
          } else {
            assert parts[0] == [s[0]] + rest[0];
            assert ',' !in rest[0];
          }
        }
      }
    }
  }

  /** One piece more than there are commas; in particular never no piece. */
  lemma {:induction false} ExplodeCount(s: string)
    ensures |Explode(s)| == CommaCount(s) + 1
    decreases |s|
  {
    if |s| > 0 {
      ExplodeCount(s[1..]);
      assert s == [s[0]] + s[1..];
      assert multiset(s) == multiset([s[0]]) + multiset(s[1..]);
    }
  }

  /** Splitting a comma-free prefix followed by `t` glues the prefix to the first piece of `t`. */
  lemma {:induction false} ExplodeCommaFreePrefix(a: string, t: string)
    requires ',' !in a
    ensures Explode(a + t) == [a + Explode(t)[0]] + Explode(t)[1..]
    decreases |a|
  {
    if |a| > 0 {
      assert (a + t)[1..] == a[1..] + t;
      assert ',' !in a[1..] by {
        forall c | c in a[1..] ensures c != ',' {
          assert c in a;
        }
      }
      ExplodeCommaFreePrefix(a[1..], t);
      assert (a + t)[0] == a[0];
      assert [a[0]] + (a[1..] + Explode(t)[0]) == a + Explode(t)[0] by {
        assert a == [a[0]] + a[1..];
      }
    } else {
      assert a + t == t;
      assert a + Explode(t)[0] == Explode(t)[0];
      assert Explode(t) == [Explode(t)[0]] + Explode(t)[1..];
    }
  }

  /** Splitting a join of comma-free pieces gives back the pieces. */
  lemma {:induction false} ExplodeJoin(parts: seq<string>)
    requires |parts| >= 1 && NoComma(parts)
    ensures Explode(Join(parts)) == parts
    decreases |parts|
  {
    if |parts| == 1 {
      ExplodeCommaFreePrefix(parts[0], "");
      assert parts[0] + "" == parts[0];
    } else {
      var tail := parts[1..];
      assert NoComma(tail) by {
        forall k | 0 <= k < |tail| ensures ',' !in tail[k] {
          assert tail[k] == parts[k + 1];
        }
      }
      ExplodeJoin(tail);
      assert ',' !in parts[0];
      assert parts[0] + "," + Join(tail) == parts[0] + ("," + Join(tail));
      ExplodeCommaFreePrefix(parts[0], "," + Join(tail));
      assert ("," + Join(tail))[1..] == Join(tail);
      assert Explode("," + Join(tail)) == [""] + tail;
      assert parts[0] + "" == parts[0];
    }
  }

  // ---------------------------------------------------------------------------
  // The parser
  // ---------------------------------------------------------------------------

  /** Parses the input structure, a map from keys to string values, into the criterion. */
  function Parse(data: map<string, string>): (r: Result<OwnerIdCriterion, ParserError>)
    ensures r.Err? <==> OWNER_ID_CRITERION !in data
    ensures r.Err? ==> r.error.message == INVALID_FORMAT
    ensures r.Ok? ==> |r.value.value| >= 1
  {
    if OWNER_ID_CRITERION !in data then Err(ParserError(INVALID_FORMAT))
    else Ok(OwnerIdCriterion(Explode(data[OWNER_ID_CRITERION])))
  }

  /** A parsed criterion lists comma-free ids, one more than the commas, that join back to the value. */
  lemma ParseResult(data: map<string, string>)
    ensures Parse(data).Ok? ==>
              var ids := Parse(data).value.value;
              && Join(ids) == data[OWNER_ID_CRITERION]
              && NoComma(ids)
              && |ids| == CommaCount(data[OWNER_ID_CRITERION]) + 1
  {
    if OWNER_ID_CRITERION in data {
      JoinExplode(data[OWNER_ID_CRITERION]);
      ExplodeHasNoComma(data[OWNER_ID_CRITERION]);
      ExplodeCount(data[OWNER_ID_CRITERION]);
    }
  }

  /** Any list of comma-free ids, written joined with commas, parses back to that list. */
  lemma ParseJoined(data: map<string, string>, ids: seq<string>)
    requires |ids| >= 1 && NoComma(ids)
    requires OWNER_ID_CRITERION in data && data[OWNER_ID_CRITERION] == Join(ids)
    ensures Parse(data) == Ok(OwnerIdCriterion(ids))
  {
    ExplodeJoin(ids);
  }

  /** Keys other than the criterion's own do not affect the result. */
  lemma ParseIgnoresOtherKeys(data: map<string, string>, other: map<string, string>)
    requires (OWNER_ID_CRITERION in data) == (OWNER_ID_CRITERION in other)
    requires OWNER_ID_CRITERION in data ==> data[OWNER_ID_CRITERION] == other[OWNER_ID_CRITERION]
    ensures Parse(data) == Parse(other)
  {
  }
}
