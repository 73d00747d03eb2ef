/**
 * The compiler pass that registers the REST output visitors on the visitor
 * dispatcher. Every service tagged `ezpublish_rest.output.visitor` names the
 * Accept-header regexps it serves (a list of pattern groups, each a list of
 * regexp strings, given literally or as the name of a container parameter
 * holding one) and an optional integer priority. The pass flattens the groups
 * one level and appends one `addVisitor(regexp, reference)` call per regexp to
 * the dispatcher definition, visitors of higher priority first, visitors of
 * equal priority in the order they were declared.
 */
module OutputVisitorPass {
  import opened Wrappers

  /** A tag attribute or container parameter value: a PHP integer, string or list. */
  datatype Value = Int(i: int) | Str(s: string) | List(items: seq<Value>)

  type Attributes = map<string, Value>

  /** One visitor tag on the service `serviceId`; registrations come in declaration order. */
  datatype Registration = Registration(serviceId: string, attributes: Attributes)

  /** A container reference to a service, by id. */
  datatype Reference = Reference(id: string)

  /** A visitor as the pass collects it: effective priority, regexps, and its service. */
  datatype Visitor = Visitor(priority: int, regexps: seq<string>, reference: Reference)

  /** A call recorded on a service definition: `name(pattern, reference)`. */
  datatype MethodCall = MethodCall(name: string, pattern: string, reference: Reference)

  /** Configuration errors the pass raises, each naming the offending service. */
  datatype ConfigError =
    | MissingRegexps(serviceId: string)
    | UnknownParameter(serviceId: string, parameter: string)
    | InvalidRegexps(serviceId: string)
    | EmptyRegexps(serviceId: string)

  const ADD_VISITOR := "addVisitor"
  const PRIORITY := "priority"
  const REGEXPS := "regexps"

  // ---------------------------------------------------------------------------
  // Reading one tag
  // ---------------------------------------------------------------------------

  /** The priority a tag declares; an absent or non-integer `priority` counts as 0. */
  function EffectivePriority(attributes: Attributes): (p: int)
    ensures PRIORITY in attributes && attributes[PRIORITY].Int? ==> p == attributes[PRIORITY].i
    ensures !(PRIORITY in attributes && attributes[PRIORITY].Int?) ==> p == 0
    ensures p != 0 ==> PRIORITY in attributes
  {
    if PRIORITY in attributes && attributes[PRIORITY].Int? then attributes[PRIORITY].i else 0
  }

  /** Only the `priority` key decides the priority: a missing key, or a misspelled one, gives 0. */
  lemma PriorityOnlyFromPriorityKey(attributes: Attributes, key: string, v: Value)
    requires key != PRIORITY
    ensures PRIORITY !in attributes ==> EffectivePriority(attributes) == 0
    ensures EffectivePriority(attributes[key := v]) == EffectivePriority(attributes)
  {
  }

  /** The strings of one pattern group, in order; None when an item is not a string. */
  function GroupPatterns(items: seq<Value>): (r: Option<seq<string>>)
    ensures r.Some? <==> forall k :: 0 <= k < |items| ==> items[k].Str?
    ensures r.Some? ==> |r.value| == |items| && forall k :: 0 <= k < |items| ==> r.value[k] == items[k].s
  {
    if items == [] then Some([])
    else if !items[0].Str? then None
    else
      var rest := GroupPatterns(items[1..]);
      if rest.None? then None else Some([items[0].s] + rest.value)
  }

  /** Every group is a list, and every item of a group is a string. */
  ghost predicate WellShaped(groups: seq<Value>)
  {
    forall g :: 0 <= g < |groups| ==> groups[g].List? && forall k :: 0 <= k < |groups[g].items| ==> groups[g].items[k].Str?
  }

  /** The pattern strings of a list of groups, flattened one level in order; None when it is not well shaped. */
  function Flatten(groups: seq<Value>): (r: Option<seq<string>>)
    ensures r.Some? <==> WellShaped(groups)
  {
    if groups == [] then Some([])
    else
      assert forall g :: 0 <= g < |groups| - 1 ==> groups[1..][g] == groups[g + 1];
      if !groups[0].List? then None
      else
        var ps, rest := GroupPatterns(groups[0].items), Flatten(groups[1..]);
        if ps.None? || rest.None? then None else Some(ps.value + rest.value)
  }

  /** A string is a flattened pattern exactly when it is an item of one of the groups. */
  lemma {:induction false} FlattenMembers(groups: seq<Value>, p: string)
    requires WellShaped(groups)
    ensures p in Flatten(groups).value <==>
              exists g, k :: 0 <= g < |groups| && 0 <= k < |groups[g].items| && groups[g].items[k] == Str(p)
  {
    if groups != [] {
      var items, tail := groups[0].items, groups[1..];
      assert WellShaped(tail) by {
        assert forall g :: 0 <= g < |tail| ==> tail[g] == groups[g + 1];
      }
      FlattenMembers(tail, p);
      var ps := GroupPatterns(items).value;
      assert Flatten(groups).value == ps + Flatten(tail).value;
      if p in ps {
        var k :| 0 <= k < |ps| && ps[k] == p;
        assert groups[0].items[k] == Str(p);
      }
      if p in Flatten(tail).value {
        var g, k :| 0 <= g < |tail| && 0 <= k < |tail[g].items| && tail[g].items[k] == Str(p);
        assert groups[g + 1].items[k] == Str(p);
      }
      if exists g, k :: 0 <= g < |groups| && 0 <= k < |groups[g].items| && groups[g].items[k] == Str(p) {
        var g, k :| 0 <= g < |groups| && 0 <= k < |groups[g].items| && groups[g].items[k] == Str(p);
        if g == 0 {
          assert ps[k] == p;
        } else {
          assert tail[g - 1].items[k] == Str(p);
        }
      }
    }
  }

  lemma ConsAppend(a: seq<Value>, b: seq<Value>)
    requires a != []
    ensures (a + b)[0] == a[0] && (a + b)[1..] == a[1..] + b
  {
  }

  /**
   * Flattening a list of groups written one after the other gives their patterns
   * one after the other, and fails exactly when one of the two parts fails.
   */
  lemma {:induction false} FlattenAppend(a: seq<Value>, b: seq<Value>)
    ensures Flatten(a + b) == if Flatten(a).Some? && Flatten(b).Some? then Some(Flatten(a).value + Flatten(b).value) else None
  {
    if a == [] {
      assert a + b == b;
      if Flatten(b).Some? {
        assert [] + Flatten(b).value == Flatten(b).value;
      }
    } else {
      ConsAppend(a, b);
      FlattenAppend(a[1..], b);
      if a[0].List? && GroupPatterns(a[0].items).Some? && Flatten(a[1..]).Some? && Flatten(b).Some? {
        var ps, ts, bs := GroupPatterns(a[0].items).value, Flatten(a[1..]).value, Flatten(b).value;
        assert ps + (ts + bs) == (ps + ts) + bs;
      }
    }
  }

  /** Groups of one pattern each, as the visitor tags write them, flatten to those patterns. */
  lemma {:induction false} FlattenSingletons(patterns: seq<string>)
    ensures Flatten(seq(|patterns|, k requires 0 <= k < |patterns| => List([Str(patterns[k])]))) == Some(patterns)
  {
    var groups := seq(|patterns|, k requires 0 <= k < |patterns| => List([Str(patterns[k])]));
    if patterns != [] {
      var tail := patterns[1..];
      FlattenSingletons(tail);
      assert groups[1..] == seq(|tail|, k requires 0 <= k < |tail| => List([Str(tail[k])]));
      SingletonGroup(patterns[0]);
      assert groups[0] == List([Str(patterns[0])]);
      assert patterns == [patterns[0]] + tail;
    }
  }

  /** A group of one string gives that one pattern. */
  lemma SingletonGroup(pattern: string)
    ensures GroupPatterns([Str(pattern)]) == Some([pattern])
  {
    var group := [Str(pattern)];
    assert group[1..] == [];
    assert GroupPatterns(group[1..]) == Some([]);
    assert [pattern] + [] == [pattern];
  }

  /** A tag's single group of one regexp gives that regexp. */
  lemma FlattenOneGroup(pattern: string)
    ensures Flatten([List([Str(pattern)])]) == Some([pattern])
  {
    SingletonGroup(pattern);
    var groups := [List([Str(pattern)])];
    assert groups[1..] == [];
    assert Flatten(groups[1..]) == Some([]);
    assert [pattern] + [] == [pattern];
  }

  /**
   * The patterns of a resolved regexps value: it must be a well-shaped list of
   * groups with at least one pattern in all.
   */
  function Patterns(serviceId: string, source: Value): (r: Result<seq<string>, ConfigError>)
    ensures r.Ok? <==> source.List? && WellShaped(source.items) && Flatten(source.items).value != []
    ensures r.Ok? ==> r.value == Flatten(source.items).value
    ensures r.Err? ==> r.error == (if source.List? && Flatten(source.items) == Some([]) then EmptyRegexps(serviceId)
                                   else InvalidRegexps(serviceId))
  {
    match source
    case List(groups) =>
      (match Flatten(groups)
       case None => Err(InvalidRegexps(serviceId))
       case Some(ps) => if ps == [] then Err(EmptyRegexps(serviceId)) else Ok(ps))
    case _ => Err(InvalidRegexps(serviceId))
  }

  /**
   * The regexps a tag names: a literal list of groups, or the name of a
   * container parameter whose value is such a list.
   */
  function ResolveRegexps(registration: Registration, parameters: map<string, Value>): (r: Result<seq<string>, ConfigError>)
    ensures r.Ok? ==> |r.value| > 0 && REGEXPS in registration.attributes
    ensures r.Err? ==> r.error.serviceId == registration.serviceId
    ensures REGEXPS !in registration.attributes ==> r == Err(MissingRegexps(registration.serviceId))
    ensures REGEXPS in registration.attributes && registration.attributes[REGEXPS].List? ==>
              r == Patterns(registration.serviceId, registration.attributes[REGEXPS])
    ensures REGEXPS in registration.attributes && registration.attributes[REGEXPS].Str? ==>
              var name := registration.attributes[REGEXPS].s;
              r == if name in parameters then Patterns(registration.serviceId, parameters[name])
                   else Err(UnknownParameter(registration.serviceId, name))
    ensures REGEXPS in registration.attributes && registration.attributes[REGEXPS].Int? ==>
              r == Err(InvalidRegexps(registration.serviceId))
  {
    var id := registration.serviceId;
    if REGEXPS !in registration.attributes then Err(MissingRegexps(id))
    else
      match registration.attributes[REGEXPS]
      case Str(name) =>
        if name !in parameters then Err(UnknownParameter(id, name)) else Patterns(id, parameters[name])
      case source => Patterns(id, source)
  }

  /**
   * A flat list whose items include a pattern string, rather than a list of
   * groups, is not well shaped: it is refused as invalid.
   */
  lemma FlatListIsInvalid(serviceId: string, items: seq<Value>, k: nat)
    requires k < |items| && items[k].Str?
    ensures !WellShaped(items)
    ensures Patterns(serviceId, List(items)) == Err(InvalidRegexps(serviceId))
  {
    assert !items[k].List?;
  }

  /** A literal list of groups resolves to its flattened patterns, the pattern strings of its groups. */
  lemma LiteralResolves(registration: Registration, parameters: map<string, Value>, groups: seq<Value>, p: string)
    requires REGEXPS in registration.attributes && registration.attributes[REGEXPS] == List(groups)
    requires WellShaped(groups) && Flatten(groups).value != []
    ensures ResolveRegexps(registration, parameters) == Ok(Flatten(groups).value)
    ensures p in ResolveRegexps(registration, parameters).value <==>
              exists g, k :: 0 <= g < |groups| && 0 <= k < |groups[g].items| && groups[g].items[k] == Str(p)
  {
    FlattenMembers(groups, p);
  }

  /** A parameter name resolves to exactly the list the parameter holds, as if written literally. */
  lemma ParameterEqualsLiteral(serviceId: string, attributes: Attributes, parameters: map<string, Value>,
                               name: string, items: seq<Value>)
    ensures ResolveRegexps(Registration(serviceId, attributes[REGEXPS := Str(name)]), parameters[name := List(items)])
         == ResolveRegexps(Registration(serviceId, attributes[REGEXPS := List(items)]), parameters)
  {
  }

  function ToVisitor(registration: Registration, regexps: seq<string>): Visitor
  {
    Visitor(EffectivePriority(registration.attributes), regexps, Reference(registration.serviceId))
  }

  // ---------------------------------------------------------------------------
  // Collecting all tags
  // ---------------------------------------------------------------------------

  /**
   * The visitors of all registrations, in declaration order; the first
   * registration that fails to resolve decides the error.
   */
  function Collect(registrations: seq<Registration>, parameters: map<string, Value>): (r: Result<seq<Visitor>, ConfigError>)
    ensures r.Ok? <==> forall k :: 0 <= k < |registrations| ==> ResolveRegexps(registrations[k], parameters).Ok?
    ensures r.Ok? ==> |r.value| == |registrations|
    ensures r.Ok? ==> forall k :: 0 <= k < |registrations| ==>
              r.value[k] == ToVisitor(registrations[k], ResolveRegexps(registrations[k], parameters).value)
    ensures r.Err? ==> exists k :: (0 <= k < |registrations| && ResolveRegexps(registrations[k], parameters) == Err(r.error)
                                    && forall j :: 0 <= j < k ==> ResolveRegexps(registrations[j], parameters).Ok?)
  {
    if registrations == [] then Ok([])
    else
      var init := registrations[..|registrations| - 1];
      var last := registrations[|registrations| - 1];
      assert forall k :: 0 <= k < |init| ==> init[k] == registrations[k];
      match Collect(init, parameters)
      case Err(e) => Err(e)
      case Ok(visitors) =>
        match ResolveRegexps(last, parameters)
        case Err(e) => Err(e)
        case Ok(regexps) => Ok(visitors + [ToVisitor(last, regexps)])
  }

  // ---------------------------------------------------------------------------
  // Ordering: a stable sort by descending priority
  // ---------------------------------------------------------------------------

  predicate SortedByPriority(visitors: seq<Visitor>)
  {
    forall i, j :: 0 <= i < j < |visitors| ==> visitors[i].priority >= visitors[j].priority
  }

  /** The visitors of priority `p`, in the order they occur. */
  function WithPriority(visitors: seq<Visitor>, p: int): seq<Visitor>
  {
    if visitors == [] then []
    else (if visitors[0].priority == p then [visitors[0]] else []) + WithPriority(visitors[1..], p)
  }

  /** Inserts `v` in front of the first visitor whose priority is not above its own. */
  function Insert(v: Visitor, sorted: seq<Visitor>): (r: seq<Visitor>)
    ensures |r| == |sorted| + 1
  {
    if sorted == [] || v.priority >= sorted[0].priority then [v] + sorted
    else [sorted[0]] + Insert(v, sorted[1..])
  }

  /** The visitors ordered by descending priority, equal priorities in their original order. */
  function SortByPriority(visitors: seq<Visitor>): (r: seq<Visitor>)
    ensures |r| == |visitors|
  {
    if visitors == [] then [] else Insert(visitors[0], SortByPriority(visitors[1..]))
  }

  lemma SortedCons(x: Visitor, rest: seq<Visitor>)
    requires SortedByPriority(rest)
    requires rest == [] || rest[0].priority <= x.priority
    ensures SortedByPriority([x] + rest)
  {
    var r := [x] + rest;
    forall i, j | 0 <= i < j < |r| ensures r[i].priority >= r[j].priority {
      assert r[j] == rest[j - 1];
      if i > 0 {
        assert r[i] == rest[i - 1];
      } else {
        assert rest[0].priority >= rest[j - 1].priority || j - 1 == 0;
      }
    }
  }

  lemma {:induction false} InsertIntoSorted(v: Visitor, sorted: seq<Visitor>)
    requires SortedByPriority(sorted)
    ensures SortedByPriority(Insert(v, sorted))
    ensures multiset(Insert(v, sorted)) == multiset([v] + sorted)
    ensures Insert(v, sorted)[0] == v || Insert(v, sorted)[0] == sorted[0]
  {
    if sorted == [] || v.priority >= sorted[0].priority {
      SortedCons(v, sorted);
    } else {
      var s0, tail := sorted[0], sorted[1..];
      assert sorted == [s0] + tail;
      assert SortedByPriority(tail);
      InsertIntoSorted(v, tail);
      var rest := Insert(v, tail);
      assert Insert(v, sorted) == [s0] + rest;
      assert tail != [] ==> tail[0].priority <= s0.priority;
      SortedCons(s0, rest);
    }
  }

  /** SortByPriority orders by descending priority and is a permutation of its input. */
  lemma {:induction false} SortByPriorityIsSortedPermutation(visitors: seq<Visitor>)
    ensures SortedByPriority(SortByPriority(visitors))
    ensures multiset(SortByPriority(visitors)) == multiset(visitors)
  {
    if visitors != [] {
      assert visitors == [visitors[0]] + visitors[1..];
      SortByPriorityIsSortedPermutation(visitors[1..]);
      InsertIntoSorted(visitors[0], SortByPriority(visitors[1..]));
    }
  }

  lemma WithPriorityCons(v: Visitor, rest: seq<Visitor>, p: int)
    ensures WithPriority([v] + rest, p) == (if v.priority == p then [v] else []) + WithPriority(rest, p)
  {
    assert ([v] + rest)[0] == v;
    assert ([v] + rest)[1..] == rest;
  }

  lemma {:induction false} WithPriorityMembers(visitors: seq<Visitor>, p: int, x: Visitor)
    ensures x in WithPriority(visitors, p) <==> x in visitors && x.priority == p
  {
    if visitors != [] {
      WithPriorityMembers(visitors[1..], p, x);
      assert visitors == [visitors[0]] + visitors[1..];
    }
  }

  lemma {:induction false} InsertKeepsPriorityClasses(v: Visitor, sorted: seq<Visitor>, p: int)
    requires SortedByPriority(sorted)
    ensures WithPriority(Insert(v, sorted), p) == WithPriority([v] + sorted, p)
  {
    if sorted != [] && v.priority < sorted[0].priority {
      var s0, tail := sorted[0], sorted[1..];
      assert sorted == [s0] + tail;
      var cs, cv := (if s0.priority == p then [s0] else []), (if v.priority == p then [v] else []);
      assert cs == [] || cv == [];
      calc {
        WithPriority(Insert(v, sorted), p);
        WithPriority([s0] + Insert(v, tail), p);
        { WithPriorityCons(s0, Insert(v, tail), p); }
        cs + WithPriority(Insert(v, tail), p);
        { InsertKeepsPriorityClasses(v, tail, p); }
        cs + WithPriority([v] + tail, p);
        { WithPriorityCons(v, tail, p); }
        cs + (cv + WithPriority(tail, p));
        cv + (cs + WithPriority(tail, p));
        { WithPriorityCons(s0, tail, p); }
        cv + WithPriority(sorted, p);
        { WithPriorityCons(v, sorted, p); }
        WithPriority([v] + sorted, p);
      }
    }
  }

  /**
   * SortByPriority is a stable sort: it is sorted, a permutation of its
   * input, and for every priority the visitors of that priority keep their order.
   */
  lemma {:induction false} SortByPriorityIsStable(visitors: seq<Visitor>, p: int)
    ensures WithPriority(SortByPriority(visitors), p) == WithPriority(visitors, p)
  {
    if visitors != [] {
      var rest := visitors[1..];
      assert visitors == [visitors[0]] + rest;
      SortByPriorityIsStable(rest, p);
      SortByPriorityIsSortedPermutation(rest);
      InsertKeepsPriorityClasses(visitors[0], SortByPriority(rest), p);
      WithPriorityCons(visitors[0], SortByPriority(rest), p);
      WithPriorityCons(visitors[0], rest, p);
    }
  }

  lemma {:induction false} SortedWithSameClassesAreEqual(t: seq<Visitor>, u: seq<Visitor>)
    requires SortedByPriority(t) && SortedByPriority(u)
    requires forall p :: WithPriority(t, p) == WithPriority(u, p)
    ensures t == u
    decreases |t|
  {
    if t == [] || u == [] {
      var w := if t == [] then u else t;
      if w != [] {
        WithPriorityMembers(w, w[0].priority, w[0]);
        assert false;
      }
    } else {
      var P, Q := t[0].priority, u[0].priority;
      assert t == [t[0]] + t[1..];
      assert u == [u[0]] + u[1..];
      WithPriorityMembers(t, P, t[0]);
      WithPriorityMembers(u, P, t[0]);
      WithPriorityMembers(u, Q, u[0]);
      WithPriorityMembers(t, Q, u[0]);
      assert P == Q;
      WithPriorityCons(t[0], t[1..], P);
      WithPriorityCons(u[0], u[1..], P);
      var tp, up := WithPriority(t[1..], P), WithPriority(u[1..], P);
      assert [t[0]] + tp == [u[0]] + up;
      assert t[0] == ([t[0]] + tp)[0] == ([u[0]] + up)[0] == u[0];
      assert tp == ([t[0]] + tp)[1..] == ([u[0]] + up)[1..] == up;
      forall p ensures WithPriority(t[1..], p) == WithPriority(u[1..], p) {
        if p != P {
          WithPriorityCons(t[0], t[1..], p);
          WithPriorityCons(u[0], u[1..], p);
          assert WithPriority(t, p) == WithPriority(t[1..], p);
          assert WithPriority(u, p) == WithPriority(u[1..], p);
          assert WithPriority(t, p) == WithPriority(u, p);
        }
      }
      SortedWithSameClassesAreEqual(t[1..], u[1..]);
    }
  }

  /**
   * SortByPriority is THE stable sort: any ordering of the visitors that is
   * sorted by priority and keeps every priority class in order equals it.
   */
  lemma StableSortIsUnique(visitors: seq<Visitor>, ordering: seq<Visitor>)
    requires SortedByPriority(ordering)
    requires forall p :: WithPriority(ordering, p) == WithPriority(visitors, p)
    ensures ordering == SortByPriority(visitors)
  {
    forall p ensures WithPriority(ordering, p) == WithPriority(SortByPriority(visitors), p) {
      SortByPriorityIsStable(visitors, p);
    }
    SortByPriorityIsSortedPermutation(visitors);
    SortedWithSameClassesAreEqual(ordering, SortByPriority(visitors));
  }

  // ---------------------------------------------------------------------------
  // The calls on the dispatcher definition
  // ---------------------------------------------------------------------------

  /** The `addVisitor` calls of one visitor: one per regexp, each referring to its service. */
  function VisitorCalls(v: Visitor): (calls: seq<MethodCall>)
    ensures |calls| == |v.regexps|
    ensures forall k :: 0 <= k < |calls| ==> calls[k] == MethodCall(ADD_VISITOR, v.regexps[k], v.reference)
  {
    seq(|v.regexps|, k requires 0 <= k < |v.regexps| => MethodCall(ADD_VISITOR, v.regexps[k], v.reference))
  }

  /** The calls of all visitors, visitor by visitor. */
  function Calls(visitors: seq<Visitor>): (calls: seq<MethodCall>)
    ensures forall k :: 0 <= k < |calls| ==> calls[k].name == ADD_VISITOR
  {
    if visitors == [] then []
    else Calls(visitors[..|visitors| - 1]) + VisitorCalls(visitors[|visitors| - 1])
  }

  /** Each call is an `addVisitor` call for one regexp of one of the visitors, referring to that visitor's service. */
  lemma {:induction false} CallsComeFromVisitors(visitors: seq<Visitor>, c: MethodCall)
    requires c in Calls(visitors)
    ensures c.name == ADD_VISITOR
    ensures exists v :: v in visitors && c.reference == v.reference && c.pattern in v.regexps
  {
    var init, last := visitors[..|visitors| - 1], visitors[|visitors| - 1];
    if c in Calls(init) {
      CallsComeFromVisitors(init, c);
      var v :| v in init && c.reference == v.reference && c.pattern in v.regexps;
      assert v in visitors;
    } else {
      var k :| 0 <= k < |VisitorCalls(last)| && VisitorCalls(last)[k] == c;
      assert c.pattern == last.regexps[k];
    }
  }

  /** With one regexp per visitor, the calls are one per visitor, in the visitors' order. */
  lemma {:induction false} CallsOfSingleRegexps(visitors: seq<Visitor>)
    requires forall k :: 0 <= k < |visitors| ==> |visitors[k].regexps| == 1
    ensures |Calls(visitors)| == |visitors|
    ensures forall k :: 0 <= k < |visitors| ==>
              Calls(visitors)[k] == MethodCall(ADD_VISITOR, visitors[k].regexps[0], visitors[k].reference)
  {
    if visitors != [] {
      var init, last := visitors[..|visitors| - 1], visitors[|visitors| - 1];
      CallsOfSingleRegexps(init);
      assert VisitorCalls(last) == [MethodCall(ADD_VISITOR, last.regexps[0], last.reference)];
    }
  }

  /** What the pass appends to the dispatcher definition, or the error it raises. */
  function Compile(registrations: seq<Registration>, parameters: map<string, Value>): (r: Result<seq<MethodCall>, ConfigError>)
    ensures r.Ok? <==> forall k :: 0 <= k < |registrations| ==> ResolveRegexps(registrations[k], parameters).Ok?
    ensures r.Ok? ==> forall c :: c in r.value ==> c.name == ADD_VISITOR
    ensures r.Err? ==> exists k :: (0 <= k < |registrations| && ResolveRegexps(registrations[k], parameters) == Err(r.error)
                                    && forall j :: 0 <= j < k ==> ResolveRegexps(registrations[j], parameters).Ok?)
  {
    match Collect(registrations, parameters)
    case Err(e) => Err(e)
    case Ok(visitors) => Ok(Calls(SortByPriority(visitors)))
  }

  /**
   * Every call the pass produces is an `addVisitor` call whose reference is
   * the id of a registered service and whose pattern is one of its regexps.
   */
  lemma CompiledCallsReferToRegistrations(registrations: seq<Registration>, parameters: map<string, Value>)
    requires Compile(registrations, parameters).Ok?
    ensures forall c :: c in Compile(registrations, parameters).value ==>
              c.name == ADD_VISITOR &&
              exists k :: 0 <= k < |registrations| && c.reference == Reference(registrations[k].serviceId)
                          && c.pattern in ResolveRegexps(registrations[k], parameters).value
  {
    var visitors := Collect(registrations, parameters).value;
    var sorted := SortByPriority(visitors);
    SortByPriorityIsSortedPermutation(visitors);
    forall c | c in Calls(sorted)
      ensures c.name == ADD_VISITOR
      ensures exists k :: 0 <= k < |registrations| && c.reference == Reference(registrations[k].serviceId)
                          && c.pattern in ResolveRegexps(registrations[k], parameters).value
    {
      CallsComeFromVisitors(sorted, c);
      var v :| v in sorted && c.reference == v.reference && c.pattern in v.regexps;
      assert v in multiset(visitors);
      var k :| 0 <= k < |visitors| && visitors[k] == v;
      assert c.reference == Reference(registrations[k].serviceId);
    }
  }

  /**
   * With one regexp per registration, the pass emits exactly one call per
   * registration: the calls follow the stable priority order of the visitors,
   * which is a permutation of the registrations.
   */
  lemma OneCallPerRegistration(registrations: seq<Registration>, parameters: map<string, Value>)
    requires forall k :: 0 <= k < |registrations| ==>
               ResolveRegexps(registrations[k], parameters).Ok? && |ResolveRegexps(registrations[k], parameters).value| == 1
    ensures Compile(registrations, parameters).Ok?
    ensures |Compile(registrations, parameters).value| == |registrations|
    ensures forall k :: 0 <= k < |registrations| ==>
              Compile(registrations, parameters).value[k].reference == SortByPriority(Collect(registrations, parameters).value)[k].reference
    ensures multiset(SortByPriority(Collect(registrations, parameters).value)) == multiset(Collect(registrations, parameters).value)
  {
    var visitors := Collect(registrations, parameters).value;
    var sorted := SortByPriority(visitors);
    SortByPriorityIsSortedPermutation(visitors);
    forall k | 0 <= k < |sorted| ensures |sorted[k].regexps| == 1 {
      assert sorted[k] in multiset(visitors);
    }
    CallsOfSingleRegexps(sorted);
  }

  /** The calls of two lists of visitors, one after the other, are the calls of the first then of the second. */
  lemma {:induction false} CallsAppend(a: seq<Visitor>, b: seq<Visitor>)
    ensures Calls(a + b) == Calls(a) + Calls(b)
  {
    if b == [] {
      assert a + b == a;
    } else {
      var init := b[..|b| - 1];
      assert (a + b)[..|a + b| - 1] == a + init;
      assert (a + b)[|a + b| - 1] == b[|b| - 1];
      CallsAppend(a, init);
    }
  }

  /** Where the `p`-th call of visitor `i` sits among the calls of all visitors. */
  function CallIndex(visitors: seq<Visitor>, i: nat, p: nat): nat
    requires i <= |visitors|
  {
    |Calls(visitors[..i])| + p
  }

  /** The call at `CallIndex(visitors, i, p)` is the `addVisitor` call of visitor `i`'s `p`-th pattern. */
  lemma CallAt(visitors: seq<Visitor>, i: nat, p: nat)
    requires i < |visitors| && p < |visitors[i].regexps|
    ensures CallIndex(visitors, i, p) < |Calls(visitors)|
    ensures Calls(visitors)[CallIndex(visitors, i, p)] == MethodCall(ADD_VISITOR, visitors[i].regexps[p], visitors[i].reference)
  {
    assert visitors == visitors[..i + 1] + visitors[i + 1..];
    CallsAppend(visitors[..i + 1], visitors[i + 1..]);
    assert visitors[..i + 1][..i] == visitors[..i];
  }

  /** Every call of an earlier visitor comes before every call of a later one. */
  lemma CallIndexOrder(visitors: seq<Visitor>, i: nat, p: nat, j: nat, q: nat)
    requires i < j < |visitors| && p < |visitors[i].regexps|
    ensures CallIndex(visitors, i, p) < CallIndex(visitors, j, q)
  {
    assert visitors[..j] == visitors[..i + 1] + visitors[i + 1..j];
    CallsAppend(visitors[..i + 1], visitors[i + 1..j]);
    assert visitors[..i + 1][..i] == visitors[..i];
  }

  /**
   * The pass emits the calls of a visitor of strictly higher priority before
   * those of a visitor of lower priority, whatever the number of patterns.
   */
  lemma CompiledCallsFollowPriority(registrations: seq<Registration>, parameters: map<string, Value>,
                                    i: nat, p: nat, j: nat, q: nat)
    requires Compile(registrations, parameters).Ok?
    requires var sorted := SortByPriority(Collect(registrations, parameters).value);
             i < |sorted| && j < |sorted| && p < |sorted[i].regexps| && q < |sorted[j].regexps|
             && sorted[i].priority > sorted[j].priority
    ensures var sorted := SortByPriority(Collect(registrations, parameters).value);
            var calls := Compile(registrations, parameters).value;
            CallIndex(sorted, i, p) < CallIndex(sorted, j, q) < |calls|
            && calls[CallIndex(sorted, i, p)] == MethodCall(ADD_VISITOR, sorted[i].regexps[p], sorted[i].reference)
            && calls[CallIndex(sorted, j, q)] == MethodCall(ADD_VISITOR, sorted[j].regexps[q], sorted[j].reference)
  {
    var visitors := Collect(registrations, parameters).value;
    var sorted := SortByPriority(visitors);
    SortByPriorityIsSortedPermutation(visitors);
    assert i < j;
    CallAt(sorted, i, p);
    CallAt(sorted, j, q);
    CallIndexOrder(sorted, i, p, j, q);
  }

  // ---------------------------------------------------------------------------
  // The definition being mutated, and the pass itself
  // ---------------------------------------------------------------------------

  /** A service definition of the container: the list of method calls it records. */
  class Definition {
    var methodCalls: seq<MethodCall>

    constructor ()
      ensures methodCalls == []
    {
      methodCalls := [];
    }

    method AddMethodCall(name: string, pattern: string, reference: Reference)
      modifies this
      ensures methodCalls == old(methodCalls) + [MethodCall(name, pattern, reference)]
    {
      methodCalls := methodCalls + [MethodCall(name, pattern, reference)];
    }
  }

  /** The first `i` registrations resolve, and `visitors` holds their visitors in order. */
  ghost predicate CollectedUpTo(registrations: seq<Registration>, parameters: map<string, Value>, i: nat, visitors: seq<Visitor>)
  {
    i <= |registrations| && |visitors| == i
    && forall k :: 0 <= k < i ==> ResolveRegexps(registrations[k], parameters).Ok?
                                  && visitors[k] == ToVisitor(registrations[k], ResolveRegexps(registrations[k], parameters).value)
  }

  /** When every registration resolves, the collection is the visitors collected so far. */
  lemma CollectAll(registrations: seq<Registration>, parameters: map<string, Value>, visitors: seq<Visitor>)
    requires CollectedUpTo(registrations, parameters, |registrations|, visitors)
    ensures Collect(registrations, parameters) == Ok(visitors)
  {
    var r := Collect(registrations, parameters);
    assert r.Ok?;
    assert forall k :: 0 <= k < |visitors| ==> r.value[k] == visitors[k];
    assert r.value == visitors;
  }

  /** Once a prefix resolves, the error of the whole collection is that of the next registration that fails. */
  lemma CollectFirstError(registrations: seq<Registration>, parameters: map<string, Value>, i: nat)
    requires i < |registrations| && ResolveRegexps(registrations[i], parameters).Err?
    requires forall j :: 0 <= j < i ==> ResolveRegexps(registrations[j], parameters).Ok?
    ensures Collect(registrations, parameters) == Err(ResolveRegexps(registrations[i], parameters).error)
  {
    var r := Collect(registrations, parameters);
    var k :| 0 <= k < |registrations| && ResolveRegexps(registrations[k], parameters) == Err(r.error)
             && forall j :: 0 <= j < k ==> ResolveRegexps(registrations[j], parameters).Ok?;
    assert k == i;
  }

  /** Reads every visitor tag in declaration order, stopping at the first configuration error. */
  method CollectVisitors(registrations: seq<Registration>, parameters: map<string, Value>)
    returns (r: Result<seq<Visitor>, ConfigError>)
    ensures r == Collect(registrations, parameters)
  {
    var visitors: seq<Visitor> := [];
    var i := 0;
    while i < |registrations|
      invariant CollectedUpTo(registrations, parameters, i, visitors)
    {
      var regexps := ResolveRegexps(registrations[i], parameters);
      if regexps.Err? {
        CollectFirstError(registrations, parameters, i);
        return Err(regexps.error);
      }
      visitors := visitors + [ToVisitor(registrations[i], regexps.value)];
      i := i + 1;
    }
    CollectAll(registrations, parameters, visitors);
    return Ok(visitors);
  }

  /** Appends the calls of every visitor, in the given order, to the definition. */
  method AddVisitorCalls(dispatcher: Definition, visitors: seq<Visitor>)
    modifies dispatcher
    ensures dispatcher.methodCalls == old(dispatcher.methodCalls) + Calls(visitors)
  {
    var done := 0;
    while done < |visitors|
      invariant 0 <= done <= |visitors|
      invariant dispatcher.methodCalls == old(dispatcher.methodCalls) + Calls(visitors[..done])
    {
      var visitor := visitors[done];
      var k := 0;
      while k < |visitor.regexps|
        invariant 0 <= k <= |visitor.regexps|
        invariant dispatcher.methodCalls == old(dispatcher.methodCalls) + Calls(visitors[..done]) + VisitorCalls(visitor)[..k]
      {
        dispatcher.AddMethodCall(ADD_VISITOR, visitor.regexps[k], visitor.reference);
        assert VisitorCalls(visitor)[..k + 1] == VisitorCalls(visitor)[..k] + [VisitorCalls(visitor)[k]];
        k := k + 1;
      }
      assert visitors[..done + 1][..done] == visitors[..done];
      assert VisitorCalls(visitor)[..k] == VisitorCalls(visitor);
      done := done + 1;
    }
    assert visitors[..done] == visitors;
  }

  /**
   * Runs the pass: collects the tagged visitors, orders them, and appends their
   * calls to the dispatcher definition. On a configuration error the definition
   * is left untouched.
   */
  method Process(dispatcher: Definition, registrations: seq<Registration>, parameters: map<string, Value>)
    returns (r: Result<(), ConfigError>)
    modifies dispatcher
    ensures Compile(registrations, parameters).Err? ==>
              r == Err(Compile(registrations, parameters).error) && dispatcher.methodCalls == old(dispatcher.methodCalls)
    ensures Compile(registrations, parameters).Ok? ==>
              r == Ok(()) && dispatcher.methodCalls == old(dispatcher.methodCalls) + Compile(registrations, parameters).value
  {
    var collected := CollectVisitors(registrations, parameters);
    if collected.Err? {
      return Err(collected.error);
    }
    AddVisitorCalls(dispatcher, SortByPriority(collected.value));
    return Ok(());
  }

  // ---------------------------------------------------------------------------
  // The two scenarios of the pass's tests
  // ---------------------------------------------------------------------------

  const DISPATCHER := "ezpublish_rest.output.visitor.dispatcher"

  const TEST_STRING := Registration("ezpublish_rest.output.visitor.test_string",
                                    map[REGEXPS := Str("ezpublish_rest.output.visitor.test1.regexps")])
  const TEST_ARRAY := Registration("ezpublish_rest.output.visitor.test_array",
                                   map[REGEXPS := List([List([Str("(^.*/.*$)")])])])
  const TEST_PARAMETERS := map["ezpublish_rest.output.visitor.test1.regexps" := List([List([Str("(^application/json$)")])])]

  /** Both tags of the first test resolve, the string one through the container parameter. */
  lemma ProcessScenarioCollected()
    ensures Collect([TEST_STRING, TEST_ARRAY], TEST_PARAMETERS)
         == Ok([ Visitor(0, ["(^application/json$)"], Reference(TEST_STRING.serviceId)),
                 Visitor(0, ["(^.*/.*$)"], Reference(TEST_ARRAY.serviceId)) ])
  {
    var a, b := TEST_STRING, TEST_ARRAY;
    assert PRIORITY != REGEXPS;
    var va := ToVisitor(a, ["(^application/json$)"]);
    var vb := ToVisitor(b, ["(^.*/.*$)"]);
    FlattenOneGroup("(^application/json$)");
    FlattenOneGroup("(^.*/.*$)");
    assert ResolveRegexps(a, TEST_PARAMETERS) == Ok(va.regexps);
    assert ResolveRegexps(b, TEST_PARAMETERS) == Ok(vb.regexps);
    assert [a, b][..1] == [a] && [a][..0] == [];
    assert [] + [va] == [va] && [va] + [vb] == [va, vb];
    assert Collect([a], TEST_PARAMETERS) == Ok([] + [va]);
  }

  /** Two visitors already in priority order stay in that order. */
  lemma SortTwo(a: Visitor, b: Visitor)
    requires a.priority >= b.priority
    ensures SortByPriority([a, b]) == [a, b]
  {
    assert [a, b][1..] == [b];
    assert SortByPriority([b]) == Insert(b, []) == [b];
  }

  /** Two visitors of one regexp each give two calls, in their order. */
  lemma CallsOfTwo(a: Visitor, b: Visitor)
    requires |a.regexps| == 1 && |b.regexps| == 1
    ensures Calls([a, b]) == [ MethodCall(ADD_VISITOR, a.regexps[0], a.reference), MethodCall(ADD_VISITOR, b.regexps[0], b.reference) ]
  {
    CallsOfSingleRegexps([a, b]);
    var calls := Calls([a, b]);
    assert calls == [calls[0], calls[1]];
  }

  /**
   * A parameter-named regexps list and a literal one both produce calls, in
   * registration order when no priority is given.
   */
  lemma ProcessScenario()
    ensures Compile([TEST_STRING, TEST_ARRAY], TEST_PARAMETERS)
         == Ok([ MethodCall(ADD_VISITOR, "(^application/json$)",
                            Reference("ezpublish_rest.output.visitor.test_string")),
                 MethodCall(ADD_VISITOR, "(^.*/.*$)",
                            Reference("ezpublish_rest.output.visitor.test_array")) ])
  {
    var va := Visitor(0, ["(^application/json$)"], Reference(TEST_STRING.serviceId));
    var vb := Visitor(0, ["(^.*/.*$)"], Reference(TEST_ARRAY.serviceId));
    ProcessScenarioCollected();
    SortTwo(va, vb);
    CallsOfTwo(va, vb);
  }

  lemma PriorityOrderScenario(high: Visitor, definedNormal: Visitor, low: Visitor, normal: Visitor)
    requires high.priority == 10 && definedNormal.priority == 0 && normal.priority == 0 && low.priority == -10
    ensures SortByPriority([definedNormal, low, normal, high]) == [high, definedNormal, normal, low]
  {
    assert [definedNormal, low, normal, high][1..] == [low, normal, high];
    assert [low, normal, high][1..] == [normal, high];
    assert [normal, high][1..] == [high];
    assert SortByPriority([high]) == Insert(high, []) == [high];
    SortStep(normal, [high], []);
    assert [high] + [normal] + [] == [high, normal];
    assert SortByPriority([normal, high]) == [high, normal];
    SortStep(low, [high, normal], []);
    assert [high, normal] + [low] + [] == [high, normal, low];
    assert SortByPriority([low, normal, high]) == [high, normal, low];
    SortStep(definedNormal, [high], [normal, low]);
    assert [high] + [normal, low] == [high, normal, low];
    assert [high] + [definedNormal] + [normal, low] == [high, definedNormal, normal, low];
  }

  /** Inserting behind a sorted run of strictly higher priorities, in front of the rest. */
  lemma {:induction false} SortStep(v: Visitor, higher: seq<Visitor>, rest: seq<Visitor>)
    requires forall k :: 0 <= k < |higher| ==> higher[k].priority > v.priority
    requires rest == [] || v.priority >= rest[0].priority
    ensures Insert(v, higher + rest) == higher + [v] + rest
  {
    if higher == [] {
      assert higher + rest == rest;
    } else {
      assert (higher + rest)[0] == higher[0];
      assert (higher + rest)[1..] == higher[1..] + rest;
      SortStep(v, higher[1..], rest);
      assert higher + [v] + rest == [higher[0]] + (higher[1..] + [v] + rest);
    }
  }

  /** A tag whose regexps are one group of one regexp resolves to that regexp. */
  lemma ResolvesOneRegexp(registration: Registration, parameters: map<string, Value>, pattern: string)
    requires REGEXPS in registration.attributes && registration.attributes[REGEXPS] == List([List([Str(pattern)])])
    ensures ResolveRegexps(registration, parameters) == Ok([pattern])
  {
    FlattenOneGroup(pattern);
  }

  /** Four registrations that all resolve are collected in their order. */
  lemma CollectFour(a: Registration, b: Registration, c: Registration, d: Registration, parameters: map<string, Value>)
    requires ResolveRegexps(a, parameters).Ok? && ResolveRegexps(b, parameters).Ok?
    requires ResolveRegexps(c, parameters).Ok? && ResolveRegexps(d, parameters).Ok?
    ensures Collect([a, b, c, d], parameters)
         == Ok([ ToVisitor(a, ResolveRegexps(a, parameters).value), ToVisitor(b, ResolveRegexps(b, parameters).value),
                 ToVisitor(c, ResolveRegexps(c, parameters).value), ToVisitor(d, ResolveRegexps(d, parameters).value) ])
  {
    var rs := [a, b, c, d];
    assert forall k :: 0 <= k < 4 ==> ResolveRegexps(rs[k], parameters).Ok?;
    var r := Collect(rs, parameters).value;
    assert rs[0] == a && rs[1] == b && rs[2] == c && rs[3] == d;
    assert r == [r[0], r[1], r[2], r[3]];
  }

  const TEST_DEFINED_NORMAL := Registration("ezpublish_rest.output.visitor.test_defined_normal",
                                            map[REGEXPS := List([List([Str("(^application/json$)")])]), "prority" := Int(0)])
  const TEST_LOW := Registration("ezpublish_rest.output.visitor.test_low",
                                 map[REGEXPS := List([List([Str("(^application/.*$)")])]), PRIORITY := Int(-10)])
  const TEST_NORMAL := Registration("ezpublish_rest.output.visitor.test_normal",
                                    map[REGEXPS := List([List([Str("(^application/xml$)")])])])
  const TEST_HIGH := Registration("ezpublish_rest.output.visitor.test_high",
                                  map[REGEXPS := List([List([Str("(^.*/.*$)")])]), PRIORITY := Int(10)])

  /** The four tags of the priority test resolve to one pattern each, with priorities 0, -10, 0 and 10. */
  lemma PriorityScenarioCollected()
    ensures Collect([TEST_DEFINED_NORMAL, TEST_LOW, TEST_NORMAL, TEST_HIGH], map[])
         == Ok([ Visitor(0, ["(^application/json$)"], Reference(TEST_DEFINED_NORMAL.serviceId)),
                 Visitor(-10, ["(^application/.*$)"], Reference(TEST_LOW.serviceId)),
                 Visitor(0, ["(^application/xml$)"], Reference(TEST_NORMAL.serviceId)),
                 Visitor(10, ["(^.*/.*$)"], Reference(TEST_HIGH.serviceId)) ])
  {
    assert PRIORITY != REGEXPS && PRIORITY != "prority";
    ResolvesOneRegexp(TEST_DEFINED_NORMAL, map[], "(^application/json$)");
    ResolvesOneRegexp(TEST_LOW, map[], "(^application/.*$)");
    ResolvesOneRegexp(TEST_NORMAL, map[], "(^application/xml$)");
    ResolvesOneRegexp(TEST_HIGH, map[], "(^.*/.*$)");
    CollectFour(TEST_DEFINED_NORMAL, TEST_LOW, TEST_NORMAL, TEST_HIGH, map[]);
  }

  /** Four visitors of one regexp each give four calls, in their order. */
  lemma CallsOfFour(a: Visitor, b: Visitor, c: Visitor, d: Visitor)
    requires |a.regexps| == 1 && |b.regexps| == 1 && |c.regexps| == 1 && |d.regexps| == 1
    ensures Calls([a, b, c, d])
         == [ MethodCall(ADD_VISITOR, a.regexps[0], a.reference), MethodCall(ADD_VISITOR, b.regexps[0], b.reference),
              MethodCall(ADD_VISITOR, c.regexps[0], c.reference), MethodCall(ADD_VISITOR, d.regexps[0], d.reference) ]
  {
    var vs := [a, b, c, d];
    assert vs[0] == a && vs[1] == b && vs[2] == c && vs[3] == d;
    CallsOfSingleRegexps(vs);
    var calls := Calls(vs);
    assert calls == [calls[0], calls[1], calls[2], calls[3]];
  }

  /**
   * Priority 10 comes before the two default-priority visitors (one with no
   * priority key and one with the misspelled `prority`), which keep their
   * declaration order, and those come before priority -10.
   */
  lemma PriorityScenario()
    ensures Compile([TEST_DEFINED_NORMAL, TEST_LOW, TEST_NORMAL, TEST_HIGH], map[])
         == Ok([ MethodCall(ADD_VISITOR, "(^.*/.*$)", Reference("ezpublish_rest.output.visitor.test_high")),
                 MethodCall(ADD_VISITOR, "(^application/json$)", Reference("ezpublish_rest.output.visitor.test_defined_normal")),
                 MethodCall(ADD_VISITOR, "(^application/xml$)", Reference("ezpublish_rest.output.visitor.test_normal")),
                 MethodCall(ADD_VISITOR, "(^application/.*$)", Reference("ezpublish_rest.output.visitor.test_low")) ])
  {
    var vd := Visitor(0, ["(^application/json$)"], Reference(TEST_DEFINED_NORMAL.serviceId));
    var vl := Visitor(-10, ["(^application/.*$)"], Reference(TEST_LOW.serviceId));
    var vn := Visitor(0, ["(^application/xml$)"], Reference(TEST_NORMAL.serviceId));
    var vh := Visitor(10, ["(^.*/.*$)"], Reference(TEST_HIGH.serviceId));
    PriorityScenarioCollected();
    PriorityOrderScenario(vh, vd, vl, vn);
    CallsOfFour(vh, vd, vn, vl);
  }
}
