/** `evaluate_requirement` as it runs over sequences (evaluation/engine.py:144-345, 443-508). Its result
    is a function of the sets of observations and conflicts, so no order matters. */
module EvidenceResolver {
  import opened Wrappers
  import opened Text
  import opened Sorting
  import opened Normalization
  import opened Evidence

  /** The ids of the observations are distinct. */
  predicate DistinctSeq(observations: seq<Observation>) {
    forall i, j :: 0 <= i < j < |observations| ==> observations[i].id != observations[j].id
  }

  ghost function SetOf<T>(s: seq<T>): set<T> {
    set x | x in s
  }

  lemma {:induction false} PermutationSameSet<T>(a: seq<T>, b: seq<T>)
    requires multiset(a) == multiset(b)
    ensures SetOf(a) == SetOf(b)
  {
    SameMembers(a, b);
  }

  lemma DistinctSet(observations: seq<Observation>)
    requires DistinctSeq(observations)
    ensures DistinctIds(SetOf(observations))
  {}

  /** `tuple(x for x in s if p(x))`. */
  function Filter<T(!new)>(s: seq<T>, p: T -> bool): (r: seq<T>)
    ensures forall x :: x in r <==> x in s && p(x)
  {
    if s == [] then []
    else
      assert s == [s[0]] + s[1..];
      if p(s[0]) then [s[0]] + Filter(s[1..], p) else Filter(s[1..], p)
  }

  lemma {:induction false} FilterDistinct(s: seq<Observation>, p: Observation -> bool)
    requires DistinctSeq(s)
    ensures DistinctSeq(Filter(s, p))
  {
    if s != [] {
      FilterDistinct(s[1..], p);
      var rest := Filter(s[1..], p);
      forall k | 0 <= k < |rest| ensures rest[k].id != s[0].id { assert rest[k] in rest; }
    }
  }

  // ----- Sorted ids -----

  lemma {:induction false} BelowIsStrict()
    ensures StrictOrder(Below)
  {
    forall x ensures !Below(x, x) { BelowIrreflexive(x); }
    forall x, y, z | Below(x, y) && Below(y, z) ensures Below(x, z) { BelowTransitive(x, y, z); }
  }

  /** The ascending sequence of a set of strings. */
  lemma {:induction false} SortedIs(s: set<string>)
    ensures Ascending(Below, Sorted(s)) && forall x :: x in Sorted(s) <==> x in s
  {
    BelowIsStrict();
    if s != {} {
      assert exists a :: IsLeast(a, s) by { var a := LeastExists(s); }
      var a :| IsLeast(a, s) && Sorted(s) == [a] + Sorted(s - {a});
      SortedIs(s - {a});
      var rest := Sorted(s - {a});
      forall k | 0 <= k < |rest| ensures Below(a, rest[k]) { assert rest[k] in rest; }
    }
  }

  function Ids(s: seq<Observation>): (ids: seq<Uuid>)
    ensures |ids| == |s| && forall k :: 0 <= k < |s| ==> ids[k] == s[k].id
  {
    seq(|s|, k requires 0 <= k < |s| => s[k].id)
  }

  lemma {:induction false} SortedIds(s: seq<Observation>)
    requires DistinctSeq(s)
    ensures Sort(Below, Ids(s)) == Sorted(IdsOf(SetOf(s)))
  {
    var ids := Ids(s);
    BelowIsStrict();
    forall i, j | 0 <= i < j < |ids|
      ensures Below(ids[i], ids[j]) || Below(ids[j], ids[i])
    {
      BelowTotal(ids[i], ids[j]);
    }
    SortAscending(Below, ids);
    SameMembers(Sort(Below, ids), ids);
    SortedIs(IdsOf(SetOf(s)));
    forall x ensures x in ids <==> x in IdsOf(SetOf(s)) {
      if x in ids { var k :| 0 <= k < |ids| && ids[k] == x; assert s[k] in SetOf(s); }
      if x in IdsOf(SetOf(s)) {
        var o :| o in SetOf(s) && o.id == x;
        var k :| 0 <= k < |s| && s[k] == o;
        assert ids[k] == x;
      }
    }
    AscendingUnique(Below, Sort(Below, ids), Sorted(IdsOf(SetOf(s))));
  }

  // ----- Conflicts: lines 156-176 -----

  /** The loop over the conflicts, which may return early. */
  method ResolveConflicts(ids: set<Uuid>, conflicts: seq<Conflict>, key: string) returns (related: Related)
    ensures related == RelatedResolution(ids, SetOf(conflicts), key)
  {
    ghost var all := SetOf(conflicts);
    var resolvedIds: set<Uuid> := {};
    for k := 0 to |conflicts|
      invariant forall j :: 0 <= j < k && IsRelated(conflicts[j], ids, key) ==>
            !IsOpen(conflicts[j]) && conflicts[j].resolvedBy.value in resolvedIds
      invariant forall id :: id in resolvedIds ==>
            exists j :: 0 <= j < k && IsRelated(conflicts[j], ids, key) && conflicts[j].resolvedBy == Some(id)
    {
      var conflict := conflicts[k];
      if conflict.requirementKey == key && ids * conflict.observationIds != {} {
        assert IsRelated(conflict, ids, key) && conflict in all;
        if conflict.resolvedBy.None? { assert IsOpen(conflict); return Unresolved; }
        if conflict.resolvedBy.value !in conflict.observationIds { assert IsOpen(conflict); return Unresolved; }
        resolvedIds := resolvedIds + {conflict.resolvedBy.value};
      }
    }
    ResolversAre(ids, conflicts, key, resolvedIds);
    if |resolvedIds| > 1 { return Unresolved; }
    if resolvedIds == {} { return NoConflict; }
    var id :| id in resolvedIds;
    OneMember(resolvedIds, id);
    related := ResolvedTo(id);
  }

  lemma {:induction false} ResolversAre(ids: set<Uuid>, conflicts: seq<Conflict>, key: string, resolvedIds: set<Uuid>)
    requires forall j :: 0 <= j < |conflicts| && IsRelated(conflicts[j], ids, key) ==>
          !IsOpen(conflicts[j]) && conflicts[j].resolvedBy.value in resolvedIds
    requires forall id :: id in resolvedIds ==>
          exists j :: 0 <= j < |conflicts| && IsRelated(conflicts[j], ids, key) && conflicts[j].resolvedBy == Some(id)
    ensures resolvedIds == Resolvers(ids, SetOf(conflicts), key)
    ensures forall c :: c in SetOf(conflicts) && IsRelated(c, ids, key) ==> !IsOpen(c)
  {
    forall id | id in resolvedIds ensures id in Resolvers(ids, SetOf(conflicts), key) {
      var j :| 0 <= j < |conflicts| && IsRelated(conflicts[j], ids, key) && conflicts[j].resolvedBy == Some(id);
      assert conflicts[j] in SetOf(conflicts);
    }
  }

  lemma OneMember<T>(s: set<T>, x: T)
    requires x in s && |s| <= 1
    ensures s == {x}
  {
    assert |s - {x}| == |s| - 1;
  }

  // ----- Selection: lines 144-153 -----

  method SelectObservation(observations: seq<Observation>) returns (best: Observation)
    requires observations != [] && DistinctSeq(observations)
    ensures IsBest(best, SetOf(observations))
  {
    best := observations[0];
    for k := 1 to |observations|
      invariant best in observations[..k]
      invariant forall j :: 0 <= j < k && observations[j] != best ==> Worse(observations[j], best)
    {
      if Worse(best, observations[k]) {
        forall j | 0 <= j < k + 1 && observations[j] != observations[k]
          ensures Worse(observations[j], observations[k])
        {
          if observations[j] != best { WorseTransitive(observations[j], best, observations[k]); }
        }
        best := observations[k];
      } else {
        WorseTotal(best, observations[k]);
      }
    }
  }

  // ----- Normalization: lines 283-332 -----

  datatype Normalized = Normalized(observation: Observation, value: Scalar, unit: Option<string>)

  /** The loop that collects normalized values and errors. */
  method NormalizeAll(engine: Engine, c: Criterion, usable: seq<Observation>)
      returns (normalized: seq<Normalized>, errors: set<NormalizationError>)
    requires EngineOk(engine) && DistinctSeq(usable)
    ensures forall n ::
               n in normalized
               <==> n.observation in usable && NormalizeValue(engine, c, n.observation) == Ok((n.value, n.unit))
    ensures errors == ErrorsOf(engine, c, SetOf(usable))
    ensures forall i, j :: 0 <= i < j < |normalized| ==> normalized[i].observation.id != normalized[j].observation.id
  {
    hide NormalizeValue;
    normalized, errors := [], {};
    for k := 0 to |usable|
      invariant forall n ::
                 n in normalized
                 <==> n.observation in usable[..k] && NormalizeValue(engine, c, n.observation) == Ok((n.value, n.unit))
      invariant errors == ErrorsOf(engine, c, SetOf(usable[..k]))
      invariant forall i, j :: 0 <= i < j < |normalized| ==>
            normalized[i].observation.id != normalized[j].observation.id
    {
      assert usable[..k + 1] == usable[..k] + [usable[k]];
      assert SetOf(usable[..k + 1]) == SetOf(usable[..k]) + {usable[k]};
      forall i | 0 <= i < |normalized| ensures normalized[i].observation.id != usable[k].id {
        assert normalized[i] in normalized;
      }
      match NormalizeValue(engine, c, usable[k])
      case Ok((value, unit)) => normalized := normalized + [Normalized(usable[k], value, unit)];
      case Err(error) => errors := errors + {error};
    }
    assert usable[..|usable|] == usable;
  }

  function Observations(normalized: seq<Normalized>): (observations: seq<Observation>)
    ensures |observations| == |normalized| && forall k :: 0 <= k < |normalized| ==>
          observations[k] == normalized[k].observation
  {
    seq(|normalized|, k requires 0 <= k < |normalized| => normalized[k].observation)
  }

  lemma {:induction false} NormalizedSet(engine: Engine, c: Criterion, usable: seq<Observation>,
                                         normalized: seq<Normalized>)
    requires EngineOk(engine)
    requires forall n ::
               n in normalized
               <==> n.observation in usable && NormalizeValue(engine, c, n.observation) == Ok((n.value, n.unit))
    ensures SetOf(Observations(normalized)) == NormalizableOf(engine, c, SetOf(usable))
  {
    hide NormalizeValue;
    forall o ensures o in SetOf(Observations(normalized)) <==> o in NormalizableOf(engine, c, SetOf(usable)) {
      if o in SetOf(Observations(normalized)) {
        var k :| 0 <= k < |normalized| && normalized[k].observation == o;
        assert normalized[k] in normalized;
      }
      if o in NormalizableOf(engine, c, SetOf(usable)) {
        var n := Normalized(o, NormalizeValue(engine, c, o).value.0, NormalizeValue(engine, c, o).value.1);
        assert n in normalized;
        var k :| 0 <= k < |normalized| && normalized[k] == n;
        assert Observations(normalized)[k] == o;
      }
    }
  }

  /** All normalized values share one key. */
  predicate OneKey(folding: Folding, normalized: seq<Normalized>) {
    forall i, j :: 0 <= i < j < |normalized| ==>
          KeyOf(folding, normalized[i].value) == KeyOf(folding, normalized[j].value)
  }

  lemma {:induction false} OneKeyAgrees(engine: Engine, c: Criterion, usable: seq<Observation>,
                                        normalized: seq<Normalized>)
    requires EngineOk(engine)
    requires forall n ::
               n in normalized
               <==> n.observation in usable && NormalizeValue(engine, c, n.observation) == Ok((n.value, n.unit))
    ensures OneKey(engine.units.folding, normalized) <==> Agrees(engine, c, NormalizableOf(engine, c, SetOf(usable)))
  {
    hide NormalizeValue, KeyOf;
    var n := NormalizableOf(engine, c, SetOf(usable));
    if OneKey(engine.units.folding, normalized) {
      forall a, b | a in n && b in n
        ensures KeyOf(engine.units.folding, NormalizeValue(engine, c, a).value.0)
             == KeyOf(engine.units.folding, NormalizeValue(engine, c, b).value.0)
      {
        var x := Normalized(a, NormalizeValue(engine, c, a).value.0, NormalizeValue(engine, c, a).value.1);
        var y := Normalized(b, NormalizeValue(engine, c, b).value.0, NormalizeValue(engine, c, b).value.1);
        assert x in normalized && y in normalized;
        var i :| 0 <= i < |normalized| && normalized[i] == x;
        var j :| 0 <= j < |normalized| && normalized[j] == y;
      }
    }
    if Agrees(engine, c, n) {
      forall i, j | 0 <= i < j < |normalized|
        ensures KeyOf(engine.units.folding, normalized[i].value) == KeyOf(engine.units.folding, normalized[j].value)
      {
        assert normalized[i] in normalized && normalized[j] in normalized;
        assert normalized[i].observation in n && normalized[j].observation in n;
      }
    }
  }

  method ResolveUsable(engine: Engine, c: Criterion, usable: seq<Observation>, ids: seq<Uuid>)
      returns (resolved: Resolution)
    requires EngineOk(engine) && DistinctSeq(usable)
    ensures DistinctIds(SetOf(usable)) && resolved == ResolveNormalized(engine, c, SetOf(usable), ids)
  {
    hide NormalizeValue, KeyOf, Worse;
    DistinctSet(usable);
    var normalized, errors := NormalizeAll(engine, c, usable);
    NormalizedSet(engine, c, usable, normalized);
    OneKeyAgrees(engine, c, usable, normalized);
    if normalized == [] {
      assert NormalizableOf(engine, c, SetOf(usable)) == {};
      return Refused(Invalid, ids, NotNormalizable(errors));
    }
    assert normalized[0] in normalized && normalized[0].observation in NormalizableOf(engine, c, SetOf(usable));
    if !OneKey(engine.units.folding, normalized) { return Refused(Conflicting, ids, Disagreement); }
    var selected := SelectObservation(Observations(normalized));
    var k := 0;
    while normalized[k].observation.id != selected.id
      invariant k < |normalized|
      invariant exists j :: k <= j < |normalized| && normalized[j].observation == selected
      decreases |normalized| - k
    {
      k := k + 1;
    }
    SelectedIs(engine, c, usable, normalized, selected, k, ids);
    resolved := Resolution(Satisfied, normalized[k].value, normalized[k].unit, ids, Some(selected.id),
                           ResolvedEvidence);
  }

  lemma {:induction false} SelectedIs(engine: Engine, c: Criterion, usable: seq<Observation>,
                                      normalized: seq<Normalized>, selected: Observation, k: nat, ids: seq<Uuid>)
    requires EngineOk(engine) && DistinctIds(SetOf(usable)) && k < |normalized|
    requires normalized[k].observation.id == selected.id
    requires forall n ::
               n in normalized
               <==> n.observation in usable && NormalizeValue(engine, c, n.observation) == Ok((n.value, n.unit))
    requires IsBest(selected, NormalizableOf(engine, c, SetOf(usable)))
    requires Agrees(engine, c, NormalizableOf(engine, c, SetOf(usable)))
    ensures ResolveNormalized(engine, c, SetOf(usable), ids)
         == Resolution(Satisfied, normalized[k].value, normalized[k].unit, ids, Some(selected.id), ResolvedEvidence)
  {
    hide NormalizeValue, KeyOf, Worse;
    assert normalized[k] in normalized;
    assert normalized[k].observation == selected;
    var resolved := ResolveNormalized(engine, c, SetOf(usable), ids);
    var best :| IsBest(best, NormalizableOf(engine, c, SetOf(usable))) && resolved.selected == Some(best.id)
                && NormalizeValue(engine, c, best) == Ok((resolved.value, resolved.unit));
    BestUnique(best, selected, NormalizableOf(engine, c, SetOf(usable)));
  }

  method ResolveConsideredSeq(engine: Engine, c: Criterion, considered: seq<Observation>, ids: seq<Uuid>)
      returns (resolved: Resolution)
    requires EngineOk(engine) && DistinctSeq(considered)
    ensures DistinctIds(SetOf(considered)) && resolved == ResolveConsidered(engine, c, SetOf(considered), ids)
  {
    hide NormalizeValue, ResolveNormalized;
    DistinctSet(considered);
    var current := Filter(considered, o => IsFresh(engine, o));
    FilterDistinct(considered, o => IsFresh(engine, o));
    var usable := Filter(current, o => IsUsable(o));
    FilterDistinct(current, o => IsUsable(o));
    assert SetOf(usable) == UsableOf(engine, SetOf(considered));
    if usable == [] {
      assert UsableOf(engine, SetOf(considered)) == {};
      if current != considered {
        FilteredOut(considered, o => IsFresh(engine, o));
        return Refused(Stale, ids, AllStale);
      }
      return Refused(Unknown, ids, ExplicitlyUnknown);
    }
    assert usable[0] in UsableOf(engine, SetOf(considered));
    resolved := ResolveUsable(engine, c, usable, ids);
  }

  lemma {:induction false} FilteredOut(s: seq<Observation>, p: Observation -> bool)
    ensures Filter(s, p) != s ==> exists x :: x in SetOf(s) && !p(x)
  {
    if s != [] && p(s[0]) {
      FilteredOut(s[1..], p);
      assert s == [s[0]] + s[1..];
    } else if s != [] {
      assert s[0] in SetOf(s);
    }
  }

  /** The steps after the acceptable observations are known: lines 222-270. */
  method ResolveAcceptableSeq(engine: Engine, r: Requirement, acceptable: seq<Observation>, conflicts: seq<Conflict>,
                              ids: seq<Uuid>)
      returns (resolved: Resolution)
    requires EngineOk(engine) && DistinctSeq(acceptable)
    ensures DistinctIds(SetOf(acceptable))
    ensures resolved == ResolveAcceptable(engine, r, SetOf(acceptable), SetOf(conflicts), ids)
  {
    hide ResolveConsidered, RelatedResolution;
    DistinctSet(acceptable);
    var acceptableIds := set o | o in acceptable :: o.id;
    assert acceptableIds == IdsOf(SetOf(acceptable));
    var related := ResolveConflicts(acceptableIds, conflicts, r.key);
    if related.Unresolved? { return Refused(Conflicting, ids, UnresolvedConflict); }
    if related.ResolvedTo? {
      var isResolving := (o: Observation) => o.id == related.id;
      var one := Filter(acceptable, isResolving);
      FilterDistinct(acceptable, isResolving);
      assert SetOf(one) == set o | o in SetOf(acceptable) && o.id == related.id;
      if one == [] { return Refused(Invalid, ids, ResolutionUnavailable); }
      assert one[0] in one;
      resolved := ResolveConsideredSeq(engine, r.criterion, one, ids);
      return;
    }
    if exists k :: 0 <= k < |acceptable| && acceptable[k].classification == Contradictory {
      assert exists o :: o in SetOf(acceptable) && o.classification == Contradictory;
      return Refused(Conflicting, ids, MarkedConflicting);
    }
    resolved := ResolveConsideredSeq(engine, r.criterion, acceptable, ids);
  }

  method ResolveEvidence(engine: Engine, candidate: Candidate, r: Requirement, observations: seq<Observation>,
                         conflicts: seq<Conflict>)
      returns (resolved: Resolution)
    requires EngineOk(engine) && DistinctSeq(observations)
    ensures DistinctIds(SetOf(observations))
    ensures resolved == Resolve(engine, candidate, r, SetOf(observations), SetOf(conflicts))
  {
    hide ResolveAcceptable, IsAcceptable, Sort;
    DistinctSet(observations);
    var isRelevant := (o: Observation) =>
      o.revisionId == candidate.revisionId && o.candidateId == Some(candidate.id) && o.requirementKey == r.key;
    var relevant := Filter(observations, isRelevant);
    FilterDistinct(observations, isRelevant);
    assert SetOf(relevant) == Relevant(candidate, r, SetOf(observations));
    var ids := Sort(Below, Ids(relevant));
    SortedIds(relevant);
    if relevant == [] { return Refused(Unknown, [], NoEvidence); }
    assert relevant[0] in SetOf(relevant);
    var acceptable := relevant;
    if r.acceptableEvidence != [] {
      var isAcceptable := (o: Observation) => IsAcceptable(engine.units.folding, r, o);
      acceptable := Filter(relevant, isAcceptable);
      FilterDistinct(relevant, isAcceptable);
    }
    assert SetOf(acceptable) == Acceptable(engine.units.folding, r, SetOf(relevant));
    if acceptable == [] { return Refused(Invalid, ids, NotAcceptable); }
    assert acceptable[0] in SetOf(acceptable);
    resolved := ResolveAcceptableSeq(engine, r, acceptable, conflicts, ids);
  }

  /** The verdict is a function of the sets of observations and conflicts: with distinct observation
      ids, no permutation of either changes it. */
  method EvaluateRequirement(engine: Engine, candidate: Candidate, r: Requirement, observations: seq<Observation>,
                             conflicts: seq<Conflict>)
      returns (e: Evaluation)
    requires EngineOk(engine) && DistinctSeq(observations)
    ensures DistinctIds(SetOf(observations))
    ensures e == Evaluate(engine, candidate, r, SetOf(observations), SetOf(conflicts))
  {
    hide Resolve, CriterionSatisfied;
    var resolved := ResolveEvidence(engine, candidate, r, observations, conflicts);
    e := Judge(engine.units.folding, r, resolved);
  }

  /** Permuting observations and conflicts leaves the evaluation as it is. */
  lemma {:induction false} OrderIsIrrelevant(engine: Engine, candidate: Candidate, r: Requirement,
                                             observations: seq<Observation>, observations': seq<Observation>,
                                             conflicts: seq<Conflict>, conflicts': seq<Conflict>)
    requires EngineOk(engine) && DistinctSeq(observations)
    requires multiset(observations) == multiset(observations') && multiset(conflicts) == multiset(conflicts')
    ensures DistinctIds(SetOf(observations)) && DistinctIds(SetOf(observations'))
    ensures Evaluate(engine, candidate, r, SetOf(observations'), SetOf(conflicts'))
         == Evaluate(engine, candidate, r, SetOf(observations), SetOf(conflicts))
  {
    DistinctSet(observations);
    PermutationSameSet(observations, observations');
    PermutationSameSet(conflicts, conflicts');
  }
}
