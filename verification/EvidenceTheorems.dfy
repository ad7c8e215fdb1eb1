/** What a requirement's verdict depends on, and what it does not (evaluation/engine.py:158-345, 443-508). */
module EvidenceTheorems {
  import opened Wrappers
  import opened Text
  import opened Normalization
  import opened Evidence

  // ----- A verdict means agreement -----

  /** The observations that count: those of the one resolving observation, or all acceptable ones. */
  ghost function Considered(r: Requirement, acceptable: set<Observation>, conflicts: set<Conflict>): set<Observation> {
    match RelatedResolution(IdsOf(acceptable), conflicts, r.key)
    case ResolvedTo(id) => set o | o in acceptable && o.id == id
    case _ => acceptable
  }

  /** `o` is fresh, usable evidence that can be normalized. */
  ghost predicate Counts(engine: Engine, c: Criterion, o: Observation)
    requires EngineOk(engine)
  {
    IsFresh(engine, o) && IsUsable(o) && NormalizeValue(engine, c, o).Ok?
  }

  ghost predicate Decides(engine: Engine, c: Criterion, considered: set<Observation>, o: Observation, value: Scalar,
                          unit: Option<string>)
    requires EngineOk(engine)
  {
    && o in considered && Counts(engine, c, o) && NormalizeValue(engine, c, o) == Ok((value, unit))
    && (forall x :: x in considered && Counts(engine, c, x) ==>
          KeyOf(engine.units.folding, NormalizeValue(engine, c, x).value.0) == KeyOf(engine.units.folding, value))
    && (forall x :: x in considered && Counts(engine, c, x) && x != o ==> Worse(x, o))
  }

  lemma {:induction false} ConsideredDecides(engine: Engine, c: Criterion, considered: set<Observation>,
                                             ids: seq<Uuid>) returns (o: Observation)
    requires EngineOk(engine) && DistinctIds(considered)
    requires ResolveConsidered(engine, c, considered, ids).status == Satisfied
    ensures var resolved := ResolveConsidered(engine, c, considered, ids);
            resolved.selected == Some(o.id) && Decides(engine, c, considered, o, resolved.value, resolved.unit)
  {
    hide NormalizeValue, KeyOf, Worse;
    var normalizable := NormalizableOf(engine, c, UsableOf(engine, considered));
    var resolved := ResolveConsidered(engine, c, considered, ids);
    assert exists best :: IsBest(best, normalizable) && resolved.selected == Some(best.id)
                          && NormalizeValue(engine, c, best) == Ok((resolved.value, resolved.unit));
    o :| IsBest(o, normalizable) && resolved.selected == Some(o.id)
         && NormalizeValue(engine, c, o) == Ok((resolved.value, resolved.unit));
    assert Agrees(engine, c, normalizable);
    forall x | x in considered && Counts(engine, c, x) ensures x in normalizable {}
  }

  /** Resolving never judges. */
  lemma ResolutionStatus(engine: Engine, r: Requirement, acceptable: set<Observation>, conflicts: set<Conflict>,
                         ids: seq<Uuid>)
    requires EngineOk(engine) && DistinctIds(acceptable)
    ensures ResolveAcceptable(engine, r, acceptable, conflicts, ids).status != NotSatisfied
    ensures ResolveAcceptable(engine, r, acceptable, conflicts, ids).reason.NotNormalizable? ==>
              ResolveAcceptable(engine, r, acceptable, conflicts, ids).status == Invalid
  {
    hide NormalizeValue, RelatedResolution;
  }

  lemma ConsideredSubset(r: Requirement, acceptable: set<Observation>, conflicts: set<Conflict>)
    ensures Considered(r, acceptable, conflicts) <= acceptable
  {}

  lemma {:induction false} SatisfiedIsConsidered(engine: Engine, r: Requirement, acceptable: set<Observation>,
                                                 conflicts: set<Conflict>, ids: seq<Uuid>)
    requires EngineOk(engine) && DistinctIds(acceptable)
    requires ResolveAcceptable(engine, r, acceptable, conflicts, ids).status == Satisfied
    ensures ResolveAcceptable(engine, r, acceptable, conflicts, ids)
         == ResolveConsidered(engine, r.criterion, Considered(r, acceptable, conflicts), ids)
  {
    hide ResolveConsidered, RelatedResolution;
  }

  /** A verdict, satisfied or not, means that all fresh, acceptable evidence that could be normalized has
      the value that was judged; that value is the one of the best observation; and the verdict is what
      the criterion says of it. */
  lemma {:induction false} VerdictMeansAgreement(engine: Engine, candidate: Candidate, r: Requirement,
                                                 s: set<Observation>, conflicts: set<Conflict>)
      returns (o: Observation)
    requires EngineOk(engine) && DistinctIds(s)
    requires Evaluate(engine, candidate, r, s, conflicts).status in {Satisfied, NotSatisfied}
    ensures var e := Evaluate(engine, candidate, r, s, conflicts);
            var acceptable := Acceptable(engine.units.folding, r, Relevant(candidate, r, s));
            && Decides(engine, r.criterion, Considered(r, acceptable, conflicts), o, e.value, e.unit)
            && e.selected == Some(o.id)
            && CriterionSatisfied(engine.units.folding, r.criterion, e.value) == Ok(e.status == Satisfied)
  {
    hide ResolveAcceptable, ResolveConsidered, Decides, Considered, CriterionSatisfied, IsAcceptable;
    var acceptable := Acceptable(engine.units.folding, r, Relevant(candidate, r, s));
    var ids := Sorted(IdsOf(Relevant(candidate, r, s)));
    var resolved := Resolve(engine, candidate, r, s, conflicts);
    ResolutionStatus(engine, r, acceptable, conflicts, ids);
    assert resolved.status == Satisfied;
    assert Relevant(candidate, r, s) != {} && acceptable != {};
    assert resolved == ResolveAcceptable(engine, r, acceptable, conflicts, ids);
    SatisfiedIsConsidered(engine, r, acceptable, conflicts, ids);
    assert DistinctIds(Considered(r, acceptable, conflicts)) by { ConsideredSubset(r, acceptable, conflicts); }
    o := ConsideredDecides(engine, r.criterion, Considered(r, acceptable, conflicts), ids);
  }

  // ----- Other evidence is irrelevant -----

  /** Observations of other candidates, revisions or requirements change nothing. */
  lemma {:induction false} OtherEvidenceIrrelevant(engine: Engine, candidate: Candidate, r: Requirement,
                                                   s: set<Observation>, other: set<Observation>,
                                                   conflicts: set<Conflict>)
    requires EngineOk(engine) && DistinctIds(s + other) && Relevant(candidate, r, other) == {}
    ensures Evaluate(engine, candidate, r, s + other, conflicts) == Evaluate(engine, candidate, r, s, conflicts)
  {
    assert Relevant(candidate, r, s + other) == Relevant(candidate, r, s) + Relevant(candidate, r, other);
    hide ResolveAcceptable, Relevant, Judge;
  }

  // ----- Units are irrelevant -----

  /** The same measurement in another convertible unit. */
  ghost predicate Reexpresses(engine: Engine, o: Observation, o': Observation)
    requires EngineOk(engine)
  {
    && o' == o.(value := o'.value, unit := o'.unit) && o.unit.Some? && o'.unit.Some?
    && AsDecimal(o.value).Ok? && AsDecimal(o'.value).Ok?
    && ConvertUnit(engine.units, AsDecimal(o.value).value, o.unit.value, o'.unit.value) == Ok(AsDecimal(o'.value).value)
  }

  /** One observation replaced by another. */
  ghost function Swap(s: set<Observation>, o: Observation, o': Observation): set<Observation> {
    if o in s then s - {o} + {o'} else s
  }

  lemma {:induction false} SwapNormalizes(engine: Engine, c: Criterion, o: Observation, o': Observation)
    requires EngineOk(engine) && c.kind == NumberType && Reexpresses(engine, o, o')
    ensures NormalizeValue(engine, c, o').Ok? <==> NormalizeValue(engine, c, o).Ok?
    ensures NormalizeValue(engine, c, o).Ok? ==> NormalizeValue(engine, c, o') == NormalizeValue(engine, c, o)
  {
    if c.unit.Some? { ConvertUnitThrough(engine.units, AsDecimal(o.value).value, o.unit.value, o'.unit.value,
                                         c.unit.value); }
    hide ConvertUnit;
  }

  ghost predicate SameIdentity(o: Observation, o': Observation) {
    o' == o.(value := o'.value, unit := o'.unit)
  }

  lemma {:induction false} SwapIds(s: set<Observation>, o: Observation, o': Observation)
    requires SameIdentity(o, o') && DistinctIds(s)
    ensures IdsOf(Swap(s, o, o')) == IdsOf(s) && DistinctIds(Swap(s, o, o'))
  {
    var s' := Swap(s, o, o');
    forall id ensures id in IdsOf(s') <==> id in IdsOf(s) {
      if id in IdsOf(s) {
        var x :| x in s && x.id == id;
        assert (if x == o then o' else x) in s';
      }
      if id in IdsOf(s') {
        var x :| x in s' && x.id == id;
        assert (if x == o' && o in s then o else x) in s;
      }
    }
  }

  /** The replaced observation is not there in another form. */
  predicate Absent(s: set<Observation>, o: Observation, o': Observation) {
    o in s ==> o' == o || o' !in s
  }

  lemma {:induction false} SwapRelevant(candidate: Candidate, r: Requirement, s: set<Observation>, o: Observation,
                                        o': Observation)
    requires SameIdentity(o, o') && Absent(s, o, o') && (o' in s ==> o in s)
    ensures Relevant(candidate, r, Swap(s, o, o')) == Swap(Relevant(candidate, r, s), o, o')
  {}

  lemma {:induction false} SwapAcceptable(folding: Folding, r: Requirement, s: set<Observation>, o: Observation,
                                          o': Observation)
    requires SameIdentity(o, o') && Absent(s, o, o') && (o' in s ==> o in s)
    ensures Acceptable(folding, r, Swap(s, o, o')) == Swap(Acceptable(folding, r, s), o, o')
  {
    assert IsAcceptable(folding, r, o') <==> IsAcceptable(folding, r, o);
    hide IsAcceptable;
  }

  lemma {:induction false} SwapUsable(engine: Engine, s: set<Observation>, o: Observation, o': Observation)
    requires SameIdentity(o, o') && Absent(s, o, o') && (o' in s ==> o in s)
    ensures UsableOf(engine, Swap(s, o, o')) == Swap(UsableOf(engine, s), o, o')
    ensures (exists x :: x in Swap(s, o, o') && !IsFresh(engine, x)) <==> exists x :: x in s && !IsFresh(engine, x)
  {
    var s' := Swap(s, o, o');
    if exists x :: x in s && !IsFresh(engine, x) {
      var x :| x in s && !IsFresh(engine, x);
      assert (if x == o then o' else x) in s';
    }
    if exists x :: x in s' && !IsFresh(engine, x) {
      var x :| x in s' && !IsFresh(engine, x);
      assert (if x == o' && o in s then o else x) in s;
    }
  }

  lemma {:induction false} SwapNormalizable(engine: Engine, c: Criterion, s: set<Observation>, o: Observation,
                                            o': Observation)
    requires EngineOk(engine) && c.kind == NumberType && Reexpresses(engine, o, o') && Absent(s, o, o')
    requires (o' in s ==> o in s)
    ensures NormalizableOf(engine, c, Swap(s, o, o')) == Swap(NormalizableOf(engine, c, s), o, o')
  {
    SwapNormalizes(engine, c, o, o');
    hide NormalizeValue;
  }

  lemma {:induction false} SwapAgrees(engine: Engine, c: Criterion, s: set<Observation>, o: Observation,
                                      o': Observation)
    requires EngineOk(engine) && c.kind == NumberType && Reexpresses(engine, o, o')
    requires forall x :: x in s ==> NormalizeValue(engine, c, x).Ok?
    ensures forall x :: x in Swap(s, o, o') ==> NormalizeValue(engine, c, x).Ok?
    ensures Agrees(engine, c, Swap(s, o, o')) <==> Agrees(engine, c, s)
  {
    SwapNormalizes(engine, c, o, o');
    hide NormalizeValue, KeyOf;
    var s' := Swap(s, o, o');
    if Agrees(engine, c, s) {
      forall a, b | a in s' && b in s'
        ensures KeyOf(engine.units.folding, NormalizeValue(engine, c, a).value.0)
             == KeyOf(engine.units.folding, NormalizeValue(engine, c, b).value.0)
      {
        var x, y := if a == o' && o in s then o else a, if b == o' && o in s then o else b;
        assert x in s && y in s;
      }
    }
    if Agrees(engine, c, s') {
      forall a, b | a in s && b in s
        ensures KeyOf(engine.units.folding, NormalizeValue(engine, c, a).value.0)
             == KeyOf(engine.units.folding, NormalizeValue(engine, c, b).value.0)
      {
        var x, y := if a == o then o' else a, if b == o then o' else b;
        assert x in s' && y in s';
      }
    }
  }

  lemma {:induction false} SwapBest(s: set<Observation>, o: Observation, o': Observation, best: Observation)
    requires SameIdentity(o, o') && Absent(s, o, o') && IsBest(best, s)
    ensures IsBest(if best == o then o' else best, Swap(s, o, o'))
  {
    var s' := Swap(s, o, o');
    var best' := if best == o then o' else best;
    forall x | x in s' && x != best' ensures Worse(x, best') {
      var y := if x == o' && o in s then o else x;
      assert y in s && Worse(y, best);
    }
  }

  // ----- Conversion errors name the unit -----

  /** Another numeric observation is expressed in that unit. */
  ghost predicate NamedByOther(s: set<Observation>, o: Observation, unit: Option<string>) {
    exists x :: x in s && x != o && x.unit == unit && AsDecimal(x.value).Ok?
  }

  /** None of the usable observations can be converted to the unit of the criterion, and the units of `o`
      and `o'` are not both named by the errors of the others anyway. */
  ghost predicate ShowsUnit(engine: Engine, c: Criterion, usable: set<Observation>, o: Observation, o': Observation)
    requires EngineOk(engine)
  {
    && o in usable && (forall x :: x in usable ==> NormalizeValue(engine, c, x).Err?)
    && c.unit.Some? && CanonicalUnit(engine.units, c.unit.value).Ok?
    && o.unit != o'.unit && !(NamedByOther(usable, o, o.unit) && NamedByOther(usable, o, o'.unit))
  }

  /** When the criterion has a unit, an error is the same only for a number in the same unit. */
  lemma {:induction false} SameErrorSameUnit(engine: Engine, c: Criterion, o: Observation, x: Observation)
    requires EngineOk(engine) && c.kind == NumberType && c.unit.Some? && CanonicalUnit(engine.units, c.unit.value).Ok?
    requires o.unit.Some? && AsDecimal(o.value).Ok? && CanonicalUnit(engine.units, o.unit.value).Ok?
    requires NormalizeValue(engine, c, o).Err? && NormalizeValue(engine, c, x).Err?
    ensures NormalizeValue(engine, c, x).error == NormalizeValue(engine, c, o).error
       <==> x.unit == o.unit && AsDecimal(x.value).Ok?
  {}

  lemma {:induction false} ReexpressedError(engine: Engine, c: Criterion, o: Observation, o': Observation)
    requires EngineOk(engine) && c.kind == NumberType && Reexpresses(engine, o, o') && NormalizeValue(engine, c, o).Err?
    ensures NormalizeValue(engine, c, o').Err?
    ensures NormalizeValue(engine, c, o').error == NormalizeValue(engine, c, o).error
       <==> c.unit.None? || CanonicalUnit(engine.units, c.unit.value).Err? || o.unit == o'.unit
  {
    SwapNormalizes(engine, c, o, o');
    if c.unit.Some? && CanonicalUnit(engine.units, c.unit.value).Ok? {
      SameErrorSameUnit(engine, c, o, o');
    }
    hide CanonicalUnit;
  }

  /** An observation's error is listed for another one as well. */
  lemma {:induction false} ListedForOther(engine: Engine, c: Criterion, s: set<Observation>, o: Observation,
                                          x: Observation)
    requires EngineOk(engine) && c.kind == NumberType && c.unit.Some? && CanonicalUnit(engine.units, c.unit.value).Ok?
    requires x.unit.Some? && AsDecimal(x.value).Ok? && CanonicalUnit(engine.units, x.unit.value).Ok?
    requires NormalizeValue(engine, c, x).Err? && forall y :: y in s ==> NormalizeValue(engine, c, y).Err?
    ensures NormalizeValue(engine, c, x).error in ErrorsOf(engine, c, s - {o}) <==> NamedByOther(s, o, x.unit)
  {
    forall y | y in s - {o}
      ensures NormalizeValue(engine, c, y).error == NormalizeValue(engine, c, x).error
         <==> y.unit == x.unit && AsDecimal(y.value).Ok?
    {
      SameErrorSameUnit(engine, c, x, y);
    }
    hide NormalizeValue, CanonicalUnit;
  }

  lemma {:induction false} SwapErrors(engine: Engine, c: Criterion, s: set<Observation>, o: Observation,
                                      o': Observation)
    requires EngineOk(engine) && c.kind == NumberType && Reexpresses(engine, o, o') && Absent(s, o, o')
    requires (o' in s ==> o in s)
    requires forall x :: x in s ==> NormalizeValue(engine, c, x).Err?
    ensures ErrorsOf(engine, c, Swap(s, o, o')) == ErrorsOf(engine, c, s) <==> !ShowsUnit(engine, c, s, o, o')
  {
    hide NormalizeValue, CanonicalUnit, NamedByOther, ConvertUnit;
    if o in s {
      ReexpressedError(engine, c, o, o');
      var rest := ErrorsOf(engine, c, s - {o});
      var e, e' := NormalizeValue(engine, c, o).error, NormalizeValue(engine, c, o').error;
      assert ErrorsOf(engine, c, s) == rest + {e};
      assert ErrorsOf(engine, c, Swap(s, o, o')) == rest + {e'};
      if e != e' {
        assert rest + {e} == rest + {e'} <==> e in rest && e' in rest by { SameWithEither(rest, e, e'); }
        UnitsNamed(engine, o, o');
        ListedForOther(engine, c, s, o, o);
        ListedForOther(engine, c, s, o, o');
      }
    }
  }

  lemma {:induction false} UnitsNamed(engine: Engine, o: Observation, o': Observation)
    requires EngineOk(engine) && Reexpresses(engine, o, o')
    ensures CanonicalUnit(engine.units, o.unit.value).Ok? && CanonicalUnit(engine.units, o'.unit.value).Ok?
  {}

  lemma {:induction false} SameWithEither<T>(s: set<T>, x: T, y: T)
    requires x != y
    ensures s + {x} == s + {y} <==> x in s && y in s
  {
    if s + {x} == s + {y} { assert x in s + {y} && y in s + {x}; }
  }

  /** Equal, but for the text of conversion errors. */
  predicate SameButErrors(a: Resolution, b: Resolution) {
    && b == a.(reason := b.reason) && (a.reason == b.reason || (a.reason.NotNormalizable? && b.reason.NotNormalizable?))
  }

  lemma {:induction false} SwapNormalized(engine: Engine, c: Criterion, s: set<Observation>, o: Observation,
                                          o': Observation, ids: seq<Uuid>)
    requires EngineOk(engine) && c.kind == NumberType && Reexpresses(engine, o, o') && DistinctIds(s)
    requires DistinctIds(Swap(s, o, o'))
    requires Absent(s, o, o') && (o' in s ==> o in s)
    ensures SameButErrors(ResolveNormalized(engine, c, s, ids), ResolveNormalized(engine, c, Swap(s, o, o'), ids))
    ensures ResolveNormalized(engine, c, Swap(s, o, o'), ids) == ResolveNormalized(engine, c, s, ids)
       <==> !ShowsUnit(engine, c, s, o, o')
  {
    hide NormalizeValue, KeyOf, Worse, Reexpresses, ErrorsOf, CanonicalUnit, NamedByOther;
    var n := NormalizableOf(engine, c, s);
    forall x | x in s && NormalizeValue(engine, c, x).Ok? ensures x in n {}
    if n == {} { SwapErrors(engine, c, s, o, o'); }
    assert SameIdentity(o, o') by { IdentityKept(engine, o, o'); }
    SwapNormalizable(engine, c, s, o, o');
    SwapNormalizes(engine, c, o, o');
    SwapAgrees(engine, c, n, o, o');
    assert Swap(n, o, o') == {} <==> n == {};
    if n != {} && Agrees(engine, c, n) {
      var a, b := ResolveNormalized(engine, c, s, ids), ResolveNormalized(engine, c, Swap(s, o, o'), ids);
      var best := SelectedBest(engine, c, s, ids);
      var best' := SelectedBest(engine, c, Swap(s, o, o'), ids);
      SwapBest(n, o, o', best);
      BestUnique(best', if best == o then o' else best, Swap(n, o, o'));
    }
  }

  lemma {:induction false} SelectedBest(engine: Engine, c: Criterion, s: set<Observation>, ids: seq<Uuid>)
      returns (best: Observation)
    requires EngineOk(engine) && DistinctIds(s) && NormalizableOf(engine, c, s) != {}
    requires Agrees(engine, c, NormalizableOf(engine, c, s))
    ensures IsBest(best, NormalizableOf(engine, c, s))
    ensures NormalizeValue(engine, c, best).Ok?
    ensures ResolveNormalized(engine, c, s, ids)
         == Resolution(Satisfied, NormalizeValue(engine, c, best).value.0, NormalizeValue(engine, c, best).value.1, ids,
                       Some(best.id), ResolvedEvidence)
  {
    hide NormalizeValue, KeyOf, Worse;
    var resolved := ResolveNormalized(engine, c, s, ids);
    best :| IsBest(best, NormalizableOf(engine, c, s)) && resolved.selected == Some(best.id)
            && NormalizeValue(engine, c, best) == Ok((resolved.value, resolved.unit));
  }

  lemma IdentityKept(engine: Engine, o: Observation, o': Observation)
    requires EngineOk(engine) && Reexpresses(engine, o, o')
    ensures SameIdentity(o, o')
  {}

  lemma {:induction false} SwapConsidered(engine: Engine, c: Criterion, s: set<Observation>, o: Observation,
                                          o': Observation, ids: seq<Uuid>)
    requires EngineOk(engine) && c.kind == NumberType && Reexpresses(engine, o, o') && DistinctIds(s)
    requires DistinctIds(Swap(s, o, o'))
    requires Absent(s, o, o') && (o' in s ==> o in s)
    ensures SameButErrors(ResolveConsidered(engine, c, s, ids), ResolveConsidered(engine, c, Swap(s, o, o'), ids))
    ensures ResolveConsidered(engine, c, Swap(s, o, o'), ids) == ResolveConsidered(engine, c, s, ids)
       <==> !ShowsUnit(engine, c, UsableOf(engine, s), o, o')
  {
    hide NormalizeValue, Reexpresses, ResolveNormalized, IsFresh, NamedByOther, CanonicalUnit;
    IdentityKept(engine, o, o');
    SwapUsable(engine, s, o, o');
    var u := UsableOf(engine, s);
    assert Swap(u, o, o') == {} <==> u == {};
    if u != {} { SwapNormalized(engine, c, u, o, o', ids); }
  }

  /** No conflict, and no mark of one, ends the resolution before it looks at single observations. */
  ghost predicate ReachesEvidence(r: Requirement, acceptable: set<Observation>, conflicts: set<Conflict>) {
    match RelatedResolution(IdsOf(acceptable), conflicts, r.key)
    case Unresolved => false
    case ResolvedTo(_) => true
    case NoConflict => forall o :: o in acceptable ==> o.classification != Contradictory
  }

  lemma {:induction false} SwapResolvedAcceptable(engine: Engine, r: Requirement, s: set<Observation>, o: Observation,
                                                  o': Observation, conflicts: set<Conflict>, ids: seq<Uuid>)
    requires EngineOk(engine) && r.criterion.kind == NumberType && Reexpresses(engine, o, o') && DistinctIds(s)
    requires DistinctIds(Swap(s, o, o'))
    requires Absent(s, o, o') && (o' in s ==> o in s)
    ensures SameButErrors(ResolveAcceptable(engine, r, s, conflicts, ids),
                          ResolveAcceptable(engine, r, Swap(s, o, o'), conflicts, ids))
    ensures ResolveAcceptable(engine, r, Swap(s, o, o'), conflicts, ids)
         == ResolveAcceptable(engine, r, s, conflicts, ids)
       <==> !(&& ReachesEvidence(r, s, conflicts)
              && ShowsUnit(engine, r.criterion, UsableOf(engine, Considered(r, s, conflicts)), o, o'))
  {
    hide Reexpresses, ResolveConsidered, RelatedResolution, NormalizeValue, NamedByOther, CanonicalUnit;
    IdentityKept(engine, o, o');
    SwapIds(s, o, o');
    var s' := Swap(s, o, o');
    match RelatedResolution(IdsOf(s), conflicts, r.key)
    case Unresolved =>
    case ResolvedTo(id) =>
      var one := set x | x in s && x.id == id;
      assert (set x | x in s' && x.id == id) == Swap(one, o, o');
      if id in IdsOf(s) { SwapConsidered(engine, r.criterion, one, o, o', ids); }
    case NoConflict =>
      SwapMarked(s, o, o');
      SwapConsidered(engine, r.criterion, s, o, o', ids);
  }

  lemma {:induction false} SwapMarked(s: set<Observation>, o: Observation, o': Observation)
    requires SameIdentity(o, o')
    ensures (exists x :: x in Swap(s, o, o') && x.classification == Contradictory)
       <==> exists x :: x in s && x.classification == Contradictory
  {
    var s' := Swap(s, o, o');
    if exists x :: x in s && x.classification == Contradictory {
      var x :| x in s && x.classification == Contradictory;
      assert (if x == o then o' else x) in s';
    }
    if exists x :: x in s' && x.classification == Contradictory {
      var x :| x in s' && x.classification == Contradictory;
      assert (if x == o' && o in s then o else x) in s;
    }
  }

  /** The evaluation comes down to the observations that count, and their errors show the unit of `o`. */
  ghost predicate Exposed(engine: Engine, candidate: Candidate, r: Requirement, s: set<Observation>,
                          conflicts: set<Conflict>, o: Observation, o': Observation)
    requires EngineOk(engine)
  {
    var acceptable := Acceptable(engine.units.folding, r, Relevant(candidate, r, s));
    && ReachesEvidence(r, acceptable, conflicts)
    && ShowsUnit(engine, r.criterion, UsableOf(engine, Considered(r, acceptable, conflicts)), o, o')
  }

  /** Re-expressing a NUMBER observation in another convertible unit changes nothing at all, except when
      it is exposed by conversion errors; then it changes which errors are listed, and nothing else. */
  lemma {:induction false} UnitsAreIrrelevant(engine: Engine, candidate: Candidate, r: Requirement, s: set<Observation>,
                                              conflicts: set<Conflict>, o: Observation, o': Observation)
    requires EngineOk(engine) && r.criterion.kind == NumberType && DistinctIds(s) && o in s
    requires Reexpresses(engine, o, o')
    ensures DistinctIds(Swap(s, o, o'))
    ensures Evaluate(engine, candidate, r, Swap(s, o, o'), conflicts) == Evaluate(engine, candidate, r, s, conflicts)
       <==> !Exposed(engine, candidate, r, s, conflicts, o, o')
    ensures Exposed(engine, candidate, r, s, conflicts, o, o') ==>
              var a, b :=
                Evaluate(engine, candidate, r, s, conflicts), Evaluate(engine, candidate, r, Swap(s, o, o'), conflicts);
              b == a.(reason := b.reason) && a.reason.NotNormalizable? && b.reason.NotNormalizable?
  {
    hide Reexpresses, ResolveAcceptable, CriterionSatisfied, IsAcceptable, ReachesEvidence, ShowsUnit, Considered,
         UsableOf;
    IdentityKept(engine, o, o');
    SwapIds(s, o, o');
    assert Absent(s, o, o') by { if o' in s { assert o'.id == o.id; } }
    var relevant := Relevant(candidate, r, s);
    SwapRelevant(candidate, r, s, o, o');
    SwapIds(relevant, o, o');
    assert Swap(relevant, o, o') == {} <==> relevant == {};
    var acceptable := Acceptable(engine.units.folding, r, relevant);
    SwapAcceptable(engine.units.folding, r, relevant, o, o');
    assert Swap(acceptable, o, o') == {} <==> acceptable == {};
    SwapIds(acceptable, o, o');
    SwapResolvedAcceptable(engine, r, acceptable, o, o', conflicts, Sorted(IdsOf(relevant)));
    ResolutionStatus(engine, r, acceptable, conflicts, Sorted(IdsOf(relevant)));
    if acceptable == {} { NothingExposed(engine, r, conflicts, o, o'); }
  }

  lemma {:induction false} NothingExposed(engine: Engine, r: Requirement, conflicts: set<Conflict>, o: Observation,
                                          o': Observation)
    requires EngineOk(engine)
    ensures !ShowsUnit(engine, r.criterion, UsableOf(engine, Considered(r, {}, conflicts)), o, o')
  {
    ConsideredSubset(r, {}, conflicts);
  }

  /** In particular nothing changes when the observation can be converted to the unit of the criterion. */
  lemma {:induction false} ConvertibleUnitsAreIrrelevant(engine: Engine, candidate: Candidate, r: Requirement,
                                                         s: set<Observation>, conflicts: set<Conflict>, o: Observation,
                                                         o': Observation)
    requires EngineOk(engine) && r.criterion.kind == NumberType && DistinctIds(s) && o in s
    requires Reexpresses(engine, o, o')
    requires r.criterion.unit.Some?
    requires ConvertUnit(engine.units, AsDecimal(o.value).value, o.unit.value, r.criterion.unit.value).Ok?
    ensures DistinctIds(Swap(s, o, o'))
    ensures Evaluate(engine, candidate, r, Swap(s, o, o'), conflicts) == Evaluate(engine, candidate, r, s, conflicts)
  {
    assert NormalizeValue(engine, r.criterion, o).Ok?;
    hide Evaluate, NormalizeValue, Reexpresses, ReachesEvidence, NamedByOther;
    UnitsAreIrrelevant(engine, candidate, r, s, conflicts, o, o');
  }

  // ----- 1000 g and 1 kg, for a criterion in metres -----

  const GRAM := UnitDefinition("mass", 0.001, 0.0)
  const KILOGRAM := UnitDefinition("mass", 1.0, 0.0)
  const METRE := UnitDefinition("length", 1.0, 0.0)

  function MassAndLength(folding: Folding): Engine {
    Engine(Units(folding, map["g" := GRAM, "kg" := KILOGRAM, "m" := METRE], map[]), None, 0)
  }

  const SOME_CANDIDATE := Candidate("candidate", "revision", "Supplier", "Offering")

  const AT_MOST_A_METRE :=
    Requirement("size", Mandatory, Criterion(NumberType, AtMost, Whole(1), Some("m"), None, [], 1.0), [])

  function Measured(value: int, unit: string): Observation {
    Observation("observation", "revision", Some("candidate"), "size", None, Whole(value), Some(unit), Observed,
                "2026-01-01", 1.0, None)
  }

  /** A measurement in grams and the same one in kilograms are refused with different errors. */
  lemma {:induction false} UnitShowsInErrors(folding: Folding)
    requires folding.fold("g") == "g" && folding.fold("kg") == "kg" && folding.fold("m") == "m"
    ensures EngineOk(MassAndLength(folding))
    ensures Reexpresses(MassAndLength(folding), Measured(1000, "g"), Measured(1, "kg"))
    ensures var engine := MassAndLength(folding);
            && Evaluate(engine, SOME_CANDIDATE, AT_MOST_A_METRE, {Measured(1000, "g")}, {}).reason
            == NotNormalizable({IncompatibleUnits("g", "m")})
            && Evaluate(engine, SOME_CANDIDATE, AT_MOST_A_METRE, {Measured(1, "kg")}, {}).reason
            == NotNormalizable({IncompatibleUnits("kg", "m")})
  {
    var engine := MassAndLength(folding);
    PlainUnits(folding);
    hide Strip;
    assert AsDecimal(Whole(1000)) == Ok(1000.0) && AsDecimal(Whole(1)) == Ok(1.0);
    hide Evaluate, Affine;
    LoneMeasurement(engine, Measured(1000, "g"));
    LoneMeasurement(engine, Measured(1, "kg"));
  }

  lemma {:induction false} PlainUnits(folding: Folding)
    requires folding.fold("g") == "g" && folding.fold("kg") == "kg" && folding.fold("m") == "m"
    ensures var units := MassAndLength(folding).units;
            && UnitsOk(units)
            && CanonicalUnit(units, "g") == Ok("g") && CanonicalUnit(units, "kg") == Ok("kg")
            && CanonicalUnit(units, "m") == Ok("m")
            && units.definitions["g"] == GRAM && units.definitions["kg"] == KILOGRAM && units.definitions["m"] == METRE
    ensures ConvertUnit(MassAndLength(folding).units, 1000.0, "g", "kg") == Ok(1.0)
  {
    assert Strip("g") == "g" && Strip("kg") == "kg" && Strip("m") == "m";
  }

  lemma {:induction false} LoneMeasurement(engine: Engine, o: Observation)
    requires EngineOk(engine) && NormalizeValue(engine, AT_MOST_A_METRE.criterion, o).Err?
    requires o.revisionId == "revision" && o.candidateId == Some("candidate") && o.requirementKey == "size"
    requires o.classification == Observed && o.freshUntil.None?
    ensures Evaluate(engine, SOME_CANDIDATE, AT_MOST_A_METRE, {o}, {}).reason
         == NotNormalizable({NormalizeValue(engine, AT_MOST_A_METRE.criterion, o).error})
  {
    hide NormalizeValue;
    assert Relevant(SOME_CANDIDATE, AT_MOST_A_METRE, {o}) == {o};
    assert Resolvers(IdsOf({o}), {}, "size") == {};
    assert UsableOf(engine, {o}) == {o};
    assert NormalizableOf(engine, AT_MOST_A_METRE.criterion, {o}) == {};
    assert ErrorsOf(engine, AT_MOST_A_METRE.criterion, {o})
         == {NormalizeValue(engine, AT_MOST_A_METRE.criterion, o).error};
  }
}
