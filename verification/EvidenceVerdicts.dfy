/** What the verdicts say, operator by operator and status by status (evaluation/engine.py:63-508). */
module EvidenceVerdicts {
  import opened Wrappers
  import opened Text
  import opened Sorting
  import opened Normalization
  import opened Evidence
  import opened EvidenceTheorems

  // ----- Numbers, amounts of money and dates -----

  predicate IsAmount(value: Scalar, x: real) {
    value == Fraction(x) || (value.Whole? && value.i as real == x)
  }

  function Amount(value: Scalar): (amount: real)
    requires value.Whole? || value.Fraction?
    ensures IsAmount(value, amount)
  {
    if value.Whole? then value.i as real else value.r
  }

  predicate IsNumeric(kind: CriterionType) {
    kind.NumberType? || kind.MoneyType?
  }

  /** A number or an amount of money is compared with the target as the operator says. */
  lemma {:induction false} AmountVerdict(folding: Folding, c: Criterion, value: Scalar, x: real, target: real)
    requires IsNumeric(c.kind) && IsAmount(value, x) && IsAmount(c.target, target)
    ensures c.operator == AtLeast ==> CriterionSatisfied(folding, c, value) == Ok(target <= x)
    ensures c.operator == AtMost ==> CriterionSatisfied(folding, c, value) == Ok(x <= target)
    ensures c.operator == Equals ==> CriterionSatisfied(folding, c, value) == Ok(x == target)
    ensures c.operator == NotEquals ==> CriterionSatisfied(folding, c, value) == Ok(x != target)
  {}

  /** Dates with an offset are compared by their instants; a date without one is refused. */
  lemma {:induction false} DateVerdict(folding: Folding, c: Criterion, value: Stamp, target: Stamp)
    requires c.kind == DateType && c.target == Date(target) && c.operator in {AtLeast, AtMost, Equals, NotEquals}
    ensures var verdict := CriterionSatisfied(folding, c, Date(value));
            if value.offset.None? || target.offset.None? then verdict == Err(NotAware)
            else
              && (c.operator == AtLeast ==> verdict == Ok(target.instant <= value.instant))
              && (c.operator == AtMost ==> verdict == Ok(value.instant <= target.instant))
              && (c.operator == Equals ==> verdict == Ok(value.instant == target.instant))
              && (c.operator == NotEquals ==> verdict == Ok(value.instant != target.instant))
  {}

  /** The criterion, with that operator, is met by the value. */
  predicate Meets(folding: Folding, c: Criterion, operator: Operator, value: Scalar) {
    CriterionSatisfied(folding, c.(operator := operator), value) == Ok(true)
  }

  /** Values that the criterion can compare, in order. */
  predicate InOrder(c: Criterion, a: Scalar, b: Scalar) {
    || (IsNumeric(c.kind) && (a.Whole? || a.Fraction?) && (b.Whole? || b.Fraction?) && Amount(a) <= Amount(b))
    || (c.kind == DateType && a.Date? && b.Date? && a.stamp.offset.Some? && b.stamp.offset.Some?
        && a.stamp.instant <= b.stamp.instant)
  }

  /** Values of which the first lies strictly before the second. */
  predicate Before(c: Criterion, a: Scalar, b: Scalar) {
    InOrder(c, a, b) && !InOrder(c, b, a)
  }

  lemma {:induction false} MeetsIffInOrder(folding: Folding, c: Criterion, value: Scalar)
    requires InOrder(c, value, c.target) || InOrder(c, c.target, value)
    ensures Meets(folding, c, AtLeast, value) <==> InOrder(c, c.target, value)
    ensures Meets(folding, c, AtMost, value) <==> InOrder(c, value, c.target)
    ensures Meets(folding, c, Equals, value) <==> InOrder(c, c.target, value) && InOrder(c, value, c.target)
    ensures Meets(folding, c, NotEquals, value) <==> !Meets(folding, c, Equals, value)
  {
    if IsNumeric(c.kind) {
      var x, t := Amount(value), Amount(c.target);
      AmountVerdict(folding, c.(operator := AtLeast), value, x, t);
      AmountVerdict(folding, c.(operator := AtMost), value, x, t);
      AmountVerdict(folding, c.(operator := Equals), value, x, t);
      AmountVerdict(folding, c.(operator := NotEquals), value, x, t);
    }
  }

  /** The target meets AT_LEAST and AT_MOST; what meets AT_LEAST is still met by every larger value, and
      what meets AT_MOST by every smaller one; nothing before the target meets AT_LEAST and nothing after it
      AT_MOST; EQUALS is both, and NOT_EQUALS its opposite. */
  lemma {:induction false} OrderLaws(folding: Folding, c: Criterion, a: Scalar, b: Scalar)
    requires InOrder(c, a, b) && (InOrder(c, a, c.target) || InOrder(c, c.target, a))
    requires InOrder(c, b, c.target) || InOrder(c, c.target, b)
    ensures Meets(folding, c, AtLeast, c.target) && Meets(folding, c, AtMost, c.target)
    ensures Meets(folding, c, AtLeast, a) ==> Meets(folding, c, AtLeast, b)
    ensures Meets(folding, c, AtMost, b) ==> Meets(folding, c, AtMost, a)
    ensures Before(c, a, c.target) ==> !Meets(folding, c, AtLeast, a)
    ensures Before(c, c.target, a) ==> !Meets(folding, c, AtMost, a)
    ensures Meets(folding, c, Equals, a) <==> Meets(folding, c, AtLeast, a) && Meets(folding, c, AtMost, a)
    ensures Meets(folding, c, NotEquals, a) <==> !Meets(folding, c, Equals, a)
  {
    MeetsIffInOrder(folding, c, a);
    MeetsIffInOrder(folding, c, b);
    MeetsIffInOrder(folding, c, c.target);
    hide Meets;
  }

  // ----- The other operators -----

  /** EXISTS is met by every value, whatever the criterion is about. */
  lemma {:induction false} ExistsVerdict(folding: Folding, c: Criterion, value: Scalar)
    requires c.operator == Exists
    ensures CriterionSatisfied(folding, c, value) == Ok(true) <==> value != NoValue
    ensures CriterionSatisfied(folding, c, value) == Ok(false) <==> value == NoValue
  {}

  /** IN is met by exactly the texts that equal an allowed value up to case and surrounding white space. */
  lemma {:induction false} InVerdict(folding: Folding, c: Criterion, text: string)
    requires c.operator == In && c.allowedValues != []
    ensures CriterionSatisfied(folding, c, Words(text)).Ok?
    ensures CriterionSatisfied(folding, c, Words(text)) == Ok(true)
       <==> exists allowed :: allowed in c.allowedValues && folding.fold(Strip(allowed)) == folding.fold(Strip(text))
  {
    var k :| 0 <= k < |c.allowedValues|;
    assert c.allowedValues[k] in c.allowedValues;
    if allowed :| allowed in c.allowedValues && folding.fold(Strip(allowed)) == folding.fold(Strip(text)) {
      var k :| 0 <= k < |c.allowedValues| && c.allowedValues[k] == allowed;
    }
  }

  ghost predicate Surrounded(needle: string, text: string) {
    exists before, after :: text == before + needle + after
  }

  lemma {:induction false} OccursIsSurrounded(needle: string, text: string)
    ensures Occurs(needle, text) <==> Surrounded(needle, text)
  {
    if Occurs(needle, text) {
      var k :| 0 <= k <= |text| - |needle| && OccursAt(needle, text, k);
      assert text == text[..k] + needle + text[k + |needle|..];
    }
    if before, after :| text == before + needle + after {
      assert text[|before|..|before| + |needle|] == needle;
      assert OccursAt(needle, text, |before|);
    }
  }

  /** CONTAINS is met by exactly the texts that have the target somewhere inside, up to case and surrounding
      white space. */
  lemma {:induction false} ContainsVerdict(folding: Folding, c: Criterion, text: string, target: string)
    requires c.operator == Contains && c.target == Words(target)
    ensures CriterionSatisfied(folding, c, Words(text)).Ok?
    ensures CriterionSatisfied(folding, c, Words(text)) == Ok(true)
       <==> exists before, after :: folding.fold(Strip(text)) == before + folding.fold(Strip(target)) + after
  {
    hide Occurs;
    OccursIsSurrounded(folding.fold(Strip(target)), folding.fold(Strip(text)));
  }

  predicate IsTextual(kind: CriterionType) {
    kind in {EnumType, GeographyType, CertificationType, TextType}
  }

  /** Texts are equal up to case and surrounding white space, flags and plain values as they are. */
  lemma {:induction false} EqualityVerdict(folding: Folding, c: Criterion, value: Scalar)
    requires c.operator in {Equals, NotEquals}
    ensures var verdict := CriterionSatisfied(folding, c, value);
            && (IsTextual(c.kind) && value.Words? && c.target.Words? ==>
                  verdict == Ok((folding.fold(Strip(value.text)) == folding.fold(Strip(c.target.text)))
                                == (c.operator == Equals)))
            && (c.kind == BooleanType && value.Flag? && c.target.Flag? ==>
                  verdict == Ok((value.b == c.target.b) == (c.operator == Equals)))
            && (c.kind == AssertionType && value == c.target ==> verdict == Ok(c.operator == Equals))
            && (c.kind == AssertionType && value.Words? && c.target.Words? ==>
                  verdict == Ok((value.text == c.target.text) == (c.operator == Equals)))
  {}

  /** Plain values are equal as Python compares them: numbers by amount, flags as the numbers one and zero, dates
      with offsets by instant, and otherwise only values of the same kind. */
  lemma {:induction false} PlainEquality(folding: Folding, c: Criterion, value: Scalar)
    requires c.kind == AssertionType && c.operator == Equals
    ensures var verdict := CriterionSatisfied(folding, c, value);
            && (forall x, y :: IsAmount(value, x) && IsAmount(c.target, y) ==> verdict == Ok(x == y))
            && (forall x :: value.Flag? && IsAmount(c.target, x) ==> verdict == Ok(x == if value.b then 1.0 else 0.0))
            && (forall x :: c.target.Flag? && IsAmount(value, x) ==>
                  verdict == Ok(x == if c.target.b then 1.0 else 0.0))
            && (value.Date? && c.target.Date? && value.stamp.offset.Some? && c.target.stamp.offset.Some? ==>
                  verdict == Ok(value.stamp.instant == c.target.stamp.instant))
            && (value.Date? && c.target.Date? && value.stamp.offset.None? ==> verdict == Ok(value == c.target))
            && (value.Words? != c.target.Words? || value.Date? != c.target.Date? || value.NoValue? != c.target.NoValue?
                ==> verdict == Ok(false))
  {}

  /** A value of the wrong kind is an error, never a verdict. */
  lemma {:induction false} WrongKindIsRefused(folding: Folding, c: Criterion, value: Scalar)
    requires c.operator in {Equals, NotEquals, AtLeast, AtMost}
    ensures IsNumeric(c.kind) && !value.Whole? && !value.Fraction? ==>
              CriterionSatisfied(folding, c, value) == Err(NotNumeric)
    ensures c.kind == DateType && !value.Date? ==> CriterionSatisfied(folding, c, value) == Err(NotDate)
    ensures c.kind == BooleanType && !value.Flag? ==> CriterionSatisfied(folding, c, value) == Err(NotBoolean)
    ensures IsTextual(c.kind) && !value.Words? ==> CriterionSatisfied(folding, c, value) == Err(NotText)
    ensures c.operator in {AtLeast, AtMost} && !IsNumeric(c.kind) && c.kind != DateType ==>
              CriterionSatisfied(folding, c, value).Err?
  {}

  // ----- Which observations count -----

  /** The observation is about this requirement of this candidate, and of an acceptable type. */
  predicate Bears(folding: Folding, candidate: Candidate, r: Requirement, o: Observation) {
    && o.revisionId == candidate.revisionId && o.candidateId == Some(candidate.id) && o.requirementKey == r.key
    && (r.acceptableEvidence == []
        || (o.evidenceType.Some?
            && exists k :: 0 <= k < |r.acceptableEvidence|
                           && folding.fold(Strip(r.acceptableEvidence[k]))
                              == folding.fold(Strip(o.evidenceType.value))))
  }

  predicate Expired(engine: Engine, o: Observation) {
    o.freshUntil.Some? && o.freshUntil.value < engine.asOf
  }

  predicate Firm(o: Observation) {
    o.classification in {OperatorProvided, Observed, Calculated, Inferred}
  }

  predicate Related(c: Conflict, r: Requirement, o: Observation) {
    c.requirementKey == r.key && o.id in c.observationIds
  }

  /** No conflict is on record about the observations, and none of them says that it conflicts. */
  ghost predicate Undisputed(folding: Folding, candidate: Candidate, r: Requirement, s: set<Observation>,
                             conflicts: set<Conflict>) {
    forall o :: o in s && Bears(folding, candidate, r, o) ==>
      o.classification != Contradictory && forall c :: c in conflicts ==> !Related(c, r, o)
  }

  ghost function BearingOf(engine: Engine, candidate: Candidate, r: Requirement, s: set<Observation>)
    : set<Observation>
  {
    set o | o in s && Bears(engine.units.folding, candidate, r, o)
  }

  lemma {:induction false} AcceptableBears(engine: Engine, candidate: Candidate, r: Requirement, s: set<Observation>)
    ensures Acceptable(engine.units.folding, r, Relevant(candidate, r, s)) == BearingOf(engine, candidate, r, s)
  {}

  lemma {:induction false} NoRelatedConflict(ids: set<Uuid>, conflicts: set<Conflict>, key: string)
    requires forall c :: c in conflicts ==> !IsRelated(c, ids, key)
    ensures RelatedResolution(ids, conflicts, key) == NoConflict
  {
    assert Resolvers(ids, conflicts, key) == {};
  }

  lemma {:induction false} UnrelatedHasNoConflict(engine: Engine, candidate: Candidate, r: Requirement,
                                                  s: set<Observation>, conflicts: set<Conflict>)
    requires forall x, c :: x in BearingOf(engine, candidate, r, s) && c in conflicts ==> !Related(c, r, x)
    ensures RelatedResolution(IdsOf(BearingOf(engine, candidate, r, s)), conflicts, r.key) == NoConflict
  {
    hide Bears;
    var ids := IdsOf(BearingOf(engine, candidate, r, s));
    forall c | c in conflicts ensures !IsRelated(c, ids, r.key) {
      if c.requirementKey == r.key {
        forall id | id in ids ensures id !in c.observationIds {
          var o :| o in BearingOf(engine, candidate, r, s) && o.id == id;
          assert !Related(c, r, o);
        }
      }
    }
    NoRelatedConflict(ids, conflicts, r.key);
  }

  /** Without conflicts the resolution looks at all bearing observations. */
  lemma {:induction false} UndisputedResolves(engine: Engine, candidate: Candidate, r: Requirement,
                                              s: set<Observation>, conflicts: set<Conflict>)
    requires EngineOk(engine) && DistinctIds(s) && Undisputed(engine.units.folding, candidate, r, s, conflicts)
    requires BearingOf(engine, candidate, r, s) != {}
    ensures Resolve(engine, candidate, r, s, conflicts)
         == ResolveConsidered(engine, r.criterion, BearingOf(engine, candidate, r, s),
                              Sorted(IdsOf(Relevant(candidate, r, s))))
  {
    hide ResolveConsidered, RelatedResolution, Acceptable, Bears, Relevant, Related;
    AcceptableBears(engine, candidate, r, s);
    UnrelatedHasNoConflict(engine, candidate, r, s, conflicts);
    BearingIsRelevant(engine, candidate, r, s);
  }

  lemma BearingIsRelevant(engine: Engine, candidate: Candidate, r: Requirement, s: set<Observation>)
    ensures BearingOf(engine, candidate, r, s) <= Relevant(candidate, r, s) <= s
  {}

  /** Fresh and firm observations count. */
  predicate Counting(engine: Engine, o: Observation) {
    !Expired(engine, o) && Firm(o)
  }

  lemma {:induction false} UsableIsCounting(engine: Engine, considered: set<Observation>)
    ensures UsableOf(engine, considered) == set o | o in considered && Counting(engine, o)
  {
    forall o ensures IsUsable(o) <==> Firm(o) {}
    hide Firm, IsUsable;
  }

  // ----- One observation decides -----

  /** Only `o` counts: every other bearing observation is expired, not firm, or not convertible. */
  ghost predicate Alone(engine: Engine, candidate: Candidate, r: Requirement, s: set<Observation>, o: Observation)
    requires EngineOk(engine)
  {
    && o in s && Bears(engine.units.folding, candidate, r, o) && Counting(engine, o)
    && forall x :: x in s && x != o && Bears(engine.units.folding, candidate, r, x) && Counting(engine, x) ==>
         NormalizeValue(engine, r.criterion, x).Err?
  }

  lemma {:induction false} AloneResolves(engine: Engine, candidate: Candidate, r: Requirement, s: set<Observation>,
                                         conflicts: set<Conflict>, o: Observation)
    requires EngineOk(engine) && DistinctIds(s) && Undisputed(engine.units.folding, candidate, r, s, conflicts)
    requires Alone(engine, candidate, r, s, o) && NormalizeValue(engine, r.criterion, o).Ok?
    ensures var normalized := NormalizeValue(engine, r.criterion, o).value;
            Resolve(engine, candidate, r, s, conflicts)
            == Resolution(Satisfied, normalized.0, normalized.1, Sorted(IdsOf(Relevant(candidate, r, s))), Some(o.id),
                          ResolvedEvidence)
  {
    hide NormalizeValue, Resolve, Bears, Undisputed, KeyOf, Worse, Counting, Relevant;
    var bearing := BearingOf(engine, candidate, r, s);
    assert o in bearing;
    BearingIsRelevant(engine, candidate, r, s);
    UndisputedResolves(engine, candidate, r, s, conflicts);
    UsableIsCounting(engine, bearing);
    var usable := UsableOf(engine, bearing);
    hide UsableOf;
    assert o in usable;
    assert NormalizableOf(engine, r.criterion, usable) == {o};
    var best :| IsBest(best, NormalizableOf(engine, r.criterion, usable))
                && ResolveNormalized(engine, r.criterion, usable, Sorted(IdsOf(Relevant(candidate, r, s))))
                   == Resolution(Satisfied, NormalizeValue(engine, r.criterion, best).value.0,
                                 NormalizeValue(engine, r.criterion, best).value.1,
                                 Sorted(IdsOf(Relevant(candidate, r, s))), Some(best.id), ResolvedEvidence);
  }

  /** One counting observation whose value converts is judged by the criterion. */
  lemma {:induction false} OneObservationDecides(engine: Engine, candidate: Candidate, r: Requirement,
                                                 s: set<Observation>, conflicts: set<Conflict>, o: Observation)
    requires EngineOk(engine) && DistinctIds(s) && Undisputed(engine.units.folding, candidate, r, s, conflicts)
    requires Alone(engine, candidate, r, s, o) && NormalizeValue(engine, r.criterion, o).Ok?
    ensures var e := Evaluate(engine, candidate, r, s, conflicts);
            var (value, unit) := NormalizeValue(engine, r.criterion, o).value;
            var verdict := CriterionSatisfied(engine.units.folding, r.criterion, value);
            && e.value == value && e.unit == unit && e.selected == Some(o.id)
            && (e.status == Satisfied <==> verdict == Ok(true))
            && (e.status == NotSatisfied <==> verdict == Ok(false))
            && (e.status == Invalid <==> verdict.Err?)
            && e.reason == (match verdict
                            case Err(error) => CriterionInvalid(error)
                            case Ok(met) => if met then CriterionMet else CriterionNotMet)
            && e.ids == Sorted(IdsOf(Relevant(candidate, r, s))) && e.requirement == r
            && e.possible == (if r.priority == Preferred then r.criterion.weight else 0.0)
            && e.earned == (if e.status == Satisfied then e.possible else 0.0)
  {
    hide NormalizeValue, Resolve, Undisputed, CriterionSatisfied, Alone;
    AloneResolves(engine, candidate, r, s, conflicts, o);
  }

  /** A number in a unit that converts to `x` in the unit of the criterion satisfies AT_LEAST exactly from the
      target on, AT_MOST exactly up to it, and EQUALS exactly at it. */
  lemma {:induction false} QuantityDecides(engine: Engine, candidate: Candidate, r: Requirement, s: set<Observation>,
                                           conflicts: set<Conflict>, o: Observation, amount: real, x: real,
                                           target: real)
    requires EngineOk(engine) && DistinctIds(s) && Undisputed(engine.units.folding, candidate, r, s, conflicts)
    requires Alone(engine, candidate, r, s, o) && r.criterion.kind == NumberType
    requires IsAmount(o.value, amount) && IsAmount(r.criterion.target, target)
    requires o.unit.Some? && r.criterion.unit.Some?
    requires ConvertUnit(engine.units, amount, o.unit.value, r.criterion.unit.value) == Ok(x)
    ensures var e := Evaluate(engine, candidate, r, s, conflicts);
            && e.value == Fraction(x) && e.selected == Some(o.id)
            && (r.criterion.operator == AtLeast ==>
                  (e.status == Satisfied <==> x >= target) && (e.status == NotSatisfied <==> x < target))
            && (r.criterion.operator == AtMost ==>
                  (e.status == Satisfied <==> x <= target) && (e.status == NotSatisfied <==> x > target))
            && (r.criterion.operator == Equals ==>
                  (e.status == Satisfied <==> x == target) && (e.status == NotSatisfied <==> x != target))
  {
    hide ConvertUnit, CriterionSatisfied, Evaluate, Alone, Undisputed;
    ConvertsCanonical(engine.units, amount, o.unit.value, r.criterion.unit.value);
    assert NormalizeValue(engine, r.criterion, o).Ok? && NormalizeValue(engine, r.criterion, o).value.0 == Fraction(x);
    hide NormalizeValue;
    OneObservationDecides(engine, candidate, r, s, conflicts, o);
    AmountVerdict(engine.units.folding, r.criterion, Fraction(x), x, target);
  }

  lemma ConvertsCanonical(units: Units, amount: real, source: string, target: string)
    requires UnitsOk(units) && ConvertUnit(units, amount, source, target).Ok?
    ensures CanonicalUnit(units, target).Ok?
  {}

  /** The amount is in the currency of the criterion, or exchanges to `x` in it. */
  predicate Exchanges(engine: Engine, c: Criterion, o: Observation, amount: real, x: real)
    requires engine.table.Some? ==> TableOk(engine.table.value)
  {
    && o.unit.Some? && c.currency.Some?
    && var source, target := CurrencyCode(engine.units.folding, o.unit.value),
                             CurrencyCode(engine.units.folding, c.currency.value);
       && source.Ok? && target.Ok?
       && if source == target then x == amount
          else engine.table.Some?
               && ConvertCurrency(engine.units.folding, engine.table.value, amount, source.value, target.value) == Ok(x)
  }

  /** The same for an amount of money that exchanges to `x` in the currency of the criterion. */
  lemma {:induction false} MoneyDecides(engine: Engine, candidate: Candidate, r: Requirement, s: set<Observation>,
                                        conflicts: set<Conflict>, o: Observation, amount: real, x: real, target: real)
    requires EngineOk(engine) && DistinctIds(s) && Undisputed(engine.units.folding, candidate, r, s, conflicts)
    requires Alone(engine, candidate, r, s, o) && r.criterion.kind == MoneyType
    requires IsAmount(o.value, amount) && IsAmount(r.criterion.target, target)
    requires Exchanges(engine, r.criterion, o, amount, x)
    ensures var e := Evaluate(engine, candidate, r, s, conflicts);
            && e.value == Fraction(x) && e.selected == Some(o.id)
            && (r.criterion.operator == AtLeast ==>
                  (e.status == Satisfied <==> x >= target) && (e.status == NotSatisfied <==> x < target))
            && (r.criterion.operator == AtMost ==>
                  (e.status == Satisfied <==> x <= target) && (e.status == NotSatisfied <==> x > target))
            && (r.criterion.operator == Equals ==>
                  (e.status == Satisfied <==> x == target) && (e.status == NotSatisfied <==> x != target))
  {
    hide ConvertCurrency, CurrencyCode, CriterionSatisfied, Evaluate, Alone, Undisputed;
    assert NormalizeValue(engine, r.criterion, o).Ok? && NormalizeValue(engine, r.criterion, o).value.0 == Fraction(x);
    hide NormalizeValue;
    OneObservationDecides(engine, candidate, r, s, conflicts, o);
    AmountVerdict(engine.units.folding, r.criterion, Fraction(x), x, target);
  }

  /** Other observations are compared as they are, texts without surrounding white space; an observation of the
      wrong kind does not count. */
  lemma {:induction false} OtherKindsNormalize(engine: Engine, c: Criterion, o: Observation)
    requires EngineOk(engine)
    ensures c.kind == BooleanType ==>
              NormalizeValue(engine, c, o) == if o.value.Flag? then Ok((o.value, None)) else Err(NotBoolean)
    ensures c.kind == DateType ==>
              NormalizeValue(engine, c, o) == if o.value.Date? then Ok((o.value, None)) else Err(NotDate)
    ensures c.kind == AssertionType ==> NormalizeValue(engine, c, o) == Ok((o.value, o.unit))
    ensures IsTextual(c.kind) ==>
              NormalizeValue(engine, c, o)
              == if o.value.Words? then Ok((Words(Strip(o.value.text)), None)) else Err(NotText)
  {}

  /** One counting date meets AT_LEAST exactly from the target's instant on, and AT_MOST exactly up to it. */
  lemma {:induction false} DateDecides(engine: Engine, candidate: Candidate, r: Requirement, s: set<Observation>,
                                       conflicts: set<Conflict>, o: Observation, stamp: Stamp, target: Stamp)
    requires EngineOk(engine) && DistinctIds(s) && Undisputed(engine.units.folding, candidate, r, s, conflicts)
    requires Alone(engine, candidate, r, s, o) && r.criterion.kind == DateType && o.value == Date(stamp)
    requires r.criterion.target == Date(target) && stamp.offset.Some? && target.offset.Some?
    ensures var e := Evaluate(engine, candidate, r, s, conflicts);
            && e.value == Date(stamp) && e.selected == Some(o.id)
            && (r.criterion.operator == AtLeast ==>
                  (e.status == Satisfied <==> stamp.instant >= target.instant)
                  && (e.status == NotSatisfied <==> stamp.instant < target.instant))
            && (r.criterion.operator == AtMost ==>
                  (e.status == Satisfied <==> stamp.instant <= target.instant)
                  && (e.status == NotSatisfied <==> stamp.instant > target.instant))
  {
    hide CriterionSatisfied, Evaluate, Alone, Undisputed, NormalizeValue;
    OtherKindsNormalize(engine, r.criterion, o);
    OneObservationDecides(engine, candidate, r, s, conflicts, o);
    if r.criterion.operator in {AtLeast, AtMost} {
      DateVerdict(engine.units.folding, r.criterion, stamp, target);
    }
  }

  /** One counting text equals the target exactly when both agree up to case and surrounding white space. */
  lemma {:induction false} TextDecides(engine: Engine, candidate: Candidate, r: Requirement, s: set<Observation>,
                                       conflicts: set<Conflict>, o: Observation, text: string, target: string)
    requires EngineOk(engine) && DistinctIds(s) && Undisputed(engine.units.folding, candidate, r, s, conflicts)
    requires Alone(engine, candidate, r, s, o) && IsTextual(r.criterion.kind) && r.criterion.operator == Equals
    requires o.value == Words(text) && r.criterion.target == Words(target)
    ensures var e, fold := Evaluate(engine, candidate, r, s, conflicts), engine.units.folding.fold;
            && e.value == Words(Strip(text)) && e.selected == Some(o.id)
            && (e.status == Satisfied <==> fold(Strip(Strip(text))) == fold(Strip(target)))
            && (e.status == NotSatisfied <==> fold(Strip(Strip(text))) != fold(Strip(target)))
  {
    hide CriterionSatisfied, Evaluate, Alone, Undisputed, NormalizeValue;
    OtherKindsNormalize(engine, r.criterion, o);
    OneObservationDecides(engine, candidate, r, s, conflicts, o);
    EqualityVerdict(engine.units.folding, r.criterion, Words(Strip(text)));
  }

  // ----- What is refused, and how -----

  /** Nothing on record about the requirement is UNKNOWN; evidence of no acceptable type is INVALID. */
  lemma {:induction false} NothingBears(engine: Engine, candidate: Candidate, r: Requirement, s: set<Observation>,
                                        conflicts: set<Conflict>)
    requires EngineOk(engine) && DistinctIds(s) && BearingOf(engine, candidate, r, s) == {}
    ensures var about := set o | o in s && o.revisionId == candidate.revisionId && o.candidateId == Some(candidate.id)
                                 && o.requirementKey == r.key;
            var e := Evaluate(engine, candidate, r, s, conflicts);
            && e.status == (if about == {} then Unknown else Invalid)
            && e.reason == (if about == {} then NoEvidence else NotAcceptable)
  {
    AcceptableBears(engine, candidate, r, s);
    hide Bears, ResolveAcceptable, Acceptable;
  }

  /** When no bearing observation counts, the status is STALE if one of them has expired, else UNKNOWN. */
  lemma {:induction false} NoneCounts(engine: Engine, candidate: Candidate, r: Requirement, s: set<Observation>,
                                      conflicts: set<Conflict>)
    requires EngineOk(engine) && DistinctIds(s) && Undisputed(engine.units.folding, candidate, r, s, conflicts)
    requires BearingOf(engine, candidate, r, s) != {}
    requires forall o :: o in BearingOf(engine, candidate, r, s) ==> !Counting(engine, o)
    ensures var e := Evaluate(engine, candidate, r, s, conflicts);
            && (e.status == Stale <==> exists o :: o in BearingOf(engine, candidate, r, s) && Expired(engine, o))
            && (e.status == Unknown <==> forall o :: o in BearingOf(engine, candidate, r, s) ==> !Expired(engine, o))
            && (e.status == Stale ==> e.reason == AllStale) && (e.status == Unknown ==> e.reason == ExplicitlyUnknown)
  {
    hide Resolve, Undisputed, ResolveNormalized, UsableOf, Bears, Relevant, Counting;
    BearingIsRelevant(engine, candidate, r, s);
    UndisputedResolves(engine, candidate, r, s, conflicts);
    UsableIsCounting(engine, BearingOf(engine, candidate, r, s));
    hide BearingOf;
  }

  /** Two counting observations that convert to different amounts make the evidence CONFLICTING. */
  lemma {:induction false} DisagreementConflicts(engine: Engine, candidate: Candidate, r: Requirement,
                                                 s: set<Observation>, conflicts: set<Conflict>, a: Observation,
                                                 b: Observation, x: real, y: real)
    requires EngineOk(engine) && DistinctIds(s) && Undisputed(engine.units.folding, candidate, r, s, conflicts)
    requires {a, b} <= BearingOf(engine, candidate, r, s) && Counting(engine, a) && Counting(engine, b)
    requires NormalizeValue(engine, r.criterion, a).Ok? && NormalizeValue(engine, r.criterion, a).value.0 == Fraction(x)
    requires NormalizeValue(engine, r.criterion, b).Ok? && NormalizeValue(engine, r.criterion, b).value.0 == Fraction(y)
    requires x != y
    ensures Evaluate(engine, candidate, r, s, conflicts).status == Conflicting
    ensures Evaluate(engine, candidate, r, s, conflicts).selected == None
    ensures Evaluate(engine, candidate, r, s, conflicts).reason == Disagreement
  {
    hide Resolve, Undisputed, NormalizeValue, UsableOf, Bears, Relevant, Counting;
    BearingIsRelevant(engine, candidate, r, s);
    UndisputedResolves(engine, candidate, r, s, conflicts);
    UsableIsCounting(engine, BearingOf(engine, candidate, r, s));
    hide BearingOf;
    assert a in NormalizableOf(engine, r.criterion, UsableOf(engine, BearingOf(engine, candidate, r, s)));
    assert b in NormalizableOf(engine, r.criterion, UsableOf(engine, BearingOf(engine, candidate, r, s)));
  }

  /** A conflict about the evidence that is not resolved to one of its own observations makes it
      CONFLICTING. */
  lemma {:induction false} OpenConflictConflicts(engine: Engine, candidate: Candidate, r: Requirement,
                                                 s: set<Observation>, conflicts: set<Conflict>, o: Observation,
                                                 c: Conflict)
    requires EngineOk(engine) && DistinctIds(s) && o in BearingOf(engine, candidate, r, s)
    requires c in conflicts && Related(c, r, o)
    requires c.resolvedBy.None? || c.resolvedBy.value !in c.observationIds
    ensures Evaluate(engine, candidate, r, s, conflicts).status == Conflicting
    ensures Evaluate(engine, candidate, r, s, conflicts).reason == UnresolvedConflict
  {
    hide Bears, ResolveConsidered, Acceptable, BearingOf;
    AcceptableBears(engine, candidate, r, s);
    BearingIsRelevant(engine, candidate, r, s);
    assert o.id in IdsOf(BearingOf(engine, candidate, r, s)) * c.observationIds;
    assert IsRelated(c, IdsOf(BearingOf(engine, candidate, r, s)), r.key) && IsOpen(c);
  }

  /** Conflicts about the evidence that were resolved to different observations make it CONFLICTING too. */
  lemma {:induction false} DividedResolutionConflicts(engine: Engine, candidate: Candidate, r: Requirement,
                                                      s: set<Observation>, conflicts: set<Conflict>, a: Observation,
                                                      b: Observation, c: Conflict, d: Conflict)
    requires EngineOk(engine) && DistinctIds(s) && {a, b} <= BearingOf(engine, candidate, r, s)
    requires {c, d} <= conflicts && Related(c, r, a) && Related(d, r, b)
    requires c.resolvedBy.Some? && d.resolvedBy.Some? && c.resolvedBy != d.resolvedBy
    ensures Evaluate(engine, candidate, r, s, conflicts).status == Conflicting
    ensures Evaluate(engine, candidate, r, s, conflicts).reason == UnresolvedConflict
  {
    hide Bears, ResolveConsidered, Acceptable, BearingOf;
    AcceptableBears(engine, candidate, r, s);
    BearingIsRelevant(engine, candidate, r, s);
    var ids := IdsOf(BearingOf(engine, candidate, r, s));
    assert a.id in ids * c.observationIds && b.id in ids * d.observationIds;
    assert IsRelated(c, ids, r.key) && IsRelated(d, ids, r.key);
    TwoMembers(Resolvers(ids, conflicts, r.key), c.resolvedBy.value, d.resolvedBy.value);
  }

  lemma TwoMembers<T>(s: set<T>, x: T, y: T)
    requires x in s && y in s && x != y
    ensures |s| > 1
  {

    assert |s - {x}| == |s| - 1 && y in s - {x};
  }

  /** An observation that says of itself that it conflicts makes the evidence CONFLICTING as well. */
  lemma {:induction false} MarkedConflicts(engine: Engine, candidate: Candidate, r: Requirement, s: set<Observation>,
                                           conflicts: set<Conflict>, o: Observation)
    requires EngineOk(engine) && DistinctIds(s) && o in BearingOf(engine, candidate, r, s)
    requires o.classification == Contradictory
    requires forall x, c :: x in BearingOf(engine, candidate, r, s) && c in conflicts ==> !Related(c, r, x)
    ensures Evaluate(engine, candidate, r, s, conflicts).status == Conflicting
    ensures Evaluate(engine, candidate, r, s, conflicts).reason == MarkedConflicting
  {
    hide Bears, ResolveConsidered, Acceptable, BearingOf, RelatedResolution, Related;
    AcceptableBears(engine, candidate, r, s);
    BearingIsRelevant(engine, candidate, r, s);
    UnrelatedHasNoConflict(engine, candidate, r, s, conflicts);
  }

  /** The conflicts about the evidence were all resolved to the observation with that id. */
  ghost predicate SettledBy(engine: Engine, candidate: Candidate, r: Requirement, s: set<Observation>,
                            conflicts: set<Conflict>, id: Uuid) {
    && (exists x, c :: x in BearingOf(engine, candidate, r, s) && c in conflicts && Related(c, r, x))
    && (forall x, c :: x in BearingOf(engine, candidate, r, s) && c in conflicts && Related(c, r, x) ==>
          c.resolvedBy == Some(id) && id in c.observationIds)
  }

  lemma {:induction false} SettledResolution(engine: Engine, candidate: Candidate, r: Requirement, s: set<Observation>,
                                             conflicts: set<Conflict>, id: Uuid)
    requires SettledBy(engine, candidate, r, s, conflicts, id)
    ensures RelatedResolution(IdsOf(BearingOf(engine, candidate, r, s)), conflicts, r.key) == ResolvedTo(id)
  {
    hide BearingOf;
    var bearing := BearingOf(engine, candidate, r, s);
    var ids := IdsOf(bearing);
    forall c | c in conflicts && IsRelated(c, ids, r.key) ensures c.resolvedBy == Some(id) && !IsOpen(c) {
      var i :| i in ids * c.observationIds;
      var x :| x in bearing && x.id == i;
      assert Related(c, r, x);
    }
    var x, c :| x in bearing && c in conflicts && Related(c, r, x);
    assert x.id in ids * c.observationIds;
    assert IsRelated(c, ids, r.key);
    hide Related;
    assert Resolvers(ids, conflicts, r.key) == {id};
  }

  /** A settled conflict leaves the observation it was settled by alone: it is judged as if there were no other;
      if it does not bear on the requirement, the evidence is INVALID. */
  lemma {:induction false} SettledDecides(engine: Engine, candidate: Candidate, r: Requirement, s: set<Observation>,
                                          conflicts: set<Conflict>, id: Uuid)
    requires EngineOk(engine) && DistinctIds(s) && SettledBy(engine, candidate, r, s, conflicts, id)
    ensures (forall o :: o in BearingOf(engine, candidate, r, s) ==> o.id != id) ==>
              Evaluate(engine, candidate, r, s, conflicts).status == Invalid
              && Evaluate(engine, candidate, r, s, conflicts).reason == ResolutionUnavailable
    ensures forall o :: o in BearingOf(engine, candidate, r, s) && o.id == id ==>
              var e := Evaluate(engine, candidate, r, s, conflicts);
              var alone := ResolveConsidered(engine, r.criterion, {o}, Sorted(IdsOf(Relevant(candidate, r, s))));
              e == Judge(engine.units.folding, r, alone)
  {
    hide ResolveConsidered, RelatedResolution, Acceptable, BearingOf, SettledBy, Judge, Relevant;
    AcceptableBears(engine, candidate, r, s);
    BearingIsRelevant(engine, candidate, r, s);
    SettledResolution(engine, candidate, r, s, conflicts, id);
    SettledExists(engine, candidate, r, s, conflicts, id);
    var bearing := BearingOf(engine, candidate, r, s);
    forall o | o in bearing && o.id == id ensures (set x | x in bearing && x.id == id) == {o} {}
    RefusedIsRefused(engine.units.folding, r, Sorted(IdsOf(Relevant(candidate, r, s))));
  }

  lemma SettledExists(engine: Engine, candidate: Candidate, r: Requirement, s: set<Observation>,
                      conflicts: set<Conflict>, id: Uuid)
    requires SettledBy(engine, candidate, r, s, conflicts, id)
    ensures BearingOf(engine, candidate, r, s) != {}
  {
    hide BearingOf;
  }

  lemma RefusedIsRefused(folding: Folding, r: Requirement, ids: seq<Uuid>)
    ensures var e := Judge(folding, r, Refused(Invalid, ids, ResolutionUnavailable));
            e.status == Invalid && e.reason == ResolutionUnavailable
  {}

  // ----- Which observation is selected -----

  /** What the operator provided is trusted most, then what was observed, calculated and inferred. */
  lemma TrustOrder()
    ensures Rank(OperatorProvided) > Rank(Observed) > Rank(Calculated) > Rank(Inferred)
    ensures Rank(Inferred) > Rank(Contradictory) == Rank(Undetermined)
  {}

  /** Equal keys mean equal amounts, equal flags, equal dates, and texts equal up to case. */
  lemma {:induction false} KeysMean(folding: Folding, a: Scalar, b: Scalar)
    ensures forall x, y :: IsAmount(a, x) && IsAmount(b, y) ==> (KeyOf(folding, a) == KeyOf(folding, b) <==> x == y)
    ensures a.Words? && b.Words? ==>
              (KeyOf(folding, a) == KeyOf(folding, b) <==> folding.fold(a.text) == folding.fold(b.text))
    ensures a.Flag? && b.Flag? ==> (KeyOf(folding, a) == KeyOf(folding, b) <==> a.b == b.b)
    ensures a.Date? && b.Date? ==> (KeyOf(folding, a) == KeyOf(folding, b) <==> a.stamp == b.stamp)
    ensures KeyOf(folding, a) == KeyOf(folding, b) ==>
              && (a.NoValue? <==> b.NoValue?) && (a.Words? <==> b.Words?) && (a.Flag? <==> b.Flag?)
              && (a.Date? <==> b.Date?)
  {}

  /** A verdict rests on the most confident of the counting observations; among these on the most trusted kind,
      then on the latest retrieval, then on the greatest id. */
  lemma {:induction false} SelectedIsBest(engine: Engine, candidate: Candidate, r: Requirement, s: set<Observation>,
                                          conflicts: set<Conflict>, x: Observation)
      returns (o: Observation)
    requires EngineOk(engine) && DistinctIds(s)
    requires Undisputed(engine.units.folding, candidate, r, s, conflicts)
    requires Evaluate(engine, candidate, r, s, conflicts).status in {Satisfied, NotSatisfied}
    requires x in s && Bears(engine.units.folding, candidate, r, x) && Counting(engine, x)
    requires NormalizeValue(engine, r.criterion, x).Ok?
    ensures o in s && Evaluate(engine, candidate, r, s, conflicts).selected == Some(o.id)
    ensures x != o ==>
              || x.confidence < o.confidence
              || (x.confidence == o.confidence && Rank(x.classification) < Rank(o.classification))
              || (x.confidence == o.confidence && Rank(x.classification) == Rank(o.classification)
                  && (Below(x.retrievedAt, o.retrievedAt) || (x.retrievedAt == o.retrievedAt && Below(x.id, o.id))))
  {
    hide Evaluate, NormalizeValue, KeyOf, RelatedResolution, IsAcceptable;
    o := VerdictMeansAgreement(engine, candidate, r, s, conflicts);
    AcceptableBears(engine, candidate, r, s);
    UnrelatedHasNoConflict(engine, candidate, r, s, conflicts);
    var bearing := BearingOf(engine, candidate, r, s);
    assert Considered(r, bearing, conflicts) == bearing;
    assert x in bearing && Counts(engine, r.criterion, x);
  }
}
