/** Resolving the evidence for one requirement (evaluation/engine.py:63-345, 443-508). What an evaluation
    means is stated over sets of observations and conflicts; the methods work through sequences. */
module Evidence {
  import opened Wrappers
  import opened Text
  import opened Sorting
  import opened Normalization

  // ----- Contracts: domain/evidence.py, domain/procurement.py, evaluation/models.py -----

  /** A datetime: its instant and UTC offset, none when naive. */
  datatype Stamp = Stamp(instant: int, offset: Option<int>)

  datatype Scalar = NoValue | Words(text: string) | Whole(i: int) | Fraction(r: real) | Flag(b: bool)
    | Date(stamp: Stamp)

  datatype Classification = OperatorProvided | Observed | Calculated | Inferred | Contradictory | Undetermined

  datatype Observation = Observation(
    id: Uuid, revisionId: Uuid, candidateId: Option<Uuid>, requirementKey: string, evidenceType: Option<string>,
    value: Scalar,
    unit: Option<string>, classification: Classification, retrievedAt: string, confidence: real,
    freshUntil: Option<int>)

  datatype Conflict = Conflict(requirementKey: string, observationIds: set<Uuid>, resolvedBy: Option<Uuid>)

  datatype CriterionType = BooleanType | EnumType | NumberType | MoneyType | DateType | GeographyType
    | CertificationType | TextType | AssertionType

  datatype Operator = Equals | NotEquals | AtLeast | AtMost | In | Contains | Exists

  datatype Criterion = Criterion(
    kind: CriterionType, operator: Operator, target: Scalar, unit: Option<string>, currency: Option<string>,
    allowedValues: seq<string>, weight: real)

  datatype Priority = Mandatory | Preferred | Informational

  datatype Requirement = Requirement(key: string, priority: Priority, criterion: Criterion,
                                     acceptableEvidence: seq<string>)

  datatype Candidate = Candidate(id: Uuid, revisionId: Uuid, legalName: string, offeringName: string)

  datatype Status = Satisfied | NotSatisfied | Unknown | Conflicting | Stale | Invalid

  datatype Reason =
    | NoEvidence | NotAcceptable | UnresolvedConflict | ResolutionUnavailable | MarkedConflicting | AllStale
    | ExplicitlyUnknown
    | NotNormalizable(errors: set<NormalizationError>) | Disagreement | ResolvedEvidence
    | CriterionMet | CriterionNotMet | CriterionInvalid(error: NormalizationError)

  datatype Resolution = Resolution(status: Status, value: Scalar, unit: Option<string>, ids: seq<Uuid>,
                                   selected: Option<Uuid>, reason: Reason)

  datatype Evaluation = Evaluation(requirement: Requirement, status: Status, value: Scalar, unit: Option<string>,
                                   ids: seq<Uuid>, selected: Option<Uuid>, reason: Reason, earned: real, possible: real)

  datatype Engine = Engine(units: Units, table: Option<CurrencyTable>, asOf: int)

  ghost predicate EngineOk(engine: Engine) {
    UnitsOk(engine.units) && (engine.table.Some? ==> TableOk(engine.table.value))
  }

  // ----- Normalizing one observation: lines 63-141 -----

  function AsDecimal(value: Scalar): Result<real, NormalizationError> {
    match value
    case Whole(i) => Ok(i as real)
    case Fraction(r) => Ok(r)
    case _ => Err(NotNumeric)
  }

  function NormalizeNumber(engine: Engine, c: Criterion, o: Observation)
    : Result<(Scalar, Option<string>), NormalizationError>
    requires EngineOk(engine)
  {
    if o.unit.None? || c.unit.None? then Err(UnitsRequired)
    else
      match AsDecimal(o.value)
      case Err(error) => Err(error)
      case Ok(amount) =>
        match ConvertUnit(engine.units, amount, o.unit.value, c.unit.value)
        case Err(error) => Err(error)
        case Ok(converted) =>
          match CanonicalUnit(engine.units, c.unit.value)
          case Err(error) => Err(error)
          case Ok(unit) => Ok((Fraction(converted), Some(unit)))
  }

  function NormalizeMoney(engine: Engine, c: Criterion, o: Observation)
    : Result<(Scalar, Option<string>), NormalizationError>
    requires EngineOk(engine)
  {
    if o.unit.None? || c.currency.None? then Err(CurrenciesRequired)
    else
      match (AsDecimal(o.value), CurrencyCode(engine.units.folding, o.unit.value),
             CurrencyCode(engine.units.folding, c.currency.value))
      case (Err(error), _, _) => Err(error)
      case (_, Err(error), _) => Err(error)
      case (_, _, Err(error)) => Err(error)
      case (Ok(amount), Ok(source), Ok(target)) =>
        if source == target then Ok((Fraction(amount), Some(target)))
        else if engine.table.None? then Err(NoRateTable(source, target))
        else
          match ConvertCurrency(engine.units.folding, engine.table.value, amount, source, target)
          case Err(error) => Err(error)
          case Ok(converted) => Ok((Fraction(converted), Some(target)))
  }

  /** `_normalize_value`. */
  function NormalizeValue(engine: Engine, c: Criterion, o: Observation)
    : Result<(Scalar, Option<string>), NormalizationError>
    requires EngineOk(engine)
  {
    match c.kind
    case NumberType => NormalizeNumber(engine, c, o)
    case MoneyType => NormalizeMoney(engine, c, o)
    case BooleanType => if o.value.Flag? then Ok((o.value, None)) else Err(NotBoolean)
    case DateType => if o.value.Date? then Ok((o.value, None)) else Err(NotDate)
    case AssertionType => Ok((o.value, o.unit))
    case _ => if o.value.Words? then Ok((Words(Strip(o.value.text)), None)) else Err(NotText)
  }

  /** What two values must share to agree. */
  datatype ValueKey = FlagKey(b: bool) | NumberKey(r: real) | DateKey(stamp: Stamp) | TextKey(folded: string) | NoKey

  function KeyOf(folding: Folding, value: Scalar): ValueKey {
    match value
    case Flag(b) => FlagKey(b)
    case Fraction(r) => NumberKey(r)
    case Whole(i) => NumberKey(i as real)
    case Date(stamp) => DateKey(stamp)
    case Words(text) => TextKey(folding.fold(text))
    case NoValue => NoKey
  }

  // ----- Selection: lines 144-153 -----

  function Rank(c: Classification): nat {
    match c
    case OperatorProvided => 4
    case Observed => 3
    case Calculated => 2
    case Inferred => 1
    case _ => 0
  }

  /** `a` loses to `b` under the selection key. */
  predicate Worse(a: Observation, b: Observation) {
    || a.confidence < b.confidence
    || (a.confidence == b.confidence &&
        (|| Rank(a.classification) < Rank(b.classification)
         || (Rank(a.classification) == Rank(b.classification) &&
             (Below(a.retrievedAt, b.retrievedAt) || (a.retrievedAt == b.retrievedAt && Below(a.id, b.id))))))
  }

  lemma {:induction false} WorseTotal(a: Observation, b: Observation)
    ensures a.id == b.id || Worse(a, b) || Worse(b, a)
  {
    BelowTotal(a.retrievedAt, b.retrievedAt);
    BelowTotal(a.id, b.id);
  }

  lemma {:induction false} WorseTransitive(a: Observation, b: Observation, c: Observation)
    requires Worse(a, b) && Worse(b, c)
    ensures Worse(a, c)
  {
    if Below(a.retrievedAt, b.retrievedAt) && Below(b.retrievedAt, c.retrievedAt) {
      BelowTransitive(a.retrievedAt, b.retrievedAt, c.retrievedAt);
    }
    if Below(a.id, b.id) && Below(b.id, c.id) { BelowTransitive(a.id, b.id, c.id); }
  }

  lemma {:induction false} WorseIrreflexive(a: Observation)
    ensures !Worse(a, a)
  {
    BelowIrreflexive(a.retrievedAt);
    BelowIrreflexive(a.id);
  }

  ghost predicate DistinctIds(observations: set<Observation>) {
    forall a, b :: a in observations && b in observations && a.id == b.id ==> a == b
  }

  ghost predicate IsBest(o: Observation, s: set<Observation>) {
    o in s && forall x :: x in s && x != o ==> Worse(x, o)
  }

  lemma {:induction false} BestExists(s: set<Observation>) returns (best: Observation)
    requires s != {} && DistinctIds(s)
    ensures IsBest(best, s)
  {
    var x :| x in s;
    if s == {x} {
      best := x;
    } else {
      var y := BestExists(s - {x});
      WorseTotal(x, y);
      best := if Worse(y, x) then x else y;
      forall z | z in s && z != best ensures Worse(z, best) {
        if Worse(y, x) && z != y { WorseTransitive(z, y, x); }
      }
    }
  }

  lemma {:induction false} BestUnique(a: Observation, b: Observation, s: set<Observation>)
    requires IsBest(a, s) && IsBest(b, s)
    ensures a == b
  {
    if a != b {
      WorseTransitive(a, b, a);
      WorseIrreflexive(a);
    }
  }

  // ----- What an evaluation means -----

  ghost function Relevant(candidate: Candidate, r: Requirement, s: set<Observation>): set<Observation> {
    set o | o in s && o.revisionId == candidate.revisionId && o.candidateId == Some(candidate.id)
            && o.requirementKey == r.key
  }

  predicate IsAcceptable(folding: Folding, r: Requirement, o: Observation) {
    o.evidenceType.Some?
    && exists k ::
          0 <= k < |r.acceptableEvidence|
          && folding.fold(Strip(r.acceptableEvidence[k])) == folding.fold(Strip(o.evidenceType.value))
  }

  /** The relevant observations of an acceptable type; every type is acceptable when none is named. */
  ghost function Acceptable(folding: Folding, r: Requirement, relevant: set<Observation>): set<Observation> {
    if r.acceptableEvidence == [] then relevant else set o | o in relevant && IsAcceptable(folding, r, o)
  }

  datatype Related = Unresolved | ResolvedTo(id: Uuid) | NoConflict

  predicate IsRelated(c: Conflict, ids: set<Uuid>, key: string) {
    c.requirementKey == key && ids * c.observationIds != {}
  }

  predicate IsOpen(c: Conflict) {
    c.resolvedBy.None? || c.resolvedBy.value !in c.observationIds
  }

  ghost function Resolvers(ids: set<Uuid>, conflicts: set<Conflict>, key: string): set<Uuid> {
    set c | c in conflicts && IsRelated(c, ids, key) && c.resolvedBy.Some? :: c.resolvedBy.value
  }

  /** The related conflicts are all resolved by one and the same observation, or there is none. */
  ghost function RelatedResolution(ids: set<Uuid>, conflicts: set<Conflict>, key: string): Related {
    var resolvers := Resolvers(ids, conflicts, key);
    if (exists c :: c in conflicts && IsRelated(c, ids, key) && IsOpen(c)) || |resolvers| > 1 then Unresolved
    else if resolvers == {} then NoConflict
    else var id :| id in resolvers; ResolvedTo(id)
  }

  predicate IsFresh(engine: Engine, o: Observation) {
    o.freshUntil.None? || o.freshUntil.value >= engine.asOf
  }

  predicate IsUsable(o: Observation) {
    Rank(o.classification) > 0
  }

  ghost function UsableOf(engine: Engine, considered: set<Observation>): set<Observation> {
    set o | o in considered && IsFresh(engine, o) && IsUsable(o)
  }

  ghost function NormalizableOf(engine: Engine, c: Criterion, usable: set<Observation>): set<Observation>
    requires EngineOk(engine)
  {
    set o | o in usable && NormalizeValue(engine, c, o).Ok?
  }

  ghost function ErrorsOf(engine: Engine, c: Criterion, usable: set<Observation>): set<NormalizationError>
    requires EngineOk(engine)
  {
    set o | o in usable && NormalizeValue(engine, c, o).Err? :: NormalizeValue(engine, c, o).error
  }

  /** All normalized values have the same key. */
  ghost predicate Agrees(engine: Engine, c: Criterion, s: set<Observation>)
    requires EngineOk(engine) && forall o :: o in s ==> NormalizeValue(engine, c, o).Ok?
  {
    forall a, b :: a in s && b in s ==>
      KeyOf(engine.units.folding, NormalizeValue(engine, c, a).value.0)
      == KeyOf(engine.units.folding, NormalizeValue(engine, c, b).value.0)
  }

  function Refused(status: Status, ids: seq<Uuid>, reason: Reason): Resolution {
    Resolution(status, NoValue, None, ids, None, reason)
  }

  ghost function ResolveNormalized(engine: Engine, c: Criterion, usable: set<Observation>, ids: seq<Uuid>): Resolution
    requires EngineOk(engine) && DistinctIds(usable)
  {
    var normalizable := NormalizableOf(engine, c, usable);
    if normalizable == {} then Refused(Invalid, ids, NotNormalizable(ErrorsOf(engine, c, usable)))
    else if !Agrees(engine, c, normalizable) then Refused(Conflicting, ids, Disagreement)
    else
      assert exists best :: IsBest(best, normalizable) by { var best := BestExists(normalizable); }
      var best :| IsBest(best, normalizable);
      var normalized := NormalizeValue(engine, c, best).value;
      Resolution(Satisfied, normalized.0, normalized.1, ids, Some(best.id), ResolvedEvidence)
  }

  ghost function ResolveConsidered(engine: Engine, c: Criterion, considered: set<Observation>,
                                   ids: seq<Uuid>): Resolution
    requires EngineOk(engine) && DistinctIds(considered)
  {
    var usable := UsableOf(engine, considered);
    if usable != {} then ResolveNormalized(engine, c, usable, ids)
    else if exists o :: o in considered && !IsFresh(engine, o) then Refused(Stale, ids, AllStale)
    else Refused(Unknown, ids, ExplicitlyUnknown)
  }

  ghost function IdsOf(s: set<Observation>): set<Uuid> {
    set o | o in s :: o.id
  }

  ghost function ResolveAcceptable(engine: Engine, r: Requirement, acceptable: set<Observation>,
                                   conflicts: set<Conflict>, ids: seq<Uuid>): Resolution
    requires EngineOk(engine) && DistinctIds(acceptable)
  {
    match RelatedResolution(IdsOf(acceptable), conflicts, r.key)
    case Unresolved => Refused(Conflicting, ids, UnresolvedConflict)
    case ResolvedTo(id) =>
      if id !in IdsOf(acceptable) then Refused(Invalid, ids, ResolutionUnavailable)
      else ResolveConsidered(engine, r.criterion, (set o | o in acceptable && o.id == id), ids)
    case NoConflict =>
      if exists o :: o in acceptable && o.classification == Contradictory then
        Refused(Conflicting, ids, MarkedConflicting)
      else ResolveConsidered(engine, r.criterion, acceptable, ids)
  }

  ghost function Resolve(engine: Engine, candidate: Candidate, r: Requirement, s: set<Observation>,
                         conflicts: set<Conflict>): Resolution
    requires EngineOk(engine) && DistinctIds(s)
  {
    var relevant := Relevant(candidate, r, s);
    var ids := Sorted(IdsOf(relevant));
    if relevant == {} then Refused(Unknown, [], NoEvidence)
    else
      var acceptable := Acceptable(engine.units.folding, r, relevant);
      if acceptable == {} then Refused(Invalid, ids, NotAcceptable)
      else ResolveAcceptable(engine, r, acceptable, conflicts, ids)
  }

  // ----- The criterion: lines 348-440 -----

  function ComparableText(folding: Folding, value: Scalar): Result<string, NormalizationError> {
    if value.Words? then Ok(folding.fold(Strip(value.text))) else Err(NotText)
  }

  function Compare(operator: Operator, observed: real, target: real): Result<bool, NormalizationError> {
    match operator
    case Equals => Ok(observed == target)
    case NotEquals => Ok(observed != target)
    case AtLeast => Ok(observed >= target)
    case AtMost => Ok(observed <= target)
    case _ => Err(InvalidOperator)
  }

  function CompareDates(operator: Operator, observed: Stamp, target: Stamp): Result<bool, NormalizationError> {
    if observed.offset.None? || target.offset.None? then Err(NotAware)
    else
      match operator
      case Equals => Ok(observed.instant == target.instant)
      case NotEquals => Ok(observed.instant != target.instant)
      case AtLeast => Ok(observed.instant >= target.instant)
      case AtMost => Ok(observed.instant <= target.instant)
      case _ => Err(InvalidOperator)
  }

  function CompareEquality<T(==)>(operator: Operator, observed: T, target: T): Result<bool, NormalizationError> {
    match operator
    case Equals => Ok(observed == target)
    case NotEquals => Ok(observed != target)
    case _ => Err(InvalidOperator)
  }

  /** `needle in text`. */
  predicate Occurs(needle: string, text: string) {
    exists k :: 0 <= k <= |text| - |needle| && OccursAt(needle, text, k)
  }

  predicate OccursAt(needle: string, text: string, k: nat)
    requires k <= |text| - |needle|
  {
    text[k..k + |needle|] == needle
  }

  /** Python's `==` on evidence values: flags are the integers 0 and 1, aware dates compare as instants. */
  predicate SameScalar(a: Scalar, b: Scalar) {
    if Number(a).Some? && Number(b).Some? then Number(a) == Number(b)
    else if a.Date? && b.Date? && a.stamp.offset.Some? && b.stamp.offset.Some? then a.stamp.instant == b.stamp.instant
    else a == b
  }

  function Number(value: Scalar): Option<real> {
    match value
    case Whole(i) => Some(i as real)
    case Fraction(r) => Some(r)
    case Flag(b) => Some(if b then 1.0 else 0.0)
    case _ => None
  }

  /** `_criterion_satisfied`. */
  function CriterionSatisfied(folding: Folding, c: Criterion, value: Scalar): Result<bool, NormalizationError> {
    match c.operator
    case Exists => Ok(value != NoValue)
    case Contains =>
      (match (ComparableText(folding, c.target), ComparableText(folding, value))
       case (Err(error), _) => Err(error)
       case (_, Err(error)) => Err(error)
       case (Ok(target), Ok(observed)) => Ok(Occurs(target, observed)))
    case In =>
      if c.allowedValues == [] then Err(NoAllowedValues)
      else
        (match ComparableText(folding, value)
         case Err(error) => Err(error)
         case Ok(observed) =>
           Ok(exists k :: 0 <= k < |c.allowedValues| && folding.fold(Strip(c.allowedValues[k])) == observed))
    case _ =>
      match c.kind
      case NumberType => CompareNumbers(c, value)
      case MoneyType => CompareNumbers(c, value)
      case DateType =>
        if value.Date? && c.target.Date? then CompareDates(c.operator, value.stamp, c.target.stamp) else Err(NotDate)
      case BooleanType =>
        if value.Flag? && c.target.Flag? then CompareEquality(c.operator, value.b, c.target.b) else Err(NotBoolean)
      case AssertionType => if c.operator.Equals? then Ok(SameScalar(value, c.target))
                            else if c.operator.NotEquals? then Ok(!SameScalar(value, c.target))
                            else Err(InvalidOperator)
      case _ =>
        match (ComparableText(folding, value), ComparableText(folding, c.target))
        case (Err(error), _) => Err(error)
        case (_, Err(error)) => Err(error)
        case (Ok(observed), Ok(target)) => CompareEquality(c.operator, observed, target)
  }

  function CompareNumbers(c: Criterion, value: Scalar): Result<bool, NormalizationError> {
    match (AsDecimal(value), AsDecimal(c.target))
    case (Err(error), _) => Err(error)
    case (_, Err(error)) => Err(error)
    case (Ok(observed), Ok(target)) => Compare(c.operator, observed, target)
  }

  function PossibleWeight(r: Requirement): real {
    if r.priority.Preferred? then r.criterion.weight else 0.0
  }

  /** The evaluation that a resolution gives: lines 460-508. */
  function Judge(folding: Folding, r: Requirement, resolved: Resolution): Evaluation {
    var possible := PossibleWeight(r);
    if resolved.status != Satisfied then
      Evaluation(r, resolved.status, resolved.value, resolved.unit, resolved.ids, resolved.selected, resolved.reason,
                 0.0, possible)
    else
      match CriterionSatisfied(folding, r.criterion, resolved.value)
      case Err(error) =>
        Evaluation(r, Invalid, resolved.value, resolved.unit, resolved.ids, resolved.selected, CriterionInvalid(error),
                   0.0, possible)
      case Ok(satisfied) =>
        Evaluation(r, if satisfied then Satisfied else NotSatisfied, resolved.value, resolved.unit, resolved.ids,
                   resolved.selected,
                   if satisfied then CriterionMet else CriterionNotMet, if satisfied then possible else 0.0, possible)
  }

  /** `evaluate_requirement`, as a function of the sets of observations and conflicts. */
  ghost function Evaluate(engine: Engine, candidate: Candidate, r: Requirement, s: set<Observation>,
                          conflicts: set<Conflict>): Evaluation
    requires EngineOk(engine) && DistinctIds(s)
  {
    Judge(engine.units.folding, r, Resolve(engine, candidate, r, s, conflicts))
  }
}
