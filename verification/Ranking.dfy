/** Coverage, eligibility, score and ranking of candidates (evaluation/engine.py:511-632). */
module Ranking {
  import opened Wrappers
  import opened Text
  import opened Sorting
  import opened Normalization
  import opened Evidence
  import opened EvidenceResolver

  // ----- Coverage: lines 511-543 -----

  datatype Coverage = Coverage(
    total: nat, supported: nat, unknown: nat, conflicting: nat, stale: nat, invalid: nat, percent: real,
    mandatoryTotal: nat, mandatorySupported: nat, mandatoryPercent: real)

  function CountIf<T>(s: seq<T>, p: T -> bool): (n: nat)
    ensures n <= |s|
  {
    if s == [] then 0 else CountIf(s[1..], p) + if p(s[0]) then 1 else 0
  }

  predicate Supported(e: Evaluation) {
    e.status == Satisfied || e.status == NotSatisfied
  }

  predicate IsMandatory(e: Evaluation) {
    e.requirement.priority == Mandatory
  }

  function Percent(part: nat, whole: nat): real {
    if whole == 0 then 100.0 else part as real * 100.0 / whole as real
  }

  function StatusCount(evaluations: seq<Evaluation>, status: Status): nat {
    CountIf(evaluations, (e: Evaluation) => e.status == status)
  }

  function CoverageOf(evaluations: seq<Evaluation>): Coverage {
    var supported := CountIf(evaluations, Supported);
    var mandatory := Filter(evaluations, IsMandatory);
    var mandatorySupported := CountIf(mandatory, Supported);
    Coverage(|evaluations|, supported, StatusCount(evaluations, Unknown), StatusCount(evaluations, Conflicting),
             StatusCount(evaluations, Stale), StatusCount(evaluations, Invalid), Percent(supported, |evaluations|),
             |mandatory|, mandatorySupported, Percent(mandatorySupported, |mandatory|))
  }

  lemma {:induction false} ShareInRange(part: real, whole: real)
    requires 0.0 <= part <= whole && whole > 0.0
    ensures 0.0 <= part * 100.0 / whole <= 100.0
    ensures part * 100.0 / whole == 100.0 <==> part == whole
  {
    var q := part * 100.0 / whole;
    assert q * whole == part * 100.0;
    assert (100.0 - q) * whole == (whole - part) * 100.0;
    if part == whole { SameProduct(q, 100.0, whole); }
  }

  lemma {:induction false} PercentInRange(part: nat, whole: nat)
    requires part <= whole
    ensures 0.0 <= Percent(part, whole) <= 100.0
    ensures whole > 0 ==> (Percent(part, whole) == 100.0 <==> part == whole)
  {
    if whole > 0 { ShareInRange(part as real, whole as real); }
  }

  /** Every evaluation falls in exactly one category of the coverage. */
  lemma {:induction false} CoverageSums(evaluations: seq<Evaluation>)
    ensures var c := CoverageOf(evaluations);
            && c.supported + c.unknown + c.conflicting + c.stale + c.invalid == c.total == |evaluations|
            && c.mandatorySupported <= c.mandatoryTotal && 0.0 <= c.percent <= 100.0
            && 0.0 <= c.mandatoryPercent <= 100.0
  {
    CategoriesSum(evaluations);
    PercentInRange(CountIf(evaluations, Supported), |evaluations|);
    var mandatory := Filter(evaluations, IsMandatory);
    PercentInRange(CountIf(mandatory, Supported), |mandatory|);
  }

  lemma {:induction false} CategoriesSum(evaluations: seq<Evaluation>)
    ensures CountIf(evaluations, Supported) + StatusCount(evaluations, Unknown) + StatusCount(evaluations, Conflicting)
            + StatusCount(evaluations, Stale) + StatusCount(evaluations, Invalid) == |evaluations|
  {
    if evaluations != [] { CategoriesSum(evaluations[1..]); }
  }

  // ----- One candidate: lines 546-604 -----

  datatype CandidateEvaluation = CandidateEvaluation(
    candidate: Candidate, requirements: seq<Evaluation>, eligible: bool, score: real, coverage: Coverage,
    failedKeys: seq<string>, unresolvedKeys: seq<string>)

  function Earned(evaluations: seq<Evaluation>): real {
    if evaluations == [] then 0.0 else Earned(evaluations[..|evaluations| - 1]) + evaluations[|evaluations| - 1].earned
  }

  function Possible(evaluations: seq<Evaluation>): real {
    if evaluations == [] then 0.0
    else Possible(evaluations[..|evaluations| - 1]) + evaluations[|evaluations| - 1].possible
  }

  function Score(evaluations: seq<Evaluation>): real {
    if Possible(evaluations) == 0.0 then 0.0 else Earned(evaluations) * 100.0 / Possible(evaluations)
  }

  function Keys(evaluations: seq<Evaluation>): (keys: seq<string>)
    ensures |keys| == |evaluations|
  {
    seq(|evaluations|, k requires 0 <= k < |evaluations| => evaluations[k].requirement.key)
  }

  /** `evaluate_candidate`, from the evaluations of its requirements. */
  function Assess(candidate: Candidate, evaluations: seq<Evaluation>): CandidateEvaluation {
    var mandatory := Filter(evaluations, IsMandatory);
    var failed := Filter(mandatory, (e: Evaluation) => e.status == NotSatisfied);
    var unresolved := Filter(mandatory, (e: Evaluation) => !Supported(e));
    CandidateEvaluation(candidate, evaluations, failed == [] && unresolved == [], Score(evaluations),
                        CoverageOf(evaluations),
                        Keys(failed), Keys(unresolved))
  }

  /** A candidate is eligible exactly when every mandatory requirement is satisfied. */
  lemma {:induction false} EligibleIffMandatorySatisfied(candidate: Candidate, evaluations: seq<Evaluation>)
    ensures Assess(candidate, evaluations).eligible <==> forall e :: e in evaluations && IsMandatory(e) ==>
          e.status == Satisfied
  {
    var mandatory := Filter(evaluations, IsMandatory);
    var failed := Filter(mandatory, (e: Evaluation) => e.status == NotSatisfied);
    var unresolved := Filter(mandatory, (e: Evaluation) => !Supported(e));
    if failed != [] { assert failed[0] in failed; }
    if unresolved != [] { assert unresolved[0] in unresolved; }
    if failed == [] && unresolved == [] {
      forall e | e in evaluations && IsMandatory(e) ensures e.status == Satisfied {
        assert e in mandatory;
        assert e !in failed && e !in unresolved;
      }
    }
  }

  /** What a judgement puts into the weights. */
  ghost predicate WeightsOk(e: Evaluation) {
    e.possible >= 0.0 && (e.earned == 0.0 || e.earned == e.possible)
  }

  /** Only a satisfied, preferred requirement earns anything: its own weight. */
  lemma {:induction false} JudgeWeights(folding: Folding, r: Requirement, resolved: Resolution)
    requires r.criterion.weight >= 0.0
    ensures var e := Judge(folding, r, resolved);
            && WeightsOk(e) && e.possible == PossibleWeight(r)
            && (e.earned > 0.0 ==> e.status == Satisfied && r.priority.Preferred?)
            && (e.status == Satisfied ==> e.earned == e.possible)
  {
    hide CriterionSatisfied;
  }

  lemma {:induction false} EarnedBounded(evaluations: seq<Evaluation>)
    requires forall e :: e in evaluations ==> WeightsOk(e)
    ensures 0.0 <= Earned(evaluations) <= Possible(evaluations)
  {
    if evaluations != [] {
      var last := evaluations[|evaluations| - 1];
      assert last in evaluations && WeightsOk(last);
      EarnedBounded(evaluations[..|evaluations| - 1]);
    }
  }

  /** The score lies between 0 and 100. */
  lemma {:induction false} ScoreInRange(evaluations: seq<Evaluation>)
    requires forall e :: e in evaluations ==> WeightsOk(e)
    ensures 0.0 <= Score(evaluations) <= 100.0
  {
    EarnedBounded(evaluations);
    if Possible(evaluations) > 0.0 { ShareInRange(Earned(evaluations), Possible(evaluations)); }
  }

  predicate DistinctKeys(requirements: seq<Requirement>) {
    forall i, j :: 0 <= i < j < |requirements| ==> requirements[i].key != requirements[j].key
  }

  /** `evaluate_candidate`: None is the error for repeated requirement keys. */
  method EvaluateCandidate(engine: Engine, candidate: Candidate, requirements: seq<Requirement>,
                           observations: seq<Observation>, conflicts: seq<Conflict>)
      returns (result: Option<CandidateEvaluation>)
    requires EngineOk(engine) && DistinctSeq(observations) && forall r :: r in requirements ==>
          r.criterion.weight >= 0.0
    ensures DistinctIds(SetOf(observations)) && (result.Some? <==> DistinctKeys(requirements))
    ensures result.Some? ==>
              && |result.value.requirements| == |requirements|
              && (forall k :: 0 <= k < |requirements| ==>
                    result.value.requirements[k]
                    == Evaluate(engine, candidate, requirements[k], SetOf(observations), SetOf(conflicts)))
              && result.value == Assess(candidate, result.value.requirements)
              && 0.0 <= result.value.score <= 100.0
  {
    hide Resolve, CriterionSatisfied;
    DistinctSet(observations);
    if exists i, j :: 0 <= i < j < |requirements| && requirements[i].key == requirements[j].key { return None; }
    var evaluations: seq<Evaluation> := [];
    for k := 0 to |requirements|
      invariant |evaluations| == k
      invariant forall j :: 0 <= j < k ==>
            evaluations[j] == Evaluate(engine, candidate, requirements[j], SetOf(observations), SetOf(conflicts))
      invariant forall e :: e in evaluations ==> WeightsOk(e)
    {
      var e := EvaluateRequirement(engine, candidate, requirements[k], observations, conflicts);
      assert requirements[k] in requirements;
      JudgeWeights(engine.units.folding, requirements[k],
                   Resolve(engine, candidate, requirements[k], SetOf(observations), SetOf(conflicts)));
      evaluations := evaluations + [e];
    }
    ScoreInRange(evaluations);
    result := Some(Assess(candidate, evaluations));
  }

  // ----- Ranking: lines 607-632 -----

  /** The sort key, compared in order. */
  predicate RanksBefore(folding: Folding, a: CandidateEvaluation, b: CandidateEvaluation) {
    if a.eligible != b.eligible then a.eligible
    else if a.score != b.score then a.score > b.score
    else if a.coverage.mandatoryPercent != b.coverage.mandatoryPercent then
      a.coverage.mandatoryPercent > b.coverage.mandatoryPercent
    else if a.coverage.percent != b.coverage.percent then a.coverage.percent > b.coverage.percent
    else if folding.fold(a.candidate.legalName) != folding.fold(b.candidate.legalName) then
      Below(folding.fold(a.candidate.legalName), folding.fold(b.candidate.legalName))
    else if folding.fold(a.candidate.offeringName) != folding.fold(b.candidate.offeringName) then
      Below(folding.fold(a.candidate.offeringName), folding.fold(b.candidate.offeringName))
    else Below(a.candidate.id, b.candidate.id)
  }

  function Order(folding: Folding): (CandidateEvaluation, CandidateEvaluation) -> bool {
    (a: CandidateEvaluation, b: CandidateEvaluation) => RanksBefore(folding, a, b)
  }

  predicate DistinctCandidates(evaluations: seq<CandidateEvaluation>) {
    forall i, j :: 0 <= i < j < |evaluations| ==> evaluations[i].candidate.id != evaluations[j].candidate.id
  }

  lemma {:induction false} RanksTransitive(folding: Folding, a: CandidateEvaluation, b: CandidateEvaluation,
                                           c: CandidateEvaluation)
    requires RanksBefore(folding, a, b) && RanksBefore(folding, b, c)
    ensures RanksBefore(folding, a, c)
  {
    var la, lb, lc :=
      folding.fold(a.candidate.legalName), folding.fold(b.candidate.legalName), folding.fold(c.candidate.legalName);
    var oa, ob, oc := folding.fold(a.candidate.offeringName), folding.fold(b.candidate.offeringName),
                      folding.fold(c.candidate.offeringName);
    hide Below;
    if Below(la, lb) && Below(lb, lc) { BelowTransitive(la, lb, lc); BelowAsymmetric(la, lc); }
    if Below(oa, ob) && Below(ob, oc) { BelowTransitive(oa, ob, oc); BelowAsymmetric(oa, oc); }
    if Below(a.candidate.id, b.candidate.id) && Below(b.candidate.id, c.candidate.id) {
      BelowTransitive(a.candidate.id, b.candidate.id, c.candidate.id);
    }
  }

  lemma {:induction false} OrderIsStrict(folding: Folding)
    ensures StrictOrder(Order(folding))
  {
    forall x ensures !Order(folding)(x, x) { BelowIrreflexive(x.candidate.id); }
    forall x, y, z | Order(folding)(x, y) && Order(folding)(y, z)
      ensures Order(folding)(x, z)
    {
      RanksTransitive(folding, x, y, z);
    }
  }

  lemma {:induction false} OrderIsTotal(folding: Folding, a: CandidateEvaluation, b: CandidateEvaluation)
    requires a.candidate.id != b.candidate.id
    ensures RanksBefore(folding, a, b) || RanksBefore(folding, b, a)
  {
    hide Below;
    BelowTotal(folding.fold(a.candidate.legalName), folding.fold(b.candidate.legalName));
    BelowTotal(folding.fold(a.candidate.offeringName), folding.fold(b.candidate.offeringName));
    BelowTotal(a.candidate.id, b.candidate.id);
  }

  lemma {:induction false} CandidatesComparable(folding: Folding, evaluations: seq<CandidateEvaluation>)
    requires DistinctCandidates(evaluations)
    ensures Comparable(Order(folding), evaluations)
  {
    forall i, j | 0 <= i < j < |evaluations|
      ensures RanksBefore(folding, evaluations[i], evaluations[j])
           || RanksBefore(folding, evaluations[j], evaluations[i])
    {
      OrderIsTotal(folding, evaluations[i], evaluations[j]);
    }
  }

  datatype RankingResult = RankingResult(candidates: seq<CandidateEvaluation>, recommended: Option<Uuid>)

  /** `rank_candidates`: None is the error for repeated candidate ids. Ranks are positions from 1. */
  function RankCandidates(folding: Folding, evaluations: seq<CandidateEvaluation>): Option<RankingResult> {
    if !DistinctCandidates(evaluations) then None
    else
      var ordered := Sort(Order(folding), evaluations);
      Some(RankingResult(ordered, if ordered != [] && ordered[0].eligible then Some(ordered[0].candidate.id) else None))
  }

  /** The ranking is the one ascending permutation of the candidates. */
  lemma {:induction false} RankingIsTheSortedPermutation(folding: Folding, evaluations: seq<CandidateEvaluation>,
                                                         other: seq<CandidateEvaluation>)
    requires DistinctCandidates(evaluations)
    ensures var ranked := RankCandidates(folding, evaluations).value.candidates;
            && multiset(ranked) == multiset(evaluations) && Ascending(Order(folding), ranked)
            && (multiset(other) == multiset(evaluations) && Ascending(Order(folding), other) ==> other == ranked)
  {
    OrderIsStrict(folding);
    CandidatesComparable(folding, evaluations);
    SortAscending(Order(folding), evaluations);
    var ranked := Sort(Order(folding), evaluations);
    if multiset(other) == multiset(evaluations) && Ascending(Order(folding), other) {
      SameMembers(other, ranked);
      AscendingUnique(Order(folding), other, ranked);
    }
  }

  /** A member counted twice is at two places, and the other way round. */
  lemma {:induction false} TwicePlaced<T>(s: seq<T>, x: T) returns (i: nat, j: nat)
    requires multiset(s)[x] >= 2
    ensures i < j < |s| && s[i] == s[j] == x
  {
    var n := |s| - 1;
    assert s == s[..n] + [s[n]];
    if s[n] == x {
      assert x in multiset(s[..n]);
      i :| 0 <= i < n && s[i] == x;
      j := n;
    } else {
      i, j := TwicePlaced(s[..n], x);
    }
  }

  lemma {:induction false} TwiceCounted<T>(s: seq<T>, i: nat, j: nat)
    requires i < j < |s| && s[i] == s[j]
    ensures multiset(s)[s[i]] >= 2
  {
    assert s == s[..j] + [s[j]] + s[j + 1..];
    assert s[..j][i] == s[i];
  }

  lemma {:induction false} DistinctPermutation(a: seq<CandidateEvaluation>, b: seq<CandidateEvaluation>)
    requires multiset(a) == multiset(b) && DistinctCandidates(a)
    ensures DistinctCandidates(b)
  {
    SameMembers(a, b);
    forall i, j | 0 <= i < j < |b| ensures b[i].candidate.id != b[j].candidate.id {
      assert b[i] in a && b[j] in a;
      if b[i] == b[j] {
        TwiceCounted(b, i, j);
        var x, y := TwicePlaced(a, b[i]);
      }
    }
  }

  /** Whatever the order of the input, the result, or the refusal, is the same. */
  lemma {:induction false} RankingIgnoresOrder(folding: Folding, a: seq<CandidateEvaluation>,
                                               b: seq<CandidateEvaluation>)
    requires multiset(a) == multiset(b)
    ensures RankCandidates(folding, a) == RankCandidates(folding, b)
  {
    if DistinctCandidates(a) || DistinctCandidates(b) {
      if DistinctCandidates(a) { DistinctPermutation(a, b); } else { DistinctPermutation(b, a); }
      OrderIsStrict(folding);
      CandidatesComparable(folding, a);
      CandidatesComparable(folding, b);
      SortIsCanonical(Order(folding), a, b);
    }
  }

  /** No ineligible candidate precedes an eligible one, and scores fall along either group. */
  lemma {:induction false} EligibleFirst(folding: Folding, evaluations: seq<CandidateEvaluation>, i: nat, j: nat)
    requires DistinctCandidates(evaluations) && i < j < |RankCandidates(folding, evaluations).value.candidates|
    ensures var ranked := RankCandidates(folding, evaluations).value.candidates;
            && (ranked[j].eligible ==> ranked[i].eligible)
            && (ranked[i].eligible == ranked[j].eligible ==> ranked[i].score >= ranked[j].score)
  {
    RankingIsTheSortedPermutation(folding, evaluations, []);
    hide Sort;
    var ranked := RankCandidates(folding, evaluations).value.candidates;
    assert Order(folding)(ranked[i], ranked[j]);
  }

  /** A recommendation exists exactly when someone is eligible; it is an eligible candidate that no
      eligible candidate outscores. */
  lemma {:induction false} RecommendationIsBestEligible(folding: Folding, evaluations: seq<CandidateEvaluation>)
    requires DistinctCandidates(evaluations)
    ensures RankCandidates(folding, evaluations).value.recommended.Some? <==> exists e :: e in evaluations && e.eligible
    ensures forall e ::
          e in evaluations && RankCandidates(folding, evaluations).value.recommended == Some(e.candidate.id) ==>
              e.eligible && forall x :: x in evaluations && x.eligible ==> x.score <= e.score
  {
    var ranked := RankCandidates(folding, evaluations).value.candidates;
    RankingIsTheSortedPermutation(folding, evaluations, []);
    SameMembers(ranked, evaluations);
    hide Sort;
    forall x | x in evaluations && x.eligible ensures ranked != [] && ranked[0].eligible && x.score <= ranked[0].score {
      var k :| 0 <= k < |ranked| && ranked[k] == x;
      if k > 0 { EligibleFirst(folding, evaluations, 0, k); }
    }
    forall e | e in evaluations && ranked != [] && e.candidate.id == ranked[0].candidate.id ensures e == ranked[0] {
      assert ranked[0] in ranked;
      SameCandidate(evaluations, e, ranked[0]);
    }
    if ranked != [] { assert ranked[0] in ranked; }
  }

  lemma {:induction false} SameCandidate(evaluations: seq<CandidateEvaluation>, a: CandidateEvaluation,
                                         b: CandidateEvaluation)
    requires DistinctCandidates(evaluations) && a in evaluations && b in evaluations && a.candidate.id == b.candidate.id
    ensures a == b
  {}
}
