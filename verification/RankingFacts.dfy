/** What scores, coverage and ranks mean (evaluation/engine.py:511-632). */
module RankingFacts {
  import opened Wrappers
  import opened Text
  import opened Sorting
  import opened Normalization
  import opened Evidence
  import opened EvidenceResolver
  import opened Ranking

  // ----- Scores -----

  /** Weights add up along the evaluations, each counted once. */
  lemma {:induction false} WeightsAdd(a: seq<Evaluation>, b: seq<Evaluation>)
    ensures Earned(a + b) == Earned(a) + Earned(b) && Possible(a + b) == Possible(a) + Possible(b)
    decreases |b|
  {
    if b == [] {
      assert a + b == a;
    } else {
      var n := |b| - 1;
      assert (a + b)[..|a + b| - 1] == a + b[..n];
      WeightsAdd(a, b[..n]);
    }
  }

  lemma OneWeight(e: Evaluation)
    ensures Earned([e]) == e.earned && Possible([e]) == e.possible
  {}

  /** The score is the earned share of the possible weight in percent, and zero when there is nothing to earn. */
  lemma {:induction false} ScoreIsShare(evaluations: seq<Evaluation>)
    ensures Score(evaluations) * Possible(evaluations) == Earned(evaluations) * 100.0 || Possible(evaluations) == 0.0
    ensures Possible(evaluations) == 0.0 ==> Score(evaluations) == 0.0
  {
    hide Earned, Possible;
    var earned, possible := Earned(evaluations), Possible(evaluations);
    if possible != 0.0 { assert earned * 100.0 / possible * possible == earned * 100.0; }
  }

  lemma {:induction false} Parts(evaluations: seq<Evaluation>, k: nat, e: Evaluation)
    requires k < |evaluations|
    ensures Earned(evaluations[k := e]) == Earned(evaluations) - evaluations[k].earned + e.earned
    ensures Possible(evaluations[k := e]) == Possible(evaluations) - evaluations[k].possible + e.possible
  {
    var before, after := evaluations[..k], evaluations[k + 1..];
    assert evaluations == before + [evaluations[k]] + after;
    assert evaluations[k := e] == before + [e] + after;
    WeightsAdd(before + [evaluations[k]], after);
    WeightsAdd(before, [evaluations[k]]);
    WeightsAdd(before + [e], after);
    WeightsAdd(before, [e]);
    OneWeight(e);
    OneWeight(evaluations[k]);
    hide Earned, Possible;
  }

  /** Earning the weight of one more requirement raises the score, by that weight's share. */
  lemma {:induction false} EarningRaisesScore(evaluations: seq<Evaluation>, k: nat, e: Evaluation)
    requires forall x :: x in evaluations ==> WeightsOk(x)
    requires k < |evaluations| && evaluations[k].earned == 0.0 && evaluations[k].possible > 0.0
    requires e == evaluations[k].(status := Satisfied, earned := evaluations[k].possible)
    ensures Score(evaluations[k := e]) > Score(evaluations)
    ensures (Score(evaluations[k := e]) - Score(evaluations)) * Possible(evaluations)
         == 100.0 * evaluations[k].possible
  {
    Parts(evaluations, k, e);
    EarnedBounded(evaluations);
    PossibleAtLeast(evaluations, k);
    ScoreIsShare(evaluations);
    ScoreIsShare(evaluations[k := e]);
    hide Earned, Possible, Score, WeightsOk;
    var gain := Score(evaluations[k := e]) - Score(evaluations);
    assert gain * Possible(evaluations)
        == Score(evaluations[k := e]) * Possible(evaluations) - Score(evaluations) * Possible(evaluations);
    if gain <= 0.0 { assert gain * Possible(evaluations) <= 0.0; }
  }

  lemma {:induction false} PossibleAtLeast(evaluations: seq<Evaluation>, k: nat)
    requires k < |evaluations| && forall x :: x in evaluations ==> WeightsOk(x)
    ensures Possible(evaluations) >= evaluations[k].possible
  {
    if k < |evaluations| - 1 {
      PossibleAtLeast(evaluations[..|evaluations| - 1], k);
      assert evaluations[|evaluations| - 1] in evaluations;
    } else {
      EarnedBounded(evaluations[..k]);
    }
  }

  /** With something to earn, the score is 100 exactly when every weight is earned. */
  lemma {:induction false} FullScoreIffAllEarned(evaluations: seq<Evaluation>)
    requires forall x :: x in evaluations ==> WeightsOk(x)
    requires Possible(evaluations) > 0.0
    ensures Score(evaluations) == 100.0 <==> forall x :: x in evaluations ==> x.earned == x.possible
  {
    EarnedBounded(evaluations);
    ShareInRange(Earned(evaluations), Possible(evaluations));
    AllEarned(evaluations);
    hide Earned, Possible;
  }

  lemma {:induction false} AllEarned(evaluations: seq<Evaluation>)
    requires forall x :: x in evaluations ==> WeightsOk(x)
    ensures Earned(evaluations) == Possible(evaluations) <==> forall x :: x in evaluations ==> x.earned == x.possible
  {
    if evaluations != [] {
      var n := |evaluations| - 1;
      assert evaluations == evaluations[..n] + [evaluations[n]];
      AllEarned(evaluations[..n]);
      EarnedBounded(evaluations[..n]);
      assert WeightsOk(evaluations[n]);
    }
  }

  // ----- Coverage -----

  /** The places at which something holds. */
  ghost function Places<T(!new)>(s: seq<T>, p: T -> bool): set<int> {
    set k | 0 <= k < |s| && p(s[k])
  }

  lemma {:induction false} CountAppends<T>(s: seq<T>, x: T, p: T -> bool)
    ensures CountIf(s + [x], p) == CountIf(s, p) + if p(x) then 1 else 0
  {
    if s == [] {
      assert [x][1..] == [];
    } else {
      assert (s + [x])[1..] == s[1..] + [x];
      CountAppends(s[1..], x, p);
    }
  }

  lemma {:induction false} CountIsPlaces<T(!new)>(s: seq<T>, p: T -> bool)
    ensures CountIf(s, p) == |Places(s, p)|
  {
    if s != [] {
      var n := |s| - 1;
      assert s == s[..n] + [s[n]];
      CountAppends(s[..n], s[n], p);
      CountIsPlaces(s[..n], p);
      assert Places(s, p) == Places(s[..n], p) + (if p(s[n]) then {n} else {});
    }
  }

  lemma {:induction false} FilterCounts<T(!new)>(s: seq<T>, p: T -> bool)
    ensures |Filter(s, p)| == CountIf(s, p)
  {
    if s != [] { FilterCounts(s[1..], p); }
  }

  lemma {:induction false} FilteredCount(evaluations: seq<Evaluation>)
    ensures CountIf(Filter(evaluations, IsMandatory), Supported)
         == CountIf(evaluations, (e: Evaluation) => IsMandatory(e) && Supported(e))
  {
    if evaluations != [] { FilteredCount(evaluations[1..]); }
  }

  /** The evaluations with that status, by place. */
  ghost function WithAny(evaluations: seq<Evaluation>, statuses: set<Status>): set<int> {
    set k | 0 <= k < |evaluations| && evaluations[k].status in statuses
  }

  lemma {:induction false} StatusPlaces(evaluations: seq<Evaluation>, status: Status)
    ensures StatusCount(evaluations, status) == |WithAny(evaluations, {status})|
  {
    var p := (e: Evaluation) => e.status == status;
    CountIsPlaces(evaluations, p);
    assert Places(evaluations, p) == WithAny(evaluations, {status});
  }

  ghost function MandatoryAt(evaluations: seq<Evaluation>): set<int> {
    set k | 0 <= k < |evaluations| && evaluations[k].requirement.priority == Mandatory
  }

  lemma {:induction false} MandatoryPlaces(evaluations: seq<Evaluation>)
    ensures CountIf(Filter(evaluations, IsMandatory), Supported)
         == |MandatoryAt(evaluations) * WithAny(evaluations, {Satisfied, NotSatisfied})|
  {
    var both := (e: Evaluation) => IsMandatory(e) && Supported(e);
    FilteredCount(evaluations);
    CountIsPlaces(evaluations, both);
    assert Places(evaluations, both) == MandatoryAt(evaluations) * WithAny(evaluations, {Satisfied, NotSatisfied});
  }

  /** The coverage counts the evaluations by status, and among them the mandatory ones. */
  lemma {:induction false} CoverageMeans(evaluations: seq<Evaluation>)
    ensures var c := CoverageOf(evaluations);
            && c.total == |evaluations| && c.supported == |WithAny(evaluations, {Satisfied, NotSatisfied})|
            && c.unknown == |WithAny(evaluations, {Unknown})| && c.stale == |WithAny(evaluations, {Stale})|
            && c.conflicting == |WithAny(evaluations, {Conflicting})|
            && c.invalid == |WithAny(evaluations, {Invalid})|
            && c.mandatoryTotal == |MandatoryAt(evaluations)|
            && c.mandatorySupported
               == |MandatoryAt(evaluations) * WithAny(evaluations, {Satisfied, NotSatisfied})|
  {
    hide CountIf, Filter, Percent, StatusCount;
    CountIsPlaces(evaluations, Supported);
    assert Places(evaluations, Supported) == WithAny(evaluations, {Satisfied, NotSatisfied});
    CountIsPlaces(evaluations, IsMandatory);
    FilterCounts(evaluations, IsMandatory);
    assert Places(evaluations, IsMandatory) == MandatoryAt(evaluations);
    MandatoryPlaces(evaluations);
    hide WithAny, Places, MandatoryAt;
    StatusPlaces(evaluations, Unknown);
    StatusPlaces(evaluations, Stale);
    StatusPlaces(evaluations, Conflicting);
    StatusPlaces(evaluations, Invalid);
  }

  /** Its percentages are the supported shares, and 100 when there is nothing to support. */
  lemma {:induction false} PercentagesMean(evaluations: seq<Evaluation>)
    ensures var c := CoverageOf(evaluations);
            && (c.total > 0 ==> c.percent * c.total as real == 100.0 * c.supported as real)
            && (c.total == 0 ==> c.percent == 100.0)
            && (c.mandatoryTotal > 0 ==>
                  c.mandatoryPercent * c.mandatoryTotal as real == 100.0 * c.mandatorySupported as real)
            && (c.mandatoryTotal == 0 ==> c.mandatoryPercent == 100.0)
  {
    hide CountIf, Filter, Percent, StatusCount;
    var c := CoverageOf(evaluations);
    PercentIs(c.supported, c.total);
    PercentIs(c.mandatorySupported, c.mandatoryTotal);
  }

  lemma {:induction false} PercentIs(part: nat, whole: nat)
    ensures whole > 0 ==> Percent(part, whole) * whole as real == 100.0 * part as real
    ensures whole == 0 ==> Percent(part, whole) == 100.0
  {}

  lemma {:induction false} KeysOf(evaluations: seq<Evaluation>, key: string)
    ensures key in Keys(evaluations) <==> exists e :: e in evaluations && e.requirement.key == key
  {
    if key in Keys(evaluations) {
      var k :| 0 <= k < |evaluations| && Keys(evaluations)[k] == key;
      assert evaluations[k] in evaluations;
    }
    if e :| e in evaluations && e.requirement.key == key {
      var k :| 0 <= k < |evaluations| && evaluations[k] == e;
      assert Keys(evaluations)[k] == key;
    }
  }

  /** The failed keys are those of the mandatory requirements judged not satisfied, the unresolved ones those of
      the mandatory requirements without a verdict. */
  lemma {:induction false} ListedKeys(candidate: Candidate, evaluations: seq<Evaluation>, key: string)
    ensures key in Assess(candidate, evaluations).failedKeys
       <==> exists e :: e in evaluations && e.requirement.key == key && e.requirement.priority == Mandatory
                        && e.status == NotSatisfied
    ensures key in Assess(candidate, evaluations).unresolvedKeys
       <==> exists e :: e in evaluations && e.requirement.key == key && e.requirement.priority == Mandatory
                        && e.status !in {Satisfied, NotSatisfied}
  {
    var mandatory := Filter(evaluations, IsMandatory);
    KeysOf(Filter(mandatory, (e: Evaluation) => e.status == NotSatisfied), key);
    KeysOf(Filter(mandatory, (e: Evaluation) => !Supported(e)), key);
    hide Keys, CoverageOf, Score;
  }

  // ----- Tie-breakers -----

  /** Of two candidates that agree on eligibility and score, the one with the higher mandatory coverage comes first;
      then the higher coverage, then the lesser supplier name, offering name and id, names compared without
      case. */
  lemma {:induction false} TieBreakers(folding: Folding, evaluations: seq<CandidateEvaluation>, i: nat, j: nat)
    requires DistinctCandidates(evaluations) && i < j < |RankCandidates(folding, evaluations).value.candidates|
    ensures var ranked := RankCandidates(folding, evaluations).value.candidates;
            var a, b := ranked[i], ranked[j];
            var sameScore := a.eligible == b.eligible && a.score == b.score;
            var sameMandatory := sameScore && a.coverage.mandatoryPercent == b.coverage.mandatoryPercent;
            var sameCoverage := sameMandatory && a.coverage.percent == b.coverage.percent;
            var sameName := sameCoverage && folding.fold(a.candidate.legalName) == folding.fold(b.candidate.legalName);
            var sameOffering :=
              sameName && folding.fold(a.candidate.offeringName) == folding.fold(b.candidate.offeringName);
            && (sameScore ==> a.coverage.mandatoryPercent >= b.coverage.mandatoryPercent)
            && (sameMandatory ==> a.coverage.percent >= b.coverage.percent)
            && (sameCoverage && !sameName ==>
                  Below(folding.fold(a.candidate.legalName), folding.fold(b.candidate.legalName)))
            && (sameName && !sameOffering ==>
                  Below(folding.fold(a.candidate.offeringName), folding.fold(b.candidate.offeringName)))
            && (sameOffering ==> Below(a.candidate.id, b.candidate.id))
  {
    RankingIsTheSortedPermutation(folding, evaluations, []);
    hide Sort;
    var ranked := RankCandidates(folding, evaluations).value.candidates;
    assert Order(folding)(ranked[i], ranked[j]);
  }
}
