/**
 * The validation scorer of the `useValidation` hook: it buckets an idea's
 * validation signals by type, adds fixed-weight bonuses, labels the result
 * with a confidence level and lists the next validation steps.
 */
module Validation {
  import opened Wrappers
  import opened Domain
  import opened Seqs

  datatype Confidence = Low | Medium | High | VeryHigh

  /** Number of signals per bucket, as reported in the result's `signals` object. */
  datatype Counts = Counts(surveys: nat, interviews: nat, landingPages: nat, prototypes: nat)

  /**
   * The result's `signals` field: an empty list when the idea has no
   * signals at all, otherwise an object with the four bucket counts.
   */
  datatype SignalSummary = NoSignals | Tally(counts: Counts)

  datatype Analysis = Analysis(score: int, confidence: Confidence,
                               recommendations: seq<string>, signals: SignalSummary)

  const StartWithSurveys: string := "Start with basic validation surveys"
  const StartWithInterviews: string := "Conduct user interviews"
  const RecommendSurveys: string := "Create and distribute validation surveys"
  const RecommendInterviews: string := "Conduct more user interviews (target: 5-10)"
  const RecommendLandingPage: string := "Create a landing page to test demand"
  const RecommendPrototype: string := "Build a simple prototype for user testing"

  /** The text the hook returns for each confidence level. */
  function ConfidenceLabel(c: Confidence): string {
    match c
    case Low => "low"
    case Medium => "medium"
    case High => "high"
    case VeryHigh => "very high"
  }

  /** Different confidence levels are reported with different texts. */
  lemma ConfidenceLabelsDistinct(a: Confidence, b: Confidence)
    ensures ConfidenceLabel(a) == ConfidenceLabel(b) <==> a == b
  {
  }

  function IsKind(k: SignalType): Signal -> bool {
    (s: Signal) => s.kind == k
  }

  /** The bucket of one type, as `signals.filter(s => s.type === k)`. */
  function OfKind(s: seq<Signal>, k: SignalType): seq<Signal> {
    Filter(s, IsKind(k))
  }

  /** The number of signals of type `k`. */
  function Count(s: seq<Signal>, k: SignalType): nat {
    |OfKind(s, k)|
  }

  /**
   * The conversion bonus of one landing-page signal: a missing rate reads as 0,
   * and each of the two strict thresholds adds 10.
   */
  function RateBonus(sig: Signal): int {
    var rate := sig.conversionRate.GetOr(0.0);
    (if rate > 0.05 then 10 else 0) + (if rate > 0.10 then 10 else 0)
  }

  /** The fixed-weight bonuses for the presence of each bucket. */
  function PresenceScore(surveys: nat, interviews: nat, landingPages: nat, prototypes: nat): int {
    (if surveys > 0 then 20 else 0)
    + (if interviews >= 3 then 30 else 0)
    + (if landingPages > 0 then 25 else 0)
    + (if prototypes > 0 then 25 else 0)
  }

  /** The score before the clamp to 100. */
  function RawScore(s: seq<Signal>): int {
    PresenceScore(Count(s, Survey), Count(s, Interview), Count(s, LandingPage), Count(s, Prototype))
    + SumBy(OfKind(s, LandingPage), RateBonus)
  }

  /**
   * The confidence level of a score, assigned as the hook does it: start
   * at low and raise the level at each threshold the score reaches.
   */
  function ConfidenceOf(score: int): (c: Confidence)
    ensures c == Low <==> score < 30
    ensures c == Medium <==> 30 <= score < 60
    ensures c == High <==> 60 <= score < 80
    ensures c == VeryHigh <==> 80 <= score
  {
    var c0 := Low;
    var c1 := if score >= 30 then Medium else c0;
    var c2 := if score >= 60 then High else c1;
    if score >= 80 then VeryHigh else c2
  }

  /** Position of a recommendation in the order the hook emits them. */
  function Rank(r: string): int {
    if r == RecommendSurveys then 0
    else if r == RecommendInterviews then 1
    else if r == RecommendLandingPage then 2
    else if r == RecommendPrototype then 3
    else 4
  }

  lemma RanksDiffer()
    ensures Rank(RecommendSurveys) == 0 && Rank(RecommendInterviews) == 1
    ensures Rank(RecommendLandingPage) == 2 && Rank(RecommendPrototype) == 3
  {
  }

  /**
   * The recommendations for a non-empty signal list: one per unmet
   * condition, in the fixed order surveys, interviews, landing page,
   * prototype; the prototype item also needs a score above 40.
   */
  function Recommendations(c: Counts, score: int): (r: seq<string>)
    ensures RecommendSurveys in r <==> c.surveys == 0
    ensures RecommendInterviews in r <==> c.interviews < 3
    ensures RecommendLandingPage in r <==> c.landingPages == 0
    ensures RecommendPrototype in r <==> c.prototypes == 0 && score > 40
    ensures forall i :: 0 <= i < |r| ==> Rank(r[i]) < 4
    ensures forall i, j :: 0 <= i < j < |r| ==> Rank(r[i]) < Rank(r[j])
  {
    RanksDiffer();
    (if c.surveys == 0 then [RecommendSurveys] else [])
    + (if c.interviews < 3 then [RecommendInterviews] else [])
    + (if c.landingPages == 0 then [RecommendLandingPage] else [])
    + (if c.prototypes == 0 && score > 40 then [RecommendPrototype] else [])
  }

  function Min(a: int, b: int): int {
    if a <= b then a else b
  }

  function CountsOf(s: seq<Signal>): Counts {
    Counts(Count(s, Survey), Count(s, Interview), Count(s, LandingPage), Count(s, Prototype))
  }

  /**
   * `analyzeValidationSignals(idea)`, given the idea's `validation_signals`
   * (absent when the idea was loaded without them). Confidence and the
   * prototype recommendation read the unclamped score, as the hook does; the
   * contract states both in terms of the returned, clamped score.
   */
  function Analyze(signals: Option<seq<Signal>>): (a: Analysis)
    ensures (signals.None? || signals.value == []) ==>
              a == Analysis(0, Low, [StartWithSurveys, StartWithInterviews], NoSignals)
    ensures signals.Some? && signals.value != [] ==>
              && a.score == Min(RawScore(signals.value), 100)
              && a.signals == Tally(CountsOf(signals.value))
              && a.recommendations == Recommendations(CountsOf(signals.value), a.score)
    ensures 0 <= a.score <= 100
    ensures a.confidence == ConfidenceOf(a.score)
  {
    if signals.None? || |signals.value| == 0 then
      Analysis(0, Low, [StartWithSurveys, StartWithInterviews], NoSignals)
    else
      var s := signals.value;
      var counts := CountsOf(s);
      var raw := RawScore(s);
      RawScoreNonNegative(s);
      Analysis(Min(raw, 100), ConfidenceOf(raw), Recommendations(counts, raw), Tally(counts))
  }

  /** Every contribution to the score is non-negative. */
  lemma RawScoreNonNegative(s: seq<Signal>)
    ensures RawScore(s) >= 0
  {
    var lp := OfKind(s, LandingPage);
    assert forall i :: 0 <= i < |lp| ==> RateBonus(lp[i]) >= 0;
    SumByNonNegative(lp, RateBonus);
  }

  /** A signal raises the count of its own type by one and no other count. */
  lemma CountAppend(s: seq<Signal>, x: Signal, k: SignalType)
    ensures Count(s + [x], k) == Count(s, k) + (if x.kind == k then 1 else 0)
  {
    FilterAppend(s, [x], IsKind(k));
  }

  /** Every signal lies in exactly one of the four buckets or is of type `other`. */
  lemma {:induction false} CountsPartition(s: seq<Signal>)
    ensures Count(s, Survey) + Count(s, Interview) + Count(s, LandingPage)
            + Count(s, Prototype) + Count(s, Other) == |s|
  {
    if |s| > 0 {
      var init := s[..|s| - 1];
      var x := s[|s| - 1];
      assert s == init + [x];
      CountsPartition(init);
      CountAppend(init, x, Survey);
      CountAppend(init, x, Interview);
      CountAppend(init, x, LandingPage);
      CountAppend(init, x, Prototype);
      CountAppend(init, x, Other);
    }
  }

  /**
   * The marginal effect of appending one signal on the unclamped score:
   * the first survey adds 20, the third interview adds 30 (the first two
   * add nothing), the first landing page adds 25 and every landing page its
   * conversion bonus, the first prototype adds 25, and `other` adds nothing.
   */
  lemma AppendSignalScore(s: seq<Signal>, x: Signal)
    ensures x.kind == Survey ==>
              RawScore(s + [x]) == RawScore(s) + (if Count(s, Survey) == 0 then 20 else 0)
    ensures x.kind == Interview ==>
              RawScore(s + [x]) == RawScore(s) + (if Count(s, Interview) == 2 then 30 else 0)
    ensures x.kind == LandingPage ==>
              RawScore(s + [x]) == RawScore(s) + (if Count(s, LandingPage) == 0 then 25 else 0) + RateBonus(x)
    ensures x.kind == Prototype ==>
              RawScore(s + [x]) == RawScore(s) + (if Count(s, Prototype) == 0 then 25 else 0)
    ensures x.kind == Other ==> RawScore(s + [x]) == RawScore(s) && CountsOf(s + [x]) == CountsOf(s)
  {
    CountAppend(s, x, Survey);
    CountAppend(s, x, Interview);
    CountAppend(s, x, LandingPage);
    CountAppend(s, x, Prototype);
    BonusAppend(s, x);
  }

  /** Only a landing-page signal adds its own conversion bonus to the sum of bonuses. */
  lemma BonusAppend(s: seq<Signal>, x: Signal)
    ensures SumBy(OfKind(s + [x], LandingPage), RateBonus)
            == SumBy(OfKind(s, LandingPage), RateBonus) + (if x.kind == LandingPage then RateBonus(x) else 0)
  {
    FilterAppend(s, [x], IsKind(LandingPage));
    SumByAppend(OfKind(s, LandingPage), OfKind([x], LandingPage), RateBonus);
  }

  /** Appending a signal of any type never lowers the returned score. */
  lemma AppendNeverLowersScore(s: seq<Signal>, x: Signal)
    ensures Analyze(Some(s + [x])).score >= Analyze(Some(s)).score
  {
    if s != [] {
      AppendSignalScore(s, x);
      assert RateBonus(x) >= 0;
    }
  }

  /** A signal of type `other` changes neither the score nor, on a non-empty list, anything else. */
  lemma OtherSignalIsIgnored(s: seq<Signal>, x: Signal)
    requires x.kind == Other
    ensures Analyze(Some(s + [x])).score == Analyze(Some(s)).score
    ensures s != [] ==> Analyze(Some(s + [x])) == Analyze(Some(s))
  {
    AppendSignalScore(s, x);
    if s == [] {
      assert RawScore([] + [x]) == RawScore([]) == 0;
    }
  }

  /** The analysis does not depend on the order in which signals were recorded. */
  lemma PermutationInvariant(s: seq<Signal>, t: seq<Signal>)
    requires multiset(s) == multiset(t)
    ensures Analyze(Some(s)) == Analyze(Some(t))
  {
    assert |s| == |multiset(s)| == |t|;
    FilterPermutation(s, t, IsKind(Survey));
    FilterPermutation(s, t, IsKind(Interview));
    FilterPermutation(s, t, IsKind(LandingPage));
    FilterPermutation(s, t, IsKind(Prototype));
    SumByPermutation(OfKind(s, LandingPage), OfKind(t, LandingPage), RateBonus);
  }

  /** One landing page converting at 12% contributes 25 + 10 + 10 = 45 on its own. */
  lemma HighConvertingLandingPage(ts: string)
    ensures RawScore([Signal(LandingPage, Some(0.12), ts)]) == 45
    ensures Analyze(Some([Signal(LandingPage, Some(0.12), ts)])).confidence == Medium
  {
    AppendSignalScore([], Signal(LandingPage, Some(0.12), ts));
    assert [] + [Signal(LandingPage, Some(0.12), ts)] == [Signal(LandingPage, Some(0.12), ts)];
  }
}
