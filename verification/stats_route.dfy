/**
 * The dashboard statistics of the web API (`get_stats`): scan counts by
 * status, and over all findings the severity, triage and verdict
 * distributions, the risk figures and the review backlog.  Each aggregate
 * is a count over the table rows; the clock is the parameter `now`.
 */
module StatsRoute {
  import opened Common
  import opened ApiModels

  datatype SeverityDistribution = SeverityDistribution(critical: nat, high: nat, medium: nat, low: nat, info: nat, unknown: nat)

  datatype TriageDistribution = TriageDistribution(needsReview: nat, truePositive: nat, falsePositive: nat, acceptedRisk: nat, fixed: nat)

  datatype VerdictDistribution = VerdictDistribution(truePositive: nat, falsePositive: nat, needsReview: nat, error: nat)

  datatype StatsResponse = StatsResponse(
    totalScans: nat,
    totalFindings: nat,
    pendingScans: nat,
    runningScans: nat,
    completedScans: nat,
    failedScans: nat,
    severity: SeverityDistribution,
    triage: TriageDistribution,
    verdict: VerdictDistribution,
    averageRiskScore: real,
    criticalFindingsCount: nat,
    recentScansCount: nat,
    findingsNeedingReview: nat)

  // ------------------------------------------------------------ severity

  /** The five severity buckets; Semgrep's ERROR counts as high and WARNING as medium. */
  datatype Level = CriticalLevel | HighLevel | MediumLevel | LowLevel | InfoLevel

  /** `severity ILIKE word`. */
  predicate Is(v: Value, word: string) {
    Holds(ILikeEquals(v, word))
  }

  predicate InLevel(v: Value, l: Level) {
    match l
    case CriticalLevel => Is(v, "CRITICAL")
    case HighLevel => Is(v, "HIGH") || Is(v, "ERROR")
    case MediumLevel => Is(v, "MEDIUM") || Is(v, "WARNING")
    case LowLevel => Is(v, "LOW")
    case InfoLevel => Is(v, "INFO")
  }

  function HasLevel(l: Level): Finding -> bool {
    (f: Finding) => InLevel(f.severity, l)
  }

  /** The findings no bucket takes. */
  function NoLevel(): Finding -> bool {
    (f: Finding) => !InLevel(f.severity, CriticalLevel) && !InLevel(f.severity, HighLevel)
                    && !InLevel(f.severity, MediumLevel) && !InLevel(f.severity, LowLevel)
                    && !InLevel(f.severity, InfoLevel)
  }

  /** A severity is in at most one bucket. */
  lemma OneLevel(v: Value)
    ensures (if InLevel(v, CriticalLevel) then 1 else 0) + (if InLevel(v, HighLevel) then 1 else 0)
            + (if InLevel(v, MediumLevel) then 1 else 0) + (if InLevel(v, LowLevel) then 1 else 0)
            + (if InLevel(v, InfoLevel) then 1 else 0) <= 1
  {
    CriticalApart(v);
    HighApart(v);
    MediumApart(v);
    NotBoth(v, "LOW", "INFO");
  }

  lemma CriticalApart(v: Value)
    ensures Is(v, "CRITICAL") ==> !Is(v, "HIGH") && !Is(v, "ERROR") && !Is(v, "MEDIUM") && !Is(v, "WARNING")
                                  && !Is(v, "LOW") && !Is(v, "INFO")
  {
    NotBoth(v, "CRITICAL", "HIGH");
    NotBoth(v, "CRITICAL", "ERROR");
    NotBoth(v, "CRITICAL", "MEDIUM");
    NotBoth(v, "CRITICAL", "WARNING");
    NotBoth(v, "CRITICAL", "LOW");
    NotBoth(v, "CRITICAL", "INFO");
  }

  lemma HighApart(v: Value)
    ensures Is(v, "HIGH") || Is(v, "ERROR") ==> !Is(v, "MEDIUM") && !Is(v, "WARNING") && !Is(v, "LOW") && !Is(v, "INFO")
  {
    NotBoth(v, "HIGH", "MEDIUM");
    NotBoth(v, "HIGH", "WARNING");
    NotBoth(v, "HIGH", "LOW");
    NotBoth(v, "HIGH", "INFO");
    NotBoth(v, "ERROR", "MEDIUM");
    NotBoth(v, "ERROR", "WARNING");
    NotBoth(v, "ERROR", "LOW");
    NotBoth(v, "ERROR", "INFO");
  }

  lemma MediumApart(v: Value)
    ensures Is(v, "MEDIUM") || Is(v, "WARNING") ==> !Is(v, "LOW") && !Is(v, "INFO")
  {
    NotBoth(v, "MEDIUM", "LOW");
    NotBoth(v, "MEDIUM", "INFO");
    NotBoth(v, "WARNING", "LOW");
    NotBoth(v, "WARNING", "INFO");
  }

  /**
   * Two words that differ in length or in their first letter are never
   * both equal to a severity up to case.  The seven words of the buckets
   * differ in length, except HIGH and INFO, which differ in their first
   * letter.
   */
  lemma NotBoth(v: Value, a: string, b: string)
    requires a != "" && b != "" && (|a| != |b| || LowerChar(a[0]) != LowerChar(b[0]))
    ensures !(Is(v, a) && Is(v, b))
  {
  }

  /** The five buckets and the findings outside them account for every finding once. */
  lemma {:induction false} LevelsPartition(fs: seq<Finding>)
    ensures CountIf(fs, HasLevel(CriticalLevel)) + CountIf(fs, HasLevel(HighLevel)) + CountIf(fs, HasLevel(MediumLevel))
            + CountIf(fs, HasLevel(LowLevel)) + CountIf(fs, HasLevel(InfoLevel)) + CountIf(fs, NoLevel()) == |fs|
  {
    if fs != [] {
      LevelsPartition(fs[..|fs| - 1]);
      OneLevel(fs[|fs| - 1].severity);
    }
  }

  /** `SUM(CASE WHEN … THEN 1 ELSE 0 END)`: NULL over an empty table, the count otherwise. */
  function Sum(fs: seq<Finding>, p: Finding -> bool): (r: Option<nat>)
    ensures r.None? <==> fs == []
    ensures r.Some? ==> r.value == CountIf(fs, p)
  {
    if fs == [] then None else Some(CountIf(fs, p))
  }

  /** `value or 0` on an aggregate. */
  function OrZero(o: Option<nat>): nat {
    if o.Some? then o.value else 0
  }

  /**
   * `unknown` as the route computes it: the five raw sums are added, so an
   * empty table, whose sums are all NULL, raises a `TypeError`.
   */
  function UnknownAsWritten(fs: seq<Finding>): (r: Result<nat, string>)
    ensures r.Err? <==> fs == []
  {
    var c := Sum(fs, HasLevel(CriticalLevel));
    var h := Sum(fs, HasLevel(HighLevel));
    var m := Sum(fs, HasLevel(MediumLevel));
    var l := Sum(fs, HasLevel(LowLevel));
    var i := Sum(fs, HasLevel(InfoLevel));
    if c.None? || h.None? || m.None? || l.None? || i.None? then
      Err("unsupported operand type(s) for +: 'NoneType' and 'NoneType'")
    else
      Ok(Remainder(|fs|, c.value + h.value + m.value + l.value + i.value))
  }

  /** `max(0, total - bucketed)`. */
  function Remainder(total: nat, bucketed: nat): nat {
    Max(0, total - bucketed) as nat
  }

  /**
   * `unknown` with the `or 0` defaults the other buckets already use: the
   * number of findings in no bucket, zero for an empty table.
   */
  function Unknown(fs: seq<Finding>): (r: nat)
    ensures r == CountIf(fs, NoLevel())
  {
    LevelsPartition(fs);
    Remainder(|fs|, OrZero(Sum(fs, HasLevel(CriticalLevel))) + OrZero(Sum(fs, HasLevel(HighLevel)))
                    + OrZero(Sum(fs, HasLevel(MediumLevel))) + OrZero(Sum(fs, HasLevel(LowLevel)))
                    + OrZero(Sum(fs, HasLevel(InfoLevel))))
  }

  /** On a table with findings the route's own `unknown` is the corrected one. */
  lemma UnknownAgreesWhenNotEmpty(fs: seq<Finding>)
    requires fs != []
    ensures UnknownAsWritten(fs) == Ok(Unknown(fs))
  {
    var c := Sum(fs, HasLevel(CriticalLevel));
    var h := Sum(fs, HasLevel(HighLevel));
    var m := Sum(fs, HasLevel(MediumLevel));
    var l := Sum(fs, HasLevel(LowLevel));
    var i := Sum(fs, HasLevel(InfoLevel));
    assert c.Some? && h.Some? && m.Some? && l.Some? && i.Some?;
    assert OrZero(c) + OrZero(h) + OrZero(m) + OrZero(l) + OrZero(i) == c.value + h.value + m.value + l.value + i.value;
  }

  /** The severity distribution: each bucket, and `unknown` for the rest. */
  function Severities(fs: seq<Finding>): (r: SeverityDistribution)
    ensures r.critical + r.high + r.medium + r.low + r.info + r.unknown == |fs|
    ensures r.unknown == CountIf(fs, NoLevel())
  {
    LevelsPartition(fs);
    SeverityDistribution(
      OrZero(Sum(fs, HasLevel(CriticalLevel))), OrZero(Sum(fs, HasLevel(HighLevel))),
      OrZero(Sum(fs, HasLevel(MediumLevel))), OrZero(Sum(fs, HasLevel(LowLevel))),
      OrZero(Sum(fs, HasLevel(InfoLevel))), Unknown(fs))
  }

  // ------------------------------------------------------------ triage

  function HasTriage(t: TriageStatus): Finding -> bool {
    (f: Finding) => f.triage.status == t
  }

  /** The triage column is never NULL and has five values, so its counts split all findings. */
  lemma {:induction false} TriagePartition(fs: seq<Finding>)
    ensures CountIf(fs, HasTriage(NeedsReview)) + CountIf(fs, HasTriage(TruePositive)) + CountIf(fs, HasTriage(FalsePositive))
            + CountIf(fs, HasTriage(AcceptedRisk)) + CountIf(fs, HasTriage(Fixed)) == |fs|
  {
    if fs != [] {
      TriagePartition(fs[..|fs| - 1]);
    }
  }

  function Triages(fs: seq<Finding>): (r: TriageDistribution)
    ensures r.needsReview + r.truePositive + r.falsePositive + r.acceptedRisk + r.fixed == |fs|
  {
    TriagePartition(fs);
    TriageDistribution(
      CountIf(fs, HasTriage(NeedsReview)), CountIf(fs, HasTriage(TruePositive)), CountIf(fs, HasTriage(FalsePositive)),
      CountIf(fs, HasTriage(AcceptedRisk)), CountIf(fs, HasTriage(Fixed)))
  }

  // ------------------------------------------------------------ verdict

  /** The verdict distribution: case-insensitive substring counts, which may overlap. */
  function Verdicts(fs: seq<Finding>): (r: VerdictDistribution)
    ensures r.truePositive <= |fs| && r.falsePositive <= |fs| && r.needsReview <= |fs| && r.error <= |fs|
    ensures fs == [] ==> r == VerdictDistribution(0, 0, 0, 0)
  {
    VerdictDistribution(
      CountIf(fs, VerdictMentions("true positive")), CountIf(fs, VerdictMentions("false positive")),
      CountIf(fs, VerdictMentions("needs review")), CountIf(fs, VerdictMentions("error")))
  }

  /** A finding whose verdict text, lower-cased, contains `phrase`. */
  predicate MentionsVerdict(f: Finding, phrase: string) {
    f.ai.verdict.VStr? && Contains(Lower(f.ai.verdict.s), phrase)
  }

  /**
   * Each verdict count goes up by one for a further finding exactly when
   * that finding's verdict, lower-cased, contains the count's phrase; with
   * the empty table at zero this fixes every count.
   */
  lemma VerdictsSnoc(fs: seq<Finding>, f: Finding)
    ensures var a, b := Verdicts(fs), Verdicts(fs + [f]);
      && b.truePositive == a.truePositive + (if MentionsVerdict(f, "true positive") then 1 else 0)
      && b.falsePositive == a.falsePositive + (if MentionsVerdict(f, "false positive") then 1 else 0)
      && b.needsReview == a.needsReview + (if MentionsVerdict(f, "needs review") then 1 else 0)
      && b.error == a.error + (if MentionsVerdict(f, "error") then 1 else 0)
  {
    assert (fs + [f])[..|fs|] == fs;
    LowerTruePositive();
    LowerFalsePositive();
    VerdictPhrasesLower();
    LowerKeeps("true positive");
    LowerKeeps("false positive");
    LowerKeeps("needs review");
    LowerKeeps("error");
  }

  lemma VerdictPhrasesLower()
    ensures NoUpper("needs review") && NoUpper("error")
  {
    var n, e := "needs review", "error";
    forall i | 0 <= i < |n| ensures !IsUpperLetter(n[i]) { }
    forall i | 0 <= i < |e| ensures !IsUpperLetter(e[i]) { }
  }

  /** One verdict naming both outcomes is counted twice, so the counts can add up to more than the findings. */
  lemma VerdictCountsOverlap(f: Finding, mid: string)
    requires f.ai.verdict == VStr("true positive" + mid + "false positive")
    ensures Verdicts([f]).truePositive + Verdicts([f]).falsePositive == 2
  {
    var t := "true positive";
    var fp := "false positive";
    LowerTruePositive();
    LowerFalsePositive();
    MentionsAround(t, mid, fp);
    CountSingle(f, VerdictMentions(t));
    CountSingle(f, VerdictMentions(fp));
  }

  // ------------------------------------------------------------ risk

  /** A risk score is an integer column; anything else reads as NULL. */
  function Scored(): Finding -> bool {
    (f: Finding) => f.ai.riskScore.VInt?
  }

  /** The sum of the known risk scores. */
  function ScoreSum(fs: seq<Finding>): int {
    if fs == [] then 0
    else
      var f := fs[|fs| - 1];
      ScoreSum(fs[..|fs| - 1]) + (if f.ai.riskScore.VInt? then f.ai.riskScore.i else 0)
  }

  /** `float(AVG(risk_score) or 0)`: the mean of the known scores, 0 when none is known. */
  function AverageRisk(fs: seq<Finding>): (r: real)
    ensures CountIf(fs, Scored()) == 0 ==> r == 0.0
    ensures CountIf(fs, Scored()) > 0 ==> r * (CountIf(fs, Scored()) as real) == ScoreSum(fs) as real
  {
    var n := CountIf(fs, Scored());
    if n == 0 then 0.0 else ScoreSum(fs) as real / n as real
  }

  /** Scores within bounds keep their sum within the bounds times their number. */
  lemma {:induction false} ScoreSumBounds(fs: seq<Finding>, lo: int, hi: int)
    requires forall k :: 0 <= k < |fs| && fs[k].ai.riskScore.VInt? ==> lo <= fs[k].ai.riskScore.i <= hi
    ensures lo * CountIf(fs, Scored()) <= ScoreSum(fs) <= hi * CountIf(fs, Scored())
  {
    if fs != [] {
      var front, last := fs[..|fs| - 1], fs[|fs| - 1];
      ScoreSumBounds(front, lo, hi);
      var n, sum := CountIf(front, Scored()), ScoreSum(front);
      if last.ai.riskScore.VInt? {
        var x := last.ai.riskScore.i;
        assert CountIf(fs, Scored()) == n + 1 && ScoreSum(fs) == sum + x;
        BoundsStep(lo, hi, n, sum, x);
      } else {
        assert CountIf(fs, Scored()) == n && ScoreSum(fs) == sum;
      }
    }
  }

  lemma BoundsStep(lo: int, hi: int, n: nat, sum: int, x: int)
    requires lo * n <= sum <= hi * n && lo <= x <= hi
    ensures lo * (n + 1) <= sum + x <= hi * (n + 1)
  {
    assert lo * (n + 1) == lo * n + lo && hi * (n + 1) == hi * n + hi;
  }

  /** With every known score between 0 and 10, the average is between 0 and 10. */
  lemma AverageRiskInRange(fs: seq<Finding>)
    requires forall k :: 0 <= k < |fs| && fs[k].ai.riskScore.VInt? ==> 0 <= fs[k].ai.riskScore.i <= 10
    ensures 0.0 <= AverageRisk(fs) <= 10.0
  {
    var n := CountIf(fs, Scored());
    if n > 0 {
      ScoreSumBounds(fs, 0, 10);
      var total := ScoreSum(fs) as real;
      assert 0.0 <= total <= 10.0 * (n as real);
      assert AverageRisk(fs) == total / n as real;
      QuotientBounds(total, n as real, 10.0);
    }
  }

  lemma QuotientBounds(s: real, n: real, c: real)
    requires n > 0.0 && 0.0 <= s <= c * n
    ensures 0.0 <= s / n <= c
  {
    assert (s / n) * n == s;
  }

  /** `risk_score >= 8`. */
  function CriticalRisk(): Finding -> bool {
    (f: Finding) => f.ai.riskScore.VInt? && f.ai.riskScore.i >= 8
  }

  // ------------------------------------------------------------ scans

  function HasScanStatus(s: ScanStatus): Scan -> bool {
    (x: Scan) => x.status == s
  }

  /** The four reported scan counts leave out only the cancelled scans. */
  lemma {:induction false} ScanStatusPartition(scans: seq<Scan>)
    ensures CountIf(scans, HasScanStatus(Pending)) + CountIf(scans, HasScanStatus(Running)) + CountIf(scans, HasScanStatus(Completed))
            + CountIf(scans, HasScanStatus(Failed)) + CountIf(scans, HasScanStatus(Cancelled)) == |scans|
  {
    if scans != [] {
      ScanStatusPartition(scans[..|scans| - 1]);
    }
  }

  /** Seven days, in seconds. */
  const Week: real := 604800.0

  function CreatedSince(t: real): Scan -> bool {
    (x: Scan) => x.createdAt >= t
  }

  // ------------------------------------------------------------ the response

  /**
   * `get_stats` with the `or 0` default applied to `unknown` as well.  The
   * severity and triage distributions each account for every finding, the
   * reported scan counts leave out only the cancelled ones, and the review
   * backlog is the NEEDS_REVIEW triage count.
   */
  function GetStats(scans: seq<Scan>, fs: seq<Finding>, now: real): (r: StatsResponse)
    ensures r.totalScans == |scans| && r.totalFindings == |fs|
    ensures && r.pendingScans == CountIf(scans, HasScanStatus(Pending))
            && r.runningScans == CountIf(scans, HasScanStatus(Running))
            && r.completedScans == CountIf(scans, HasScanStatus(Completed))
            && r.failedScans == CountIf(scans, HasScanStatus(Failed))
    ensures r.severity == Severities(fs) && r.triage == Triages(fs) && r.verdict == Verdicts(fs)
    ensures r.averageRiskScore == AverageRisk(fs)
    ensures r.criticalFindingsCount == CountIf(fs, CriticalRisk())
    ensures r.recentScansCount == CountIf(scans, CreatedSince(now - Week))
    ensures r.pendingScans + r.runningScans + r.completedScans + r.failedScans
            == r.totalScans - CountIf(scans, HasScanStatus(Cancelled))
    ensures r.severity.critical + r.severity.high + r.severity.medium + r.severity.low
            + r.severity.info + r.severity.unknown == r.totalFindings
    ensures r.triage.needsReview + r.triage.truePositive + r.triage.falsePositive
            + r.triage.acceptedRisk + r.triage.fixed == r.totalFindings
    ensures r.findingsNeedingReview == r.triage.needsReview
    ensures r.criticalFindingsCount <= CountIf(fs, Scored())
  {
    ScanStatusPartition(scans);
    CountIfMono(fs, CriticalRisk(), Scored());
    StatsResponse(
      |scans|, |fs|,
      CountIf(scans, HasScanStatus(Pending)), CountIf(scans, HasScanStatus(Running)),
      CountIf(scans, HasScanStatus(Completed)), CountIf(scans, HasScanStatus(Failed)),
      Severities(fs), Triages(fs), Verdicts(fs),
      AverageRisk(fs),
      CountIf(fs, CriticalRisk()),
      CountIf(scans, CreatedSince(now - Week)),
      CountIf(fs, HasTriage(NeedsReview)))
  }

  /** `get_stats` as written: it fails on an empty findings table, and otherwise is `GetStats`. */
  function GetStatsAsWritten(scans: seq<Scan>, fs: seq<Finding>, now: real): (r: Result<StatsResponse, string>)
    ensures r.Err? <==> fs == []
    ensures r.Ok? ==> r.value == GetStats(scans, fs, now)
  {
    match UnknownAsWritten(fs)
    case Err(e) => Err(e)
    case Ok(_) => Ok(GetStats(scans, fs, now))
  }
}
