/**
 * The web API's records: scan and finding rows with their derived
 * properties, the conversion from a validated finding dictionary, the
 * pagination schema, and the database the routes and the scan service share.
 * Timestamps are seconds on one clock.
 */
module ApiModels {
  import opened Common

  // ------------------------------------------------------------ statuses

  /** The life cycle of a scan. */
  datatype ScanStatus = Pending | Running | Completed | Failed | Cancelled

  /** The stored value of a scan status. */
  function ScanStatusText(s: ScanStatus): string {
    match s
    case Pending => "pending"
    case Running => "running"
    case Completed => "completed"
    case Failed => "failed"
    case Cancelled => "cancelled"
  }

  /** `ScanStatus(text)`: exactly the status whose value is `text`. */
  function ParseScanStatus(text: string): (r: Option<ScanStatus>)
    ensures forall s :: ScanStatusText(s) == text <==> r == Some(s)
  {
    if text == "pending" then Some(Pending)
    else if text == "running" then Some(Running)
    else if text == "completed" then Some(Completed)
    else if text == "failed" then Some(Failed)
    else if text == "cancelled" then Some(Cancelled)
    else None
  }

  /** The triage state a person gives a finding. */
  datatype TriageStatus = NeedsReview | TruePositive | FalsePositive | AcceptedRisk | Fixed

  /** The stored value of a triage status. */
  function TriageStatusText(t: TriageStatus): string {
    match t
    case NeedsReview => "needs_review"
    case TruePositive => "true_positive"
    case FalsePositive => "false_positive"
    case AcceptedRisk => "accepted_risk"
    case Fixed => "fixed"
  }

  /** `TriageStatus(text)`: exactly the status whose value is `text`. */
  function ParseTriageStatus(text: string): (r: Option<TriageStatus>)
    ensures forall t :: TriageStatusText(t) == text <==> r == Some(t)
  {
    if text == "needs_review" then Some(NeedsReview)
    else if text == "true_positive" then Some(TruePositive)
    else if text == "false_positive" then Some(FalsePositive)
    else if text == "accepted_risk" then Some(AcceptedRisk)
    else if text == "fixed" then Some(Fixed)
    else None
  }

  // ------------------------------------------------------------ scans

  /** A row of the `scans` table. */
  datatype Scan = Scan(
    id: string,
    name: Option<string>,
    targetPath: string,
    rulesPath: Option<string>,
    status: ScanStatus,
    startedAt: Option<real>,
    completedAt: Option<real>,
    totalFindings: int,
    validatedFindings: int,
    errorMessage: Option<string>,
    createdAt: real)

  /** A scan as first stored: pending, with no counts, times or error. */
  function NewScan(id: string, name: Option<string>, targetPath: string, rulesPath: Option<string>, createdAt: real): (s: Scan)
    ensures s.status == Pending && s.totalFindings == 0 && s.validatedFindings == 0
    ensures s.startedAt.None? && s.completedAt.None? && s.errorMessage.None?
    ensures s.id == id && s.name == name && s.targetPath == targetPath && s.rulesPath == rulesPath
  {
    Scan(id, name, targetPath, rulesPath, Pending, None, None, 0, 0, None, createdAt)
  }

  /** `progress_percentage`. */
  function ProgressPercentage(s: Scan): (r: real)
    ensures s.totalFindings == 0 ==> r == (if s.status == Pending then 0.0 else 100.0)
    ensures s.totalFindings != 0 ==> r * (s.totalFindings as real) == (s.validatedFindings as real) * 100.0
  {
    if s.totalFindings == 0 then (if s.status == Pending then 0.0 else 100.0)
    else (s.validatedFindings as real / s.totalFindings as real) * 100.0
  }

  /** While the validated count stays within the total, the percentage is between 0 and 100. */
  lemma ProgressInRange(s: Scan)
    requires 0 <= s.validatedFindings <= s.totalFindings
    ensures 0.0 <= ProgressPercentage(s) <= 100.0
  {
    if s.totalFindings != 0 {
      var t := s.totalFindings as real;
      var v := s.validatedFindings as real;
      assert v / t <= 1.0 by {
        assert (v / t) * t == v;
      }
    }
  }

  /** `duration_seconds`: known only once the scan has both started and finished. */
  function DurationSeconds(s: Scan): (r: Option<real>)
    ensures r.Some? <==> s.startedAt.Some? && s.completedAt.Some?
    ensures r.Some? ==> s.startedAt.value + r.value == s.completedAt.value
  {
    if s.startedAt.Some? && s.completedAt.Some? then Some(s.completedAt.value - s.startedAt.value) else None
  }

  // ------------------------------------------------------------ findings

  /** The AI validation columns, as the validation dictionary gave them (`VNull` for a missing one). */
  datatype AiFields = AiFields(
    verdict: Value,
    confidence: Value,
    riskScore: Value,
    justification: Value,
    poc: Value,
    attackVectors: Value,
    triggerSteps: Value,
    recommendedFixes: Value,
    impactAssessment: Value,
    vulnerabilityCategory: Value,
    technicalDetails: Value)

  /** The triage columns. */
  datatype Triage = Triage(
    status: TriageStatus,
    note: Option<string>,
    updatedAt: Option<real>,
    updatedBy: Option<string>,
    assignee: Option<string>)

  /** A row of the `findings` table. */
  datatype Finding = Finding(
    id: string,
    scanId: string,
    ruleId: Value,
    severity: Value,
    message: Value,
    path: Value,
    line: Value,
    code: Value,
    ai: AiFields,
    triage: Triage,
    semgrepMetadata: Value,
    processingTime: Value,
    createdAt: real)

  /** A finding not yet triaged. */
  const Untriaged := Triage(NeedsReview, None, None, None, None)

  /** `is_true_positive`: unknown without a verdict, else whether the verdict mentions "true positive". */
  function IsTruePositive(f: Finding): (r: Result<Option<bool>, string>)
    ensures !Truthy(f.ai.verdict) ==> r == Ok(None)
    ensures f.ai.verdict.VStr? && f.ai.verdict.s != "" ==>
      r == Ok(Some(Contains(Lower(f.ai.verdict.s), "true positive")))
    ensures r.Err? <==> Truthy(f.ai.verdict) && !f.ai.verdict.VStr?
  {
    if !Truthy(f.ai.verdict) then Ok(None)
    else if f.ai.verdict.VStr? then Ok(Some(Contains(Lower(f.ai.verdict.s), "true positive")))
    else Err("object has no attribute 'lower'")
  }

  /**
   * The check is a substring test, so a verdict that merely ends in "true
   * positive" (say "Not a true positive") counts as one.
   */
  lemma NegatedVerdictCountsAsTruePositive(f: Finding, prefix: string)
    requires f.ai.verdict == VStr(prefix + "true positive")
    ensures IsTruePositive(f) == Ok(Some(true))
  {
    var t := "true positive";
    var s := prefix + t;
    LowerTruePositive();
    assert s[|prefix|..|prefix| + |t|] == t;
    LowerFinds(s, t, |prefix|);
  }

  /** The verdict words searched for hold no upper-case letter. */
  lemma LowerTruePositive()
    ensures NoUpper("true positive")
  {
    var t := "true positive";
    forall i | 0 <= i < |t| ensures !IsUpperLetter(t[i]) { }
  }

  lemma LowerFalsePositive()
    ensures NoUpper("false positive")
  {
    var t := "false positive";
    forall i | 0 <= i < |t| ensures !IsUpperLetter(t[i]) { }
  }

  /** The AI columns of `from_scan_finding`, read from the validation dictionary. */
  function AiFieldsOf(ai: Dict): (r: AiFields)
    ensures r.impactAssessment == Get(ai, "impact", VNull)
    ensures r.vulnerabilityCategory == Get(ai, "vulnerability", VNull)
    ensures r.technicalDetails == Get(ai, "technical", VNull)
    ensures r.verdict == Get(ai, "verdict", VNull) && r.riskScore == Get(ai, "risk_score", VNull)
  {
    AiFields(
      Get(ai, "verdict", VNull), Get(ai, "confidence", VNull), Get(ai, "risk_score", VNull),
      Get(ai, "justification", VNull), Get(ai, "poc", VNull), Get(ai, "attack_vectors", VNull),
      Get(ai, "trigger_steps", VNull), Get(ai, "recommended_fixes", VNull),
      Get(ai, "impact", VNull), Get(ai, "vulnerability", VNull), Get(ai, "technical", VNull))
  }

  /** No validation at all: every AI column is empty. */
  const NoAiFields := AiFields(VNull, VNull, VNull, VNull, VNull, VNull, VNull, VNull, VNull, VNull, VNull)

  /**
   * `Finding.from_scan_finding`: the Semgrep columns with their defaults, the
   * AI columns from `ai_validation` (renamed where the column name differs),
   * and the metadata.  An `ai_validation` that is not a dict has no `get`.
   */
  function FromScanFinding(id: string, scanId: string, d: Dict, createdAt: real): (r: Result<Finding, string>)
    ensures r.Err? <==> "ai_validation" in d && !d["ai_validation"].VDict?
    ensures r.Ok? ==> && r.value.id == id && r.value.scanId == scanId
                      && r.value.ruleId == Get(d, "rule_id", VStr("unknown"))
                      && r.value.severity == Get(d, "severity", VStr("UNKNOWN"))
                      && r.value.message == Get(d, "message", VStr(""))
                      && r.value.path == Get(d, "path", VStr(""))
                      && r.value.line == Get(d, "line", VInt(0))
                      && r.value.semgrepMetadata == Get(d, "metadata", VNull)
                      && r.value.triage == Untriaged
    ensures "ai_validation" !in d ==> r.Ok? && r.value.ai == NoAiFields
    ensures "ai_validation" in d && d["ai_validation"].VDict? ==> r.Ok? && r.value.ai == AiFieldsOf(d["ai_validation"].entries)
  {
    var ai := Get(d, "ai_validation", VDict(map[]));
    if !ai.VDict? then Err("object has no attribute 'get'")
    else
      Ok(Finding(id, scanId,
                 Get(d, "rule_id", VStr("unknown")), Get(d, "severity", VStr("UNKNOWN")),
                 Get(d, "message", VStr("")), Get(d, "path", VStr("")), Get(d, "line", VInt(0)),
                 Get(d, "code", VNull), AiFieldsOf(ai.entries), Untriaged,
                 Get(d, "metadata", VNull), Get(d, "processing_time", VNull), createdAt))
  }

  // ------------------------------------------------------------ SQL predicates

  /** `column ILIKE '%needle%'`: NULL for a NULL column; only text matches. */
  function ILikeContains(v: Value, needle: string): Option<bool> {
    if v.VNull? then None
    else if v.VStr? then Some(Contains(Lower(v.s), Lower(needle)))
    else Some(false)
  }

  /** A pattern match over SQL NULL is NULL, and over any other value is true or false. */
  lemma ILikeNull(v: Value, needle: string)
    ensures ILikeContains(v, needle).None? <==> v.VNull?
  {
  }

  /** `column ILIKE 'word'` for a pattern without wildcards: case-insensitive equality. */
  function ILikeEquals(v: Value, word: string): Option<bool> {
    if v.VNull? then None
    else if v.VStr? then Some(EqualIgnoringCase(v.s, word))
    else Some(false)
  }

  /** A filter keeps a row only when its condition is true, not false or NULL. */
  predicate Holds(b: Option<bool>) {
    b == Some(true)
  }

  /** `verdict ILIKE '%word%'` as a row test. */
  function VerdictMentions(word: string): Finding -> bool {
    (f: Finding) => Holds(ILikeContains(f.ai.verdict, word))
  }

  /** `severity ILIKE 'word'` as a row test. */
  function SeverityIs(word: string): Finding -> bool {
    (f: Finding) => Holds(ILikeEquals(f.severity, word))
  }

  /** A text without upper-case letters. */
  predicate NoUpper(t: string) {
    forall i :: 0 <= i < |t| ==> !IsUpperLetter(t[i])
  }

  /** A text made of no upper-case letters is its own lower-case form. */
  lemma LowerKeeps(t: string)
    requires NoUpper(t)
    ensures Lower(t) == t
  {
  }

  /** A lower-case word inside any text is found by the case-insensitive test. */
  lemma MentionedInside(pre: string, word: string, post: string)
    requires NoUpper(word)
    ensures ILikeContains(VStr(pre + word + post), word) == Some(true)
  {
    var s := pre + word + post;
    assert s[|pre|..|pre| + |word|] == word;
    MentionedAt(s, word, |pre|);
  }

  /** A lower-case word standing at some position of a text is found in it. */
  lemma MentionedAt(s: string, word: string, at: nat)
    requires NoUpper(word) && at + |word| <= |s| && s[at..at + |word|] == word
    ensures ILikeContains(VStr(s), word) == Some(true)
  {
    LowerKeeps(word);
    LowerFinds(s, word, at);
  }

  /** A lower-case word standing at some position of a text occurs in its lower-case form. */
  lemma LowerFinds(s: string, word: string, at: nat)
    requires NoUpper(word) && at + |word| <= |s| && s[at..at + |word|] == word
    ensures Contains(Lower(s), word)
  {
    var l := Lower(s);
    forall i | 0 <= i < |word|
      ensures l[at + i] == word[i]
    {
      assert s[at + i] == word[i];
    }
    assert l[at..at + |word|] == word;
    assert OccursAt(l, word, at);
  }

  /** Both ends of `a + mid + b` are found, when neither holds an upper-case letter. */
  lemma MentionsAround(a: string, mid: string, b: string)
    requires NoUpper(a) && NoUpper(b)
    ensures ILikeContains(VStr(a + mid + b), a) == Some(true)
    ensures ILikeContains(VStr(a + mid + b), b) == Some(true)
  {
    var s := a + mid + b;
    assert s[0..|a|] == a;
    MentionedAt(s, a, 0);
    assert s[|a| + |mid|..|a| + |mid| + |b|] == b;
    MentionedAt(s, b, |a| + |mid|);
  }

  // ------------------------------------------------------------ requests

  /** The error a route raises: an HTTP status and its detail text. */
  datatype HttpError = HttpError(status: int, detail: string)

  /** An optional request string that Python treats as given (`if value:`): present and non-empty. */
  predicate Given(o: Option<string>) {
    o.Some? && o.value != ""
  }

  // ------------------------------------------------------------ pagination

  /** Page number and page size. */
  datatype PaginationParams = PaginationParams(page: int, pageSize: int)

  /** `PaginationParams` field constraints: page ≥ 1 and 1 ≤ page_size ≤ 100. */
  predicate ValidPagination(p: PaginationParams) {
    p.page >= 1 && 1 <= p.pageSize <= 100
  }

  const DefaultPagination := PaginationParams(1, 20)

  /** Sort field and direction. */
  datatype SortParams = SortParams(sortBy: string, sortOrder: string)

  /** `SortParams` constraint: the order is `asc` or `desc`. */
  predicate ValidSort(s: SortParams) {
    s.sortOrder == "asc" || s.sortOrder == "desc"
  }

  const DefaultSort := SortParams("created_at", "desc")

  /** `(total + page_size - 1) // page_size`. */
  function TotalPages(total: nat, pageSize: int): (n: nat)
    requires pageSize >= 1
    ensures total == 0 ==> n == 0
    ensures total > 0 ==> (n - 1) * pageSize < total <= n * pageSize
  {
    var n := (total + pageSize - 1) / pageSize;
    assert n * pageSize <= total + pageSize - 1 < (n + 1) * pageSize;
    n
  }

  /** A page of results. */
  datatype PaginatedResponse<T> = PaginatedResponse(items: seq<T>, total: nat, page: int, pageSize: int, totalPages: nat)

  /** `PaginatedResponse.create`: the inputs are copied and the page count derived. */
  function CreatePage<T>(items: seq<T>, total: nat, p: PaginationParams): (r: PaginatedResponse<T>)
    requires ValidPagination(p)
    ensures r.items == items && r.total == total && r.page == p.page && r.pageSize == p.pageSize
    ensures r.totalPages == TotalPages(total, p.pageSize)
  {
    PaginatedResponse(items, total, p.page, p.pageSize, TotalPages(total, p.pageSize))
  }

  /** `OFFSET (page - 1) * page_size LIMIT page_size` over rows already filtered and ordered. */
  function PageOf<T>(rows: seq<T>, page: int, pageSize: int): (r: seq<T>)
    requires page >= 1 && pageSize >= 1
    ensures |r| <= pageSize
    ensures forall k :: 0 <= k < |r| ==> (page - 1) * pageSize + k < |rows| && r[k] == rows[(page - 1) * pageSize + k]
    ensures (page - 1) * pageSize < |rows| ==> |r| == Min(|rows| - (page - 1) * pageSize, pageSize)
    ensures (page - 1) * pageSize >= |rows| ==> r == []
  {
    MulMonotone(0, page - 1, pageSize);
    Window(rows, (page - 1) * pageSize, pageSize)
  }

  /** The rows from `offset` on, at most `size` of them. */
  function Window<T>(rows: seq<T>, offset: nat, size: nat): (r: seq<T>)
    ensures |r| <= size
    ensures forall k :: 0 <= k < |r| ==> offset + k < |rows| && r[k] == rows[offset + k]
    ensures offset < |rows| ==> |r| == Min(|rows| - offset, size)
    ensures offset >= |rows| ==> r == []
  {
    if offset >= |rows| then [] else rows[offset..Min(|rows|, offset + size)]
  }

  /** Every row of a page is one of the rows paged. */
  lemma PageFrom<T>(rows: seq<T>, page: int, pageSize: int)
    requires page >= 1 && pageSize >= 1
    ensures forall x :: x in PageOf(rows, page, pageSize) ==> x in rows
  {
    var r := PageOf(rows, page, pageSize);
    var offset := (page - 1) * pageSize;
    forall x | x in r
      ensures x in rows
    {
      var k :| 0 <= k < |r| && r[k] == x;
      assert offset + k < |rows| && r[k] == rows[offset + k];
    }
  }

  lemma MulMonotone(a: int, b: int, c: int)
    requires a <= b && c >= 0
    ensures a * c <= b * c
  {
    assert b * c - a * c == (b - a) * c;
  }

  /** Row `k` is on page `k / page_size + 1`, and that page is within `total_pages`. */
  lemma RowOnItsPage<T>(rows: seq<T>, k: nat, pageSize: int)
    requires k < |rows| && pageSize >= 1
    ensures var page := k / pageSize + 1;
      && 1 <= page <= TotalPages(|rows|, pageSize)
      && k - (page - 1) * pageSize < |PageOf(rows, page, pageSize)|
      && PageOf(rows, page, pageSize)[k - (page - 1) * pageSize] == rows[k]
  {
    var q := k / pageSize;
    var m := k % pageSize;
    assert k == q * pageSize + m && 0 <= m < pageSize;
    var n := TotalPages(|rows|, pageSize);
    if q + 1 > n {
      MulMonotone(n, q, pageSize);
      assert false;
    }
    var r := PageOf(rows, q + 1, pageSize);
    assert (q + 1 - 1) * pageSize == q * pageSize;
    assert |r| == Min(|rows| - q * pageSize, pageSize);
  }

  /** Row `k` named by its page, within `total_pages`, and its position on that page. */
  lemma RowPage<T>(rows: seq<T>, k: nat, pageSize: int) returns (page: int, off: nat)
    requires k < |rows| && pageSize >= 1
    ensures 1 <= page <= TotalPages(|rows|, pageSize)
    ensures off < |PageOf(rows, page, pageSize)| && PageOf(rows, page, pageSize)[off] == rows[k]
  {
    RowOnItsPage(rows, k, pageSize);
    page := k / pageSize + 1;
    off := k - (page - 1) * pageSize;
  }

  // ------------------------------------------------------------ database

  /** The tables the API reads and writes. */
  class Database {
    var scans: map<string, Scan>
    var findings: seq<Finding>

    /** Every scan is stored under its own id. */
    ghost predicate Valid()
      reads this
    {
      forall id :: id in scans ==> scans[id].id == id
    }

    constructor ()
      ensures scans == map[] && findings == []
      ensures Valid()
    {
      scans := map[];
      findings := [];
    }
  }
}
