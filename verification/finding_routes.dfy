/**
 * The finding endpoints of the web API: the filtered, paged listing of a
 * scan's findings, one finding, its partial triage update, and the bulk
 * triage of several findings.  The rows a listing reads are given in the
 * order its `ORDER BY` asks for.
 */
module FindingRoutes {
  import opened Common
  import opened ApiModels

  // ------------------------------------------------------------ filters

  /** The query parameters of `list_findings` that select rows. */
  datatype FindingFilters = FindingFilters(
    severity: Option<string>,
    triageStatus: Option<string>,
    verdict: Option<string>,
    ruleId: Option<string>,
    pathContains: Option<string>,
    minRiskScore: Option<int>,
    maxRiskScore: Option<int>,
    assignee: Option<string>)

  const NoFilters := FindingFilters(None, None, None, None, None, None, None, None)

  /** The entries of a comma-separated parameter, each stripped. */
  function Entries(csv: string): (r: seq<string>)
    ensures |r| == |Split(csv, ',')|
    ensures forall i :: 0 <= i < |r| ==> r[i] == Strip(Split(csv, ',')[i])
  {
    var parts := Split(csv, ',');
    seq(|parts|, i requires 0 <= i < |parts| => Strip(parts[i]))
  }

  /** The severity levels asked for: each entry stripped and upper-cased. */
  function Severities(csv: string): (r: seq<string>)
    ensures |r| == |Split(csv, ',')|
    ensures forall i :: 0 <= i < |r| ==> r[i] == Upper(Strip(Split(csv, ',')[i]))
  {
    var e := Entries(csv);
    seq(|e|, i requires 0 <= i < |e| => Upper(e[i]))
  }

  /** The triage statuses among the entries; an entry naming no status is dropped. */
  function TriageChoices(entries: seq<string>): (r: seq<TriageStatus>)
    ensures forall t :: t in r <==> TriageStatusText(t) in entries
  {
    if entries == [] then []
    else
      var front := TriageChoices(entries[..|entries| - 1]);
      var last := entries[|entries| - 1];
      assert entries == entries[..|entries| - 1] + [last];
      match ParseTriageStatus(last)
      case Some(t) => front + [t]
      case None => front
  }

  /** `OR` of `verdict ILIKE '%word%'` over the words: some word is mentioned. */
  predicate AnyMention(v: Value, words: seq<string>)
    ensures AnyMention(v, words) <==> exists i :: 0 <= i < |words| && Holds(ILikeContains(v, words[i]))
  {
    if words == [] then false
    else
      assert forall i :: 1 <= i < |words| ==> words[i] == words[1..][i - 1];
      Holds(ILikeContains(v, words[0])) || AnyMention(v, words[1..])
  }

  /** The severity filter: applied when given, as exact equality with a listed level. */
  predicate SeverityPasses(q: FindingFilters, f: Finding) {
    Given(q.severity) ==> f.severity.VStr? && f.severity.s in Severities(q.severity.value)
  }

  /** The triage filter applies only when at least one entry names a status. */
  predicate TriageFilterOn(q: FindingFilters) {
    Given(q.triageStatus) && TriageChoices(Entries(q.triageStatus.value)) != []
  }

  predicate TriagePasses(q: FindingFilters, f: Finding) {
    TriageFilterOn(q) ==> f.triage.status in TriageChoices(Entries(q.triageStatus.value))
  }

  /** The risk bounds are inclusive and are applied whenever given, zero included; NULL never passes. */
  predicate RiskPasses(q: FindingFilters, f: Finding) {
    && (q.minRiskScore.Some? ==> f.ai.riskScore.VInt? && f.ai.riskScore.i >= q.minRiskScore.value)
    && (q.maxRiskScore.Some? ==> f.ai.riskScore.VInt? && f.ai.riskScore.i <= q.maxRiskScore.value)
  }

  /** All the `WHERE` conditions of `list_findings`. */
  function Selects(scanId: string, q: FindingFilters): Finding -> bool {
    (f: Finding) =>
      && f.scanId == scanId
      && SeverityPasses(q, f)
      && TriagePasses(q, f)
      && (Given(q.verdict) ==> AnyMention(f.ai.verdict, Entries(q.verdict.value)))
      && (Given(q.ruleId) ==> Holds(ILikeContains(f.ruleId, q.ruleId.value)))
      && (Given(q.pathContains) ==> Holds(ILikeContains(f.path, q.pathContains.value)))
      && RiskPasses(q, f)
      && (Given(q.assignee) ==> f.triage.assignee == q.assignee)
  }

  // ------------------------------------------------------------ list

  /**
   * `list_findings`: 404 for an unknown scan; otherwise one page of the
   * scan's findings that pass every filter, with their total and the page
   * count.
   */
  function ListFindings(scans: map<string, Scan>, ordered: seq<Finding>, scanId: string, q: FindingFilters, p: PaginationParams)
    : (r: Result<PaginatedResponse<Finding>, HttpError>)
    requires ValidPagination(p)
    ensures r.Err? <==> scanId !in scans
    ensures r.Err? ==> r.error == HttpError(404, "Scan not found")
    ensures r.Ok? ==> && r.value.total == CountIf(ordered, Selects(scanId, q))
                      && r.value.page == p.page && r.value.pageSize == p.pageSize
                      && r.value.totalPages == TotalPages(r.value.total, p.pageSize)
                      && r.value.items == PageOf(FilterSeq(ordered, Selects(scanId, q)), p.page, p.pageSize)
                      && |r.value.items| <= p.pageSize
    ensures r.Ok? ==> forall k :: 0 <= k < |r.value.items| ==>
                        r.value.items[k] in ordered && Selects(scanId, q)(r.value.items[k])
  {
    if scanId !in scans then Err(HttpError(404, "Scan not found"))
    else
      var matching := FilterSeq(ordered, Selects(scanId, q));
      var page := PageOf(matching, p.page, p.pageSize);
      PageFrom(matching, p.page, p.pageSize);
      assert forall k :: 0 <= k < |page| ==> page[k] in ordered && Selects(scanId, q)(page[k]) by {
        forall k | 0 <= k < |page|
          ensures page[k] in ordered && Selects(scanId, q)(page[k])
        {
          assert page[k] in matching;
          var i :| 0 <= i < |matching| && matching[i] == page[k];
        }
      }
      Ok(CreatePage(page, |matching|, p))
  }

  /** Paging loses no finding: every finding of a known scan that passes the filters is listed on some page within the page count. */
  lemma EveryMatchingFindingListed(scans: map<string, Scan>, ordered: seq<Finding>, scanId: string, q: FindingFilters,
                                   pageSize: int, i: nat)
    requires 1 <= pageSize <= 100 && scanId in scans
    requires i < |ordered| && Selects(scanId, q)(ordered[i])
    ensures exists page :: (1 <= page && ListFindings(scans, ordered, scanId, q, PaginationParams(page, pageSize)).Ok? &&
      var r := ListFindings(scans, ordered, scanId, q, PaginationParams(page, pageSize)).value;
      page <= r.totalPages && ordered[i] in r.items)
  {
    var matching := FilterSeq(ordered, Selects(scanId, q));
    FilterSeqKeeps(ordered, Selects(scanId, q), i);
    var j :| 0 <= j < |matching| && matching[j] == ordered[i];
    var page, off := RowPage(matching, j, pageSize);
    var onPage := PageOf(matching, page, pageSize);
    assert off < |onPage| && onPage[off] == ordered[i];
    var res := ListFindings(scans, ordered, scanId, q, PaginationParams(page, pageSize));
    assert res.Ok? && res.value.items == onPage && res.value.totalPages == TotalPages(|matching|, pageSize);
    assert 1 <= page <= res.value.totalPages && ordered[i] in res.value.items;
  }

  /** Entries naming no triage status leave the listing as if the parameter were absent. */
  lemma {:induction false} UnknownStatusesIgnored(scans: map<string, Scan>, ordered: seq<Finding>, scanId: string,
                                                  q: FindingFilters, p: PaginationParams)
    requires ValidPagination(p)
    requires q.triageStatus.Some? && TriageChoices(Entries(q.triageStatus.value)) == []
    ensures ListFindings(scans, ordered, scanId, q, p) == ListFindings(scans, ordered, scanId, q.(triageStatus := None), p)
  {
    var q0 := q.(triageStatus := None);
    forall i | 0 <= i < |ordered|
      ensures Selects(scanId, q)(ordered[i]) == Selects(scanId, q0)(ordered[i])
    {
      assert TriagePasses(q, ordered[i]) && TriagePasses(q0, ordered[i]);
    }
    FilterSame(ordered, Selects(scanId, q), Selects(scanId, q0));
  }

  /**
   * Each listed level selects, whatever its case and surrounding spaces,
   * the findings stored with that level in upper case.
   */
  lemma SeverityEntryMatches(parts: seq<string>, i: nat, f: Finding, q: FindingFilters)
    requires i < |parts|
    requires forall k :: 0 <= k < |parts| ==> Free(parts[k], ',')
    requires q.severity == Some(Join(parts, [',']))
    requires f.severity == VStr(Upper(Strip(parts[i])))
    ensures SeverityPasses(q, f)
  {
    SplitJoin(parts, ',');
    var levels := Severities(Join(parts, [',']));
    assert levels[i] == f.severity.s;
  }

  /** A finding without a risk score is excluded by any bound, even a minimum of zero. */
  lemma UnscoredFailsEveryBound(q: FindingFilters, f: Finding)
    requires q.minRiskScore.Some? || q.maxRiskScore.Some?
    requires f.ai.riskScore == VNull
    ensures !Selects(f.scanId, q)(f)
  {
  }

  // ------------------------------------------------------------ one finding

  /** The row `scan_id = scanId AND id = findingId`. */
  predicate IsRow(f: Finding, scanId: string, findingId: string) {
    f.scanId == scanId && f.id == findingId
  }

  /** The position of the first row with both ids; ids are the table's key, so it is the only one. */
  function FindIndex(findings: seq<Finding>, scanId: string, findingId: string): (r: Option<nat>)
    ensures r.None? <==> forall i :: 0 <= i < |findings| ==> !IsRow(findings[i], scanId, findingId)
    ensures r.Some? ==> && r.value < |findings| && IsRow(findings[r.value], scanId, findingId)
                        && forall j :: 0 <= j < r.value ==> !IsRow(findings[j], scanId, findingId)
  {
    if findings == [] then None
    else if IsRow(findings[0], scanId, findingId) then Some(0)
    else
      match FindIndex(findings[1..], scanId, findingId)
      case None => None
      case Some(i) => Some(i + 1)
  }

  /** `get_finding`: the finding with that id in that scan, else 404. */
  function GetFinding(findings: seq<Finding>, scanId: string, findingId: string): (r: Result<Finding, HttpError>)
    ensures r.Err? <==> forall f :: f in findings ==> !IsRow(f, scanId, findingId)
    ensures r.Err? ==> r.error == HttpError(404, "Finding not found")
    ensures r.Ok? ==> r.value in findings && r.value.scanId == scanId && r.value.id == findingId
  {
    match FindIndex(findings, scanId, findingId)
    case None => Err(HttpError(404, "Finding not found"))
    case Some(i) => Ok(findings[i])
  }

  // ------------------------------------------------------------ update

  /** The body of `PATCH`: each field is optional. */
  datatype FindingUpdate = FindingUpdate(triageStatus: Option<TriageStatus>, triageNote: Option<string>, assignee: Option<string>)

  /**
   * The triage columns after an update: each given field replaces its
   * column (an empty note included), the update time moves only with a
   * status, and nothing else changes.
   */
  function UpdatedTriage(t: Triage, u: FindingUpdate, now: real): (r: Triage)
    ensures r.updatedBy == t.updatedBy
    ensures u.triageStatus.Some? ==> r.status == u.triageStatus.value && r.updatedAt == Some(now)
    ensures u.triageStatus.None? ==> r.status == t.status && r.updatedAt == t.updatedAt
    ensures u.triageNote.Some? ==> r.note == u.triageNote
    ensures u.triageNote.None? ==> r.note == t.note
    ensures u.assignee.Some? ==> r.assignee == u.assignee
    ensures u.assignee.None? ==> r.assignee == t.assignee
  {
    Triage(
      if u.triageStatus.Some? then u.triageStatus.value else t.status,
      if u.triageNote.Some? then u.triageNote else t.note,
      if u.triageStatus.Some? then Some(now) else t.updatedAt,
      t.updatedBy,
      if u.assignee.Some? then u.assignee else t.assignee)
  }

  /** Sending the same update twice at the same time is the same as sending it once. */
  lemma UpdateIdempotent(t: Triage, u: FindingUpdate, now: real)
    ensures UpdatedTriage(UpdatedTriage(t, u, now), u, now) == UpdatedTriage(t, u, now)
  {
  }

  /** `update_finding`: 404 unless the finding is in the scan; otherwise only its triage columns change. */
  method UpdateFinding(db: Database, scanId: string, findingId: string, u: FindingUpdate, now: real)
    returns (r: Result<Finding, HttpError>)
    modifies db`findings
    ensures var i := FindIndex(old(db.findings), scanId, findingId);
      && (i.None? ==> r == Err(HttpError(404, "Finding not found")) && db.findings == old(db.findings))
      && (i.Some? ==> && db.findings == old(db.findings)[i.value := old(db.findings)[i.value].(triage := UpdatedTriage(old(db.findings)[i.value].triage, u, now))]
                      && r == Ok(db.findings[i.value]))
  {
    var i := FindIndex(db.findings, scanId, findingId);
    if i.None? {
      return Err(HttpError(404, "Finding not found"));
    }
    var f := db.findings[i.value];
    var g := f.(triage := UpdatedTriage(f.triage, u, now));
    db.findings := db.findings[i.value := g];
    r := Ok(g);
  }

  // ------------------------------------------------------------ bulk triage

  /** The body of a bulk triage request. */
  datatype BulkTriageUpdate = BulkTriageUpdate(findingIds: seq<string>, triageStatus: TriageStatus, triageNote: Option<string>)

  /** The answer of a bulk triage: how many rows changed and how many ids were sent. */
  datatype BulkCounts = BulkCounts(updatedCount: nat, requestedCount: nat)

  /** The rows a bulk triage touches: in the scan, with one of the ids. */
  function Picked(scanId: string, ids: seq<string>): Finding -> bool {
    (f: Finding) => f.scanId == scanId && f.id in ids
  }

  /** The triage columns after a bulk triage: the note is replaced only by a non-empty one. */
  function BulkTriaged(t: Triage, u: BulkTriageUpdate, now: real): (r: Triage)
    ensures r.status == u.triageStatus && r.updatedAt == Some(now)
    ensures Given(u.triageNote) ==> r.note == u.triageNote
    ensures !Given(u.triageNote) ==> r.note == t.note
    ensures r.updatedBy == t.updatedBy && r.assignee == t.assignee
  {
    t.(status := u.triageStatus, updatedAt := Some(now), note := if Given(u.triageNote) then u.triageNote else t.note)
  }

  /** A row after the bulk triage: changed when picked, as before otherwise. */
  function AfterBulk(f: Finding, scanId: string, u: BulkTriageUpdate, now: real): Finding {
    if Picked(scanId, u.findingIds)(f) then f.(triage := BulkTriaged(f.triage, u, now)) else f
  }

  /**
   * `bulk_triage_findings`: 404 for an unknown scan or when no id matches a
   * finding of it; otherwise every matching finding is triaged and counted.
   */
  method BulkTriage(db: Database, scanId: string, u: BulkTriageUpdate, now: real) returns (r: Result<BulkCounts, HttpError>)
    modifies db`findings
    ensures scanId !in db.scans ==> r == Err(HttpError(404, "Scan not found"))
    ensures scanId in db.scans && CountIf(old(db.findings), Picked(scanId, u.findingIds)) == 0 ==>
              r == Err(HttpError(404, "No findings found with provided IDs"))
    ensures r.Err? ==> db.findings == old(db.findings)
    ensures r.Ok? ==> && |db.findings| == |old(db.findings)|
                      && (forall k :: 0 <= k < |db.findings| ==> db.findings[k] == AfterBulk(old(db.findings)[k], scanId, u, now))
                      && r.value.updatedCount == CountIf(old(db.findings), Picked(scanId, u.findingIds)) > 0
                      && r.value.requestedCount == |u.findingIds|
  {
    if scanId !in db.scans {
      return Err(HttpError(404, "Scan not found"));
    }
    var picked := Picked(scanId, u.findingIds);
    if CountIf(db.findings, picked) == 0 {
      return Err(HttpError(404, "No findings found with provided IDs"));
    }
    var updated := TriageEach(db, scanId, u, now);
    r := Ok(BulkCounts(updated, |u.findingIds|));
  }

  /** The loop of `bulk_triage_findings`: triages each picked finding in place and counts them. */
  method TriageEach(db: Database, scanId: string, u: BulkTriageUpdate, now: real) returns (updated: nat)
    modifies db`findings
    ensures |db.findings| == |old(db.findings)|
    ensures forall k :: 0 <= k < |db.findings| ==> db.findings[k] == AfterBulk(old(db.findings)[k], scanId, u, now)
    ensures updated == CountIf(old(db.findings), Picked(scanId, u.findingIds))
  {
    var picked := Picked(scanId, u.findingIds);
    ghost var before := db.findings;
    updated := 0;
    var i := 0;
    while i < |db.findings|
      invariant 0 <= i <= |db.findings| == |before|
      invariant forall k :: 0 <= k < i ==> db.findings[k] == AfterBulk(before[k], scanId, u, now)
      invariant forall k :: i <= k < |before| ==> db.findings[k] == before[k]
      invariant updated == CountIf(before[..i], picked)
    {
      CountIfPrefix(before, i, picked);
      var f := db.findings[i];
      assert f == before[i];
      if picked(f) {
        db.findings := db.findings[i := f.(triage := BulkTriaged(f.triage, u, now))];
        updated := updated + 1;
      }
      assert db.findings[i] == AfterBulk(before[i], scanId, u, now);
      i := i + 1;
    }
    assert before[..i] == before;
  }

  /** The two counts can differ: an id sent twice is one row updated. */
  lemma RepeatedIdCountedOnce(f: Finding)
    ensures CountIf([f], Picked(f.scanId, [f.id, f.id])) == 1
  {
    assert [f][..0] == [];
  }
}
