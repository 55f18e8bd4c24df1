/**
 * The scan endpoints of the web API: create, list, detail, delete and
 * cancel.  The file system is an input (`Paths`): whether a path exists,
 * its absolute form and its last component.  The table rows a listing
 * reads are given in the order the query asks for.
 */
module ScanRoutes {
  import opened Common
  import opened ApiModels

  /** What the route can learn about paths on disk. */
  datatype Paths = Paths(present: string -> bool, absolute: string -> string, baseName: string -> string)

  /** The body of a scan creation request. */
  datatype ScanCreate = ScanCreate(targetPath: string, rulesPath: Option<string>, name: Option<string>)

  /** A scan as the API returns it, with its derived properties. */
  datatype ScanResponse = ScanResponse(scan: Scan, progressPercentage: real, durationSeconds: Option<real>)

  function ResponseOf(s: Scan): ScanResponse {
    ScanResponse(s, ProgressPercentage(s), DurationSeconds(s))
  }

  // ------------------------------------------------------------ create

  /**
   * The scan `create_scan` stores: refused with 400 when the target is
   * missing, or when a rules path is given and missing; otherwise a pending
   * scan that always has a name, with both paths made absolute.
   */
  function CreatedScan(req: ScanCreate, fs: Paths, id: string, now: real): (r: Result<Scan, HttpError>)
    ensures r.Err? <==> !fs.present(req.targetPath) || (Given(req.rulesPath) && !fs.present(req.rulesPath.value))
    ensures !fs.present(req.targetPath) ==> r == Err(HttpError(400, "Target path does not exist: " + req.targetPath))
    ensures r.Err? ==> r.error.status == 400
    ensures r.Ok? ==> && r.value.id == id && r.value.status == Pending && r.value.createdAt == now
                      && r.value.totalFindings == 0 && r.value.validatedFindings == 0
                      && r.value.startedAt.None? && r.value.completedAt.None? && r.value.errorMessage.None?
    ensures r.Ok? ==> Given(r.value.name) && (Given(req.name) ==> r.value.name == req.name)
    ensures r.Ok? ==> r.value.targetPath == fs.absolute(req.targetPath)
    ensures r.Ok? ==> (r.value.rulesPath.Some? <==> Given(req.rulesPath))
  {
    if !fs.present(req.targetPath) then
      Err(HttpError(400, "Target path does not exist: " + req.targetPath))
    else if Given(req.rulesPath) && !fs.present(req.rulesPath.value) then
      Err(HttpError(400, "Rules path does not exist: " + req.rulesPath.value))
    else
      var name := if Given(req.name) then req.name.value else "Scan of " + fs.baseName(req.targetPath);
      var rules := if Given(req.rulesPath) then Some(fs.absolute(req.rulesPath.value)) else None;
      Ok(NewScan(id, Some(name), fs.absolute(req.targetPath), rules, now))
  }

  /**
   * `create_scan`: stores the new scan under its fresh id and returns it.
   * Starting the scan in the background is the scan service's `RunScan`.
   */
  method CreateScan(db: Database, req: ScanCreate, fs: Paths, id: string, now: real) returns (r: Result<ScanResponse, HttpError>)
    requires db.Valid() && id !in db.scans
    modifies db`scans
    ensures db.Valid()
    ensures var c := CreatedScan(req, fs, id, now);
      && (c.Err? ==> r == Err(c.error) && db.scans == old(db.scans))
      && (c.Ok? ==> r == Ok(ResponseOf(c.value)) && db.scans == old(db.scans)[id := c.value])
  {
    var c := CreatedScan(req, fs, id, now);
    if c.Err? {
      return Err(c.error);
    }
    db.scans := db.scans[id := c.value];
    r := Ok(ResponseOf(c.value));
  }

  // ------------------------------------------------------------ list

  /** Rows ordered by `created_at` descending. */
  predicate NewestFirst(rows: seq<Scan>) {
    forall i, j :: 0 <= i < j < |rows| ==> rows[i].createdAt >= rows[j].createdAt
  }

  /** The optional status filter of `list_scans` (every status is truthy, so a given one always applies). */
  function WithStatus(status: Option<ScanStatus>): Scan -> bool {
    (s: Scan) => status.None? || s.status == status.value
  }

  /** Keeping only some rows keeps them newest first. */
  lemma {:induction false} FilterKeepsNewestFirst(rows: seq<Scan>, p: Scan -> bool)
    requires NewestFirst(rows)
    ensures NewestFirst(FilterSeq(rows, p))
  {
    if rows != [] {
      var n := |rows| - 1;
      var front := rows[..n];
      FilterKeepsNewestFirst(front, p);
      var kept := FilterSeq(front, p);
      forall k | 0 <= k < |kept|
        ensures kept[k].createdAt >= rows[n].createdAt
      {
        assert kept[k] in front;
        var i :| 0 <= i < n && front[i] == kept[k];
      }
    }
  }

  /**
   * `list_scans`: the rows with the requested status, newest first, one
   * page of them, with the total of matching rows and the page count.
   */
  function ListScans(rows: seq<Scan>, status: Option<ScanStatus>, p: PaginationParams): (r: PaginatedResponse<ScanResponse>)
    requires ValidPagination(p)
    ensures r.total == CountIf(rows, WithStatus(status)) && r.total <= |rows|
    ensures r.page == p.page && r.pageSize == p.pageSize && r.totalPages == TotalPages(r.total, p.pageSize)
    ensures r.items == Responses(PageOf(FilterSeq(rows, WithStatus(status)), p.page, p.pageSize))
    ensures |r.items| <= p.pageSize
    ensures forall k :: 0 <= k < |r.items| ==>
              && r.items[k] == ResponseOf(r.items[k].scan)
              && r.items[k].scan in rows
              && (status.Some? ==> r.items[k].scan.status == status.value)
  {
    var matching := FilterSeq(rows, WithStatus(status));
    var page := PageOf(matching, p.page, p.pageSize);
    PageFrom(matching, p.page, p.pageSize);
    assert forall k :: 0 <= k < |page| ==> page[k] in rows && WithStatus(status)(page[k]) by {
      forall k | 0 <= k < |page|
        ensures page[k] in rows && WithStatus(status)(page[k])
      {
        assert page[k] in matching;
        var i :| 0 <= i < |matching| && matching[i] == page[k];
      }
    }
    CreatePage(Responses(page), |matching|, p)
  }

  /** `list_scans` lists newest first: the rows come ordered by `created_at` descending. */
  lemma ListedNewestFirst(rows: seq<Scan>, status: Option<ScanStatus>, p: PaginationParams)
    requires ValidPagination(p) && NewestFirst(rows)
    ensures var items := ListScans(rows, status, p).items;
      forall i, j :: 0 <= i < j < |items| ==> items[i].scan.createdAt >= items[j].scan.createdAt
  {
    var matching := FilterSeq(rows, WithStatus(status));
    FilterKeepsNewestFirst(rows, WithStatus(status));
    PageKeepsNewestFirst(matching, p.page, p.pageSize);
  }

  /** Paging loses no scan: every row with the requested status is listed on some page within the page count. */
  lemma EveryMatchingScanListed(rows: seq<Scan>, status: Option<ScanStatus>, pageSize: int, i: nat)
    requires 1 <= pageSize <= 100
    requires i < |rows| && WithStatus(status)(rows[i])
    ensures exists page :: (1 <= page <= ListScans(rows, status, PaginationParams(page, pageSize)).totalPages &&
      ResponseOf(rows[i]) in ListScans(rows, status, PaginationParams(page, pageSize)).items)
  {
    var matching := FilterSeq(rows, WithStatus(status));
    FilterSeqKeeps(rows, WithStatus(status), i);
    var j :| 0 <= j < |matching| && matching[j] == rows[i];
    var page, off := RowPage(matching, j, pageSize);
    var onPage := PageOf(matching, page, pageSize);
    assert off < |onPage| && onPage[off] == rows[i];
    var r := ListScans(rows, status, PaginationParams(page, pageSize));
    assert r.items == Responses(onPage) && r.totalPages == TotalPages(|matching|, pageSize);
    assert r.items[off] == ResponseOf(rows[i]);
    assert 1 <= page <= r.totalPages && ResponseOf(rows[i]) in r.items;
  }

  /** The response of each scan of a page. */
  function Responses(page: seq<Scan>): (r: seq<ScanResponse>)
    ensures |r| == |page| && forall k :: 0 <= k < |page| ==> r[k] == ResponseOf(page[k])
  {
    seq(|page|, k requires 0 <= k < |page| => ResponseOf(page[k]))
  }

  /** A page of rows ordered newest first is itself ordered newest first. */
  lemma PageKeepsNewestFirst(rows: seq<Scan>, page: int, pageSize: int)
    requires page >= 1 && pageSize >= 1
    requires NewestFirst(rows)
    ensures NewestFirst(PageOf(rows, page, pageSize))
  {
    var r := PageOf(rows, page, pageSize);
    var offset := (page - 1) * pageSize;
    forall i, j | 0 <= i < j < |r|
      ensures r[i].createdAt >= r[j].createdAt
    {
      assert r[i] == rows[offset + i] && r[j] == rows[offset + j];
    }
  }

  /** Without a status filter the total is the whole table. */
  lemma {:induction false} UnfilteredTotal(rows: seq<Scan>)
    ensures CountIf(rows, WithStatus(None)) == |rows|
  {
    if rows != [] {
      UnfilteredTotal(rows[..|rows| - 1]);
    }
  }

  // ------------------------------------------------------------ detail

  /** The counts `get_scan` reports over a scan's findings. */
  datatype FindingCounts = FindingCounts(
    truePositives: nat,
    falsePositives: nat,
    needsReview: nat,
    severityCritical: nat,
    severityHigh: nat,
    severityMedium: nat,
    severityLow: nat)

  /** A scan with its error message and finding counts. */
  datatype ScanDetail = ScanDetail(response: ScanResponse, errorMessage: Option<string>, counts: FindingCounts)

  /** The findings of one scan, in table order. */
  function BelongsTo(scanId: string): Finding -> bool {
    (f: Finding) => f.scanId == scanId
  }

  /**
   * `NOT verdict ILIKE '%true positive%' AND NOT verdict ILIKE '%false positive%'`:
   * true only for a non-NULL verdict mentioning neither.
   */
  function Undecided(): Finding -> bool {
    (f: Finding) => ILikeContains(f.ai.verdict, "true positive") == Some(false)
                    && ILikeContains(f.ai.verdict, "false positive") == Some(false)
  }

  /** The findings `needs_review` leaves out: no verdict yet, or one mentioning either outcome. */
  function NoVerdictOrDecided(): Finding -> bool {
    (f: Finding) => f.ai.verdict.VNull?
                    || Holds(ILikeContains(f.ai.verdict, "true positive"))
                    || Holds(ILikeContains(f.ai.verdict, "false positive"))
  }

  /**
   * The counts of `get_scan`.  A finding not yet validated has a NULL
   * verdict, which neither a mention nor its negation keeps, so it is in
   * no verdict count; every other finding is in `needs_review` exactly when
   * it mentions neither outcome.
   */
  function DetailCounts(fs: seq<Finding>): (c: FindingCounts)
    ensures c.needsReview + CountIf(fs, NoVerdictOrDecided()) == |fs|
    ensures c.truePositives <= |fs| && c.falsePositives <= |fs|
    ensures c.severityCritical + c.severityHigh + c.severityMedium + c.severityLow <= |fs|
  {
    NeedsReviewSplit(fs);
    SeveritiesExclusive(fs);
    FindingCounts(
      CountIf(fs, VerdictMentions("true positive")),
      CountIf(fs, VerdictMentions("false positive")),
      CountIf(fs, Undecided()),
      CountIf(fs, SeverityIs("CRITICAL")),
      CountIf(fs, SeverityIs("HIGH")),
      CountIf(fs, SeverityIs("MEDIUM")),
      CountIf(fs, SeverityIs("LOW")))
  }

  /** Every finding is either in `needs_review` or left out of it, never both. */
  lemma NeedsReviewSplit(fs: seq<Finding>)
    ensures CountIf(fs, Undecided()) + CountIf(fs, NoVerdictOrDecided()) == |fs|
  {
    forall i | 0 <= i < |fs|
      ensures NoVerdictOrDecided()(fs[i]) <==> !Undecided()(fs[i])
    {
      UndecidedOrNot(fs[i]);
    }
    CountIfComplement(fs, Undecided(), NoVerdictOrDecided());
  }

  lemma UndecidedOrNot(f: Finding)
    ensures NoVerdictOrDecided()(f) <==> !Undecided()(f)
  {
    var a := ILikeContains(f.ai.verdict, "true positive");
    var b := ILikeContains(f.ai.verdict, "false positive");
    ILikeNull(f.ai.verdict, "true positive");
    ILikeNull(f.ai.verdict, "false positive");
    NullOrDecided(f.ai.verdict.VNull?, a, b);
  }

  /** Over SQL's three truth values: no verdict, or a mention of either outcome, is the complement of two failed matches. */
  lemma NullOrDecided(isNull: bool, a: Option<bool>, b: Option<bool>)
    requires a.None? <==> isNull
    requires b.None? <==> isNull
    ensures (isNull || Holds(a) || Holds(b)) <==> !(a == Some(false) && b == Some(false))
  {
    if !isNull {
      var x, y := a.value, b.value;
      assert Holds(a) == x && Holds(b) == y;
      assert (a == Some(false)) == !x && (b == Some(false)) == !y;
    }
  }

  /** The four severity tests of `get_scan` never hold together. */
  lemma {:induction false} SeveritiesExclusive(fs: seq<Finding>)
    ensures CountIf(fs, SeverityIs("CRITICAL")) + CountIf(fs, SeverityIs("HIGH"))
            + CountIf(fs, SeverityIs("MEDIUM")) + CountIf(fs, SeverityIs("LOW")) <= |fs|
  {
    if fs != [] {
      var n := |fs| - 1;
      SeveritiesExclusive(fs[..n]);
      AtMostOneSeverity(fs[n]);
    }
  }

  /** A severity equals at most one of CRITICAL, HIGH, MEDIUM and LOW up to case: their lengths differ. */
  lemma AtMostOneSeverity(f: Finding)
    ensures (if SeverityIs("CRITICAL")(f) then 1 else 0) + (if SeverityIs("HIGH")(f) then 1 else 0)
            + (if SeverityIs("MEDIUM")(f) then 1 else 0) + (if SeverityIs("LOW")(f) then 1 else 0) <= 1
  {
    if f.severity.VStr? {
      var n := |f.severity.s|;
      assert SeverityIs("CRITICAL")(f) ==> n == 8;
      assert SeverityIs("HIGH")(f) ==> n == 4;
      assert SeverityIs("MEDIUM")(f) ==> n == 6;
      assert SeverityIs("LOW")(f) ==> n == 3;
    }
  }

  /**
   * `get_scan`: 404 for an unknown scan; otherwise the scan with its
   * derived properties and the counts over its own findings only.
   */
  function GetScan(scans: map<string, Scan>, findings: seq<Finding>, scanId: string): (r: Result<ScanDetail, HttpError>)
    ensures r.Err? <==> scanId !in scans
    ensures r.Err? ==> r.error == HttpError(404, "Scan not found")
    ensures r.Ok? ==> && r.value.response == ResponseOf(scans[scanId])
                      && r.value.errorMessage == scans[scanId].errorMessage
                      && r.value.counts == DetailCounts(FilterSeq(findings, BelongsTo(scanId)))
  {
    if scanId !in scans then Err(HttpError(404, "Scan not found"))
    else
      var s := scans[scanId];
      Ok(ScanDetail(ResponseOf(s), s.errorMessage, DetailCounts(FilterSeq(findings, BelongsTo(scanId)))))
  }

  /**
   * A verdict naming both outcomes ("true positive, not a false positive")
   * is counted as a true positive and as a false positive at once.
   */
  lemma VerdictInBothCounts(f: Finding, mid: string)
    requires f.ai.verdict == VStr("true positive" + mid + "false positive")
    ensures DetailCounts([f]).truePositives == 1 && DetailCounts([f]).falsePositives == 1
    ensures DetailCounts([f]).needsReview == 0
  {
    MentionsBoth(f, mid);
    CountSingle(f, VerdictMentions("true positive"));
    CountSingle(f, VerdictMentions("false positive"));
    CountSingle(f, Undecided());
  }

  lemma MentionsBoth(f: Finding, mid: string)
    requires f.ai.verdict == VStr("true positive" + mid + "false positive")
    ensures ILikeContains(f.ai.verdict, "true positive") == Some(true)
    ensures ILikeContains(f.ai.verdict, "false positive") == Some(true)
  {
    var t := "true positive";
    var fp := "false positive";
    LowerTruePositive();
    LowerFalsePositive();
    MentionsAround(t, mid, fp);
  }

  // ------------------------------------------------------------ delete and cancel

  /** `delete_scan`: 404 for an unknown scan, 400 for a running one; otherwise the scan goes and its findings with it. */
  method DeleteScan(db: Database, scanId: string) returns (r: Option<HttpError>)
    requires db.Valid()
    modifies db
    ensures db.Valid()
    ensures scanId !in old(db.scans) ==> r == Some(HttpError(404, "Scan not found"))
    ensures scanId in old(db.scans) && old(db.scans)[scanId].status == Running ==>
              r == Some(HttpError(400, "Cannot delete a running scan. Cancel it first."))
    ensures r.Some? ==> db.scans == old(db.scans) && db.findings == old(db.findings)
    ensures r.None? <==> scanId in old(db.scans) && old(db.scans)[scanId].status != Running
    ensures r.None? ==> && db.scans == old(db.scans) - {scanId}
                        && db.findings == FilterSeq(old(db.findings), Outside(scanId))
  {
    if scanId !in db.scans {
      return Some(HttpError(404, "Scan not found"));
    }
    if db.scans[scanId].status == Running {
      return Some(HttpError(400, "Cannot delete a running scan. Cancel it first."));
    }
    db.scans := db.scans - {scanId};
    db.findings := FilterSeq(db.findings, Outside(scanId));
    r := None;
  }

  /** The findings a cascading delete of `scanId` keeps. */
  function Outside(scanId: string): Finding -> bool {
    (f: Finding) => f.scanId != scanId
  }

  /** After a delete no finding of the scan remains, and every other finding does. */
  lemma {:induction false} CascadeRemovesOnlyThatScan(findings: seq<Finding>, scanId: string)
    ensures forall f :: f in FilterSeq(findings, Outside(scanId)) ==> f.scanId != scanId
    ensures forall f :: f in findings && f.scanId != scanId ==> f in FilterSeq(findings, Outside(scanId))
  {
    if findings != [] {
      var n := |findings| - 1;
      CascadeRemovesOnlyThatScan(findings[..n], scanId);
      assert findings == findings[..n] + [findings[n]];
      forall f | f in findings && f.scanId != scanId
        ensures f in FilterSeq(findings, Outside(scanId))
      {
        if f != findings[n] {
          assert f in findings[..n];
        }
      }
    }
  }

  /** The scan `cancel_scan` stores: cancelled, completed now, otherwise as it was. */
  function CancelledScan(s: Scan, now: real): (c: Scan)
    ensures c.status == Cancelled && c.completedAt == Some(now)
    ensures c.(status := s.status, completedAt := s.completedAt) == s
  {
    s.(status := Cancelled, completedAt := Some(now))
  }

  /** `cancel_scan`: 404 for an unknown scan, 400 unless it is running; otherwise it is cancelled. */
  method CancelScan(db: Database, scanId: string, now: real) returns (r: Result<ScanResponse, HttpError>)
    requires db.Valid()
    modifies db`scans
    ensures db.Valid()
    ensures scanId !in old(db.scans) ==> r == Err(HttpError(404, "Scan not found"))
    ensures scanId in old(db.scans) && old(db.scans)[scanId].status != Running ==>
              r.Err? && r.error.status == 400
    ensures r.Err? ==> db.scans == old(db.scans)
    ensures r.Ok? <==> scanId in old(db.scans) && old(db.scans)[scanId].status == Running
    ensures r.Ok? ==> && db.scans == old(db.scans)[scanId := CancelledScan(old(db.scans)[scanId], now)]
                      && r.value == ResponseOf(db.scans[scanId])
  {
    if scanId !in db.scans {
      return Err(HttpError(404, "Scan not found"));
    }
    var s := db.scans[scanId];
    if s.status != Running {
      return Err(HttpError(400, "Can only cancel running scans. Current status: " + ScanStatusText(s.status)));
    }
    var c := CancelledScan(s, now);
    db.scans := db.scans[scanId := c];
    r := Ok(ResponseOf(c));
  }
}
