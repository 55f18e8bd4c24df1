/**
 * Normalising semgrep results into findings (semgrepai/scanner.py): the code
 * snippet of a finding (from the result itself or, failing that, from the
 * file with ten lines of context and the flagged lines marked `>>>`), the
 * default-filled finding record, and the dataflow / reference / pattern lists.
 *
 * Running semgrep and reading its JSON output are not modelled; the
 * filesystem is a `Disk` argument.
 */
module Scanner {
  import opened Common

  /** The working directory, which paths exist (`found`), and the lines (with their line endings) of each readable file. */
  datatype Disk = Disk(cwd: string, found: string -> bool, read: string -> Option<seq<string>>)

  /** Texts of the exceptions the model distinguishes; their exact wording is not modelled. */
  const NoGet := "object has no attribute 'get'"
  const NoStrip := "object has no attribute 'strip'"
  const NotIterable := "object is not iterable"
  const NotAPath := "expected str, bytes or os.PathLike object"
  const NotComparable := "'<' not supported between these types"
  const Unreadable := "file could not be read"

  /** Prefix of the text returned when reading code from the file raised. */
  const ExtractErrorPrefix := "Error extracting code: "

  /** Lines of context shown on each side of the flagged lines. */
  const ContextLines := 10

  predicate StartsWith(s: string, p: string) {
    |p| <= |s| && s[..|p|] == p
  }

  // ---------------------------------------------------------------- paths

  /** The characters `raw_path.lstrip('./')` removes: a set, not a prefix. */
  const PathJunk: set<char> := {'.', '/'}

  /** `raw_path.lstrip('./')`: every leading '.' and '/' goes, in any mix. */
  function CleanPath(raw: string): (r: string)
    ensures |r| <= |raw| && r == raw[|raw| - |r|..]
    ensures r == "" || r[0] !in PathJunk
    ensures forall i :: 0 <= i < |raw| - |r| ==> raw[i] in PathJunk
  {
    LStripChars(raw, PathJunk)
  }

  /** Cleaning is set-based, not prefix-based: a dot file loses its dot although it does not start with `./`. */
  lemma CleanPathStripsDotFile()
    ensures CleanPath(".env") == "env"
  {
    assert ".env" == "." + "env";
    CleanPathAfterJunk(".", "env");
  }

  /** A parent-directory prefix is dropped whole: `../a` is looked up as `a`. */
  lemma CleanPathDropsParent()
    ensures CleanPath("../a") == "a"
  {
    assert "../a" == "../" + "a";
    CleanPathAfterJunk("../", "a");
  }

  /** Any run of '.' and '/' in front of a clean path is removed, and nothing more. */
  lemma {:induction false} CleanPathAfterJunk(junk: string, rest: string)
    requires forall i :: 0 <= i < |junk| ==> junk[i] in PathJunk
    requires rest == "" || rest[0] !in PathJunk
    ensures CleanPath(junk + rest) == rest
  {
    if junk == "" {
      assert junk + rest == rest;
      if rest != "" {
        StripStop(rest);
      }
    } else {
      assert (junk + rest)[1..] == junk[1..] + rest;
      StripStep(junk + rest, junk[1..] + rest);
      CleanPathAfterJunk(junk[1..], rest);
    }
  }

  lemma StripStop(s: string)
    requires s != "" && s[0] !in PathJunk
    ensures CleanPath(s) == s
  {
  }

  lemma StripStep(s: string, rest: string)
    requires s != "" && s[0] in PathJunk && rest == s[1..]
    ensures CleanPath(s) == CleanPath(rest)
  {
  }

  lemma CleanPathIdempotent(raw: string)
    ensures CleanPath(CleanPath(raw)) == CleanPath(raw)
  {
  }

  /** `cwd / p`. */
  function InCwd(disk: Disk, p: string): string {
    disk.cwd + "/" + p
  }

  /**
   * The existing file a path names: an absolute path itself; a relative one
   * under the working directory as given, else cleaned. None when the file
   * looked up does not exist.
   */
  function Resolve(raw: string, disk: Disk): (r: Option<string>)
    ensures r.Some? ==> disk.found(r.value)
    ensures |raw| > 0 && raw[0] == '/' ==> r == (if disk.found(raw) then Some(raw) else None)
    ensures !(|raw| > 0 && raw[0] == '/') && disk.found(InCwd(disk, raw)) ==> r == Some(InCwd(disk, raw))
    ensures r.Some? && !(|raw| > 0 && raw[0] == '/') && !disk.found(InCwd(disk, raw)) ==>
      r == Some(InCwd(disk, CleanPath(raw)))
    ensures r.None? <==> if |raw| > 0 && raw[0] == '/' then !disk.found(raw)
                         else !disk.found(InCwd(disk, raw)) && !disk.found(InCwd(disk, CleanPath(raw)))
  {
    if |raw| > 0 && raw[0] == '/' then (if disk.found(raw) then Some(raw) else None)
    else if disk.found(InCwd(disk, raw)) then Some(InCwd(disk, raw))
    else if disk.found(InCwd(disk, CleanPath(raw))) then Some(InCwd(disk, CleanPath(raw)))
    else None
  }

  // ---------------------------------------------------------------- the snippet

  /** `f"{i:4d} | "`. */
  function LineNumber(i: nat): (r: string)
    ensures |r| >= 7 && r[|r| - 3..] == " | "
  {
    PadLeft(NatToString(i), 4) + " | "
  }

  /**
   * The line number reads back as `i`: its decimal digits, right-aligned with
   * spaces in a field of at least four characters, then ` | `.
   */
  lemma LineNumberLayout(i: nat)
    ensures var r, d := LineNumber(i), NatToString(i); var w := Max(4, |d|);
      && |r| == w + 3
      && (forall k :: 0 <= k < w - |d| ==> r[k] == ' ')
      && r[w - |d|..w] == d && DigitsValue(d) == i
      && r[w..] == " | "
  {
    NatToStringValue(i);
  }

  /** One numbered line: `>>> ` for a flagged line, four spaces otherwise. */
  function NumberedLine(i: nat, line: string, flagged: bool): (r: string)
    ensures flagged ==> StartsWith(r, ">>> ")
    ensures !flagged ==> StartsWith(r, "    ")
  {
    (if flagged then ">>> " else "    ") + LineNumber(i) + RStrip(line)
  }

  /** First index of the window: ten lines before the start line, or the top of the file. */
  function WindowStart(start: int): nat {
    Max(0, start - 1 - ContextLines)
  }

  /** End index (exclusive) of the window: ten lines after the end line, or the end of the file. */
  function WindowEnd(count: nat, end: int): int {
    Min(count, end + ContextLines)
  }

  /** The numbered window over `lines` for a validated start and end line. */
  function SnippetLines(lines: seq<string>, start: int, end: int): (r: seq<string>)
    requires 1 <= start <= end <= |lines|
    ensures |r| == WindowEnd(|lines|, end) - WindowStart(start)
  {
    var lo, hi := WindowStart(start), WindowEnd(|lines|, end);
    seq(hi - lo, k requires 0 <= k < hi - lo => NumberedLine(lo + k + 1, lines[lo + k], start <= lo + k + 1 <= end))
  }

  /**
   * The window holds every flagged line and at most ten more on each side;
   * line `k` of the window is file line `lo + k + 1`, and it is marked `>>>`
   * exactly when that line lies between the start and end lines.
   */
  lemma SnippetWindow(lines: seq<string>, start: int, end: int)
    requires 1 <= start <= end <= |lines|
    ensures var lo, hi := WindowStart(start), WindowEnd(|lines|, end);
      && lo + 1 <= start && end <= hi
      && start - (lo + 1) <= ContextLines && hi - end <= ContextLines
      && |SnippetLines(lines, start, end)| <= end - start + 1 + 2 * ContextLines
      && forall k :: 0 <= k < hi - lo ==>
           (StartsWith(SnippetLines(lines, start, end)[k], ">>> ") <==> start <= lo + k + 1 <= end)
  {
    var lo, hi := WindowStart(start), WindowEnd(|lines|, end);
    forall k | 0 <= k < hi - lo
      ensures StartsWith(SnippetLines(lines, start, end)[k], ">>> ") <==> start <= lo + k + 1 <= end
    {
      SnippetLineMarked(lines, start, end, k);
    }
  }

  /** Line `k` of the window is marked `>>>` exactly when it is flagged. */
  lemma SnippetLineMarked(lines: seq<string>, start: int, end: int, k: nat)
    requires 1 <= start <= end <= |lines|
    requires k < WindowEnd(|lines|, end) - WindowStart(start)
    ensures var lo := WindowStart(start);
      StartsWith(SnippetLines(lines, start, end)[k], ">>> ") <==> start <= lo + k + 1 <= end
  {
    var lo := WindowStart(start);
    var flagged := start <= lo + k + 1 <= end;
    var line := NumberedLine(lo + k + 1, lines[lo + k], flagged);
    assert SnippetLines(lines, start, end)[k] == line;
    MarkedIffFlagged(lo + k + 1, lines[lo + k], flagged);
  }

  /** A numbered line carries the `>>>` marker exactly when it is flagged. */
  lemma MarkedIffFlagged(i: nat, line: string, flagged: bool)
    ensures StartsWith(NumberedLine(i, line, flagged), ">>> ") <==> flagged
  {
    var r := NumberedLine(i, line, flagged);
    if !flagged {
      assert r[..4] == "    ";
      assert r[0] == ' ' && ">>> "[0] == '>';
    }
  }

  /** The file part of `_extract_code`, from the start / end values of the result. */
  function FromFile(lines: seq<string>, start: int, endValue: int): (r: string)
    ensures (start < 1 || start > |lines|) <==> r == "Invalid start line: " + IntToString(start)
  {
    if start < 1 || start > |lines| then "Invalid start line: " + IntToString(start)
    else
      var end := if endValue < start || endValue > |lines| then start else endValue;
      var body := Join(SnippetLines(lines, start, end), "\n");
      assert !StartsWith(body, "Invalid start line: ") by { SnippetNotInvalid(lines, start, end); }
      body
  }

  lemma SnippetNotInvalid(lines: seq<string>, start: int, end: int)
    requires 1 <= start <= end <= |lines|
    ensures !StartsWith(Join(SnippetLines(lines, start, end), "\n"), "Invalid start line: ")
  {
    var r := SnippetLines(lines, start, end);
    var lo := WindowStart(start);
    SnippetHead(lines, start, end);
    JoinHead(r, "\n");
    NumberedLineMark(lo + 1, lines[lo], start <= lo + 1 <= end);
    NotInvalidByHead(Join(r, "\n"), r[0]);
  }

  /** The window is never empty, and its first line is the numbered first line of the window. */
  lemma SnippetHead(lines: seq<string>, start: int, end: int)
    requires 1 <= start <= end <= |lines|
    ensures var r, lo := SnippetLines(lines, start, end), WindowStart(start);
      |r| > 0 && lo < |lines| && r[0] == NumberedLine(lo + 1, lines[lo], start <= lo + 1 <= end)
  {
    var lo := WindowStart(start);
    assert lo < start <= end <= WindowEnd(|lines|, end);
    var flagged := start <= lo + 1 <= end;
    var line := NumberedLine(lo + 1, lines[lo], flagged);
    assert SnippetLines(lines, start, end)[0] == line;
  }

  /** A numbered line starts with the marker or the blank gutter. */
  lemma NumberedLineMark(i: nat, line: string, flagged: bool)
    ensures var r := NumberedLine(i, line, flagged); |r| > 0 && (r[0] == '>' || r[0] == ' ')
  {
    var r := NumberedLine(i, line, flagged);
    assert r[..4] == (if flagged then ">>> " else "    ");
    assert r[0] == r[..4][0];
  }

  /** A text that begins with a marked line is not the invalid-line message. */
  lemma NotInvalidByHead(body: string, head: string)
    requires StartsWith(body, head) && |head| > 0 && (head[0] == '>' || head[0] == ' ')
    ensures !StartsWith(body, "Invalid start line: ")
  {
    assert body[0] == body[..|head|][0] == head[0];
    assert "Invalid start line: "[0] == 'I';
  }

  lemma JoinHead(parts: seq<string>, sep: string)
    requires |parts| > 0
    ensures StartsWith(Join(parts, sep), parts[0])
  {
    if |parts| > 1 {
      assert Join(parts, sep) == parts[0] + (sep + Join(parts[1..], sep));
    }
  }

  /** A code value given in the result: used stripped when truthy and not the login placeholder. */
  function Given(code: Value): (r: Option<Result<string, string>>)
    ensures r.None? <==> !Truthy(code) || code == VStr("requires login")
    ensures r.Some? && code.VStr? ==> r.value == Ok(Strip(code.s))
  {
    if !Truthy(code) || code == VStr("requires login") then None
    else if code.VStr? then Some(Ok(Strip(code.s)))
    else Some(Err(NoStrip))
  }

  /** The `lines` of the `extra` entry, when there is one; `extra` must then be a dict. */
  function ExtraCode(result: Dict): Result<Option<Result<string, string>>, string> {
    if "extra" !in result then Ok(None)
    else if !result["extra"].VDict? then Err(NoGet)
    else Ok(Given(Get(result["extra"].entries, "lines", VStr(""))))
  }

  /** The part of `_extract_code` inside its `try`: the answer, or the message of what it raised. */
  function CodeFromDisk(result: Dict, disk: Disk): Result<string, string> {
    var raw := Get(result, "path", VStr(""));
    if !Truthy(raw) then Ok("No file path available")
    else if !raw.VStr? then Err(NotAPath)
    else match Resolve(raw.s, disk)
      case None => Ok("File not found: " + raw.s)
      case Some(path) => (
        match disk.read(path)
        case None => Err(Unreadable)
        case Some(lines) =>
          var startD := Get(result, "start", VDict(map[]));
          var endD := Get(result, "end", VDict(map[]));
          if !startD.VDict? then Err(NoGet)
          else
            var start := Get(startD.entries, "line", VInt(0));
            if !endD.VDict? then Err(NoGet)
            else
              var end := Get(endD.entries, "line", start);
              if !start.VInt? then Err(NotComparable)
              else if start.i < 1 || start.i > |lines| then Ok(FromFile(lines, start.i, start.i))
              else if !end.VInt? then Err(NotComparable)
              else Ok(FromFile(lines, start.i, end.i)))
  }

  /**
   * `_extract_code`: the result's own code, else `extra.lines`, else the
   * window read from the file; what the file part raises is returned as
   * text. An error here escapes to the caller.
   */
  function ExtractCode(result: Dict, disk: Disk): (r: Result<string, string>)
    ensures Given(Get(result, "lines", VStr(""))).Some? ==> r == Given(Get(result, "lines", VStr(""))).value
    ensures Given(Get(result, "lines", VStr(""))).None? && "extra" !in result && !Truthy(Get(result, "path", VStr(""))) ==>
      r == Ok("No file path available")
    ensures Given(Get(result, "lines", VStr(""))).None? && ExtraCode(result).Err? ==> r == Err(ExtraCode(result).error)
    ensures Given(Get(result, "lines", VStr(""))).None? && ExtraCode(result).Ok? && ExtraCode(result).value.Some? ==>
      r == ExtraCode(result).value.value
    ensures Given(Get(result, "lines", VStr(""))).None? && ExtraCode(result).Ok? && ExtraCode(result).value.None? ==>
      r.Ok?
  {
    match Given(Get(result, "lines", VStr("")))
    case Some(r) => r
    case None => (
      match ExtraCode(result)
      case Err(e) => Err(e)
      case Ok(Some(r)) => r
      case Ok(None) => (
        match CodeFromDisk(result, disk)
        case Ok(text) => Ok(text)
        case Err(e) => Ok(ExtractErrorPrefix + e)))
  }

  /**
   * A result with no code of its own and no `extra`, whose path names a
   * readable file and whose start and end lines are integers: the code is the
   * file part, that is the numbered window of `SnippetWindow` around the start
   * line and the end line (or the start line again when the end line is out of
   * range), or the invalid-start message.
   */
  lemma ExtractFromFile(result: Dict, disk: Disk, path: string, lines: seq<string>,
                        startEntries: Dict, endEntries: Dict, start: int, end: int)
    requires Given(Get(result, "lines", VStr(""))).None? && "extra" !in result
    requires Get(result, "path", VStr("")) == VStr(path) && path != ""
    requires Resolve(path, disk).Some? && disk.read(Resolve(path, disk).value) == Some(lines)
    requires Get(result, "start", VDict(map[])) == VDict(startEntries) && Get(startEntries, "line", VInt(0)) == VInt(start)
    requires Get(result, "end", VDict(map[])) == VDict(endEntries) && Get(endEntries, "line", VInt(start)) == VInt(end)
    ensures ExtractCode(result, disk) == Ok(FromFile(lines, start, end))
    ensures 1 <= start <= |lines| ==>
      var last := if start <= end <= |lines| then end else start;
      ExtractCode(result, disk) == Ok(Join(SnippetLines(lines, start, last), "\n"))
  {
  }

  /** A path that names no existing file gives the not-found message. */
  lemma ExtractMissingFile(result: Dict, disk: Disk, path: string)
    requires Given(Get(result, "lines", VStr(""))).None? && "extra" !in result
    requires Get(result, "path", VStr("")) == VStr(path) && path != ""
    requires Resolve(path, disk).None?
    ensures ExtractCode(result, disk) == Ok("File not found: " + path)
  {
  }

  /** A result carrying its own code never touches the disk: two disks give the same code. */
  lemma GivenCodeIgnoresDisk(result: Dict, d1: Disk, d2: Disk)
    requires Given(Get(result, "lines", VStr(""))).Some?
    ensures ExtractCode(result, d1) == ExtractCode(result, d2)
  {
  }

  // ---------------------------------------------------------------- the extracted lists

  /** What `for x in v` yields when every element must be a dict, or the exception. */
  function Dicts(v: Value): (r: Result<seq<Dict>, string>)
    ensures v.VList? && (forall i :: 0 <= i < |v.items| ==> v.items[i].VDict?) ==>
      r.Ok? && |r.value| == |v.items| && forall i :: 0 <= i < |v.items| ==> r.value[i] == v.items[i].entries
  {
    match v
    case VList(xs) =>
      if forall i :: 0 <= i < |xs| ==> xs[i].VDict?
      then Ok(seq(|xs|, i requires 0 <= i < |xs| => xs[i].entries))
      else Err(NoGet)
    case VDict(m) => if m == map[] then Ok([]) else Err(NoGet)
    case VStr(s) => if s == "" then Ok([]) else Err(NoGet)
    case _ => Err(NotIterable)
  }

  /** The elements under `key`, or none when the key is absent. */
  function Entries(result: Dict, key: string): (r: Result<seq<Dict>, string>)
    ensures key !in result ==> r == Ok([])
  {
    if key in result then Dicts(result[key]) else Ok([])
  }

  function Step(step: Dict): Value {
    VDict(map["location" := Get(step, "location", VNull), "content" := Get(step, "content", VNull),
              "type" := Get(step, "type", VNull)])
  }

  function Pattern(p: Dict): Value {
    VDict(map["pattern" := Get(p, "pattern", VNull), "severity" := Get(p, "severity", VNull)])
  }

  /** A reference: its `start` must be a dict for the line to be read. */
  function Reference(ref: Dict): Result<Value, string> {
    var start := Get(ref, "start", VDict(map[]));
    if !start.VDict? then Err(NoGet)
    else Ok(VDict(map["path" := Get(ref, "path", VNull), "line" := Get(start.entries, "line", VNull),
                      "snippet" := Get(ref, "snippet", VNull)]))
  }

  /** `_extract_dataflow`: one entry per step of `dataflow_trace`, in order. */
  function ExtractDataflow(result: Dict): (r: Result<seq<Value>, string>)
    ensures r.Ok? <==> Entries(result, "dataflow_trace").Ok?
    ensures r.Ok? ==> |r.value| == |Entries(result, "dataflow_trace").value|
    ensures r.Ok? ==> forall i :: 0 <= i < |r.value| ==>
      var step := Entries(result, "dataflow_trace").value[i];
      r.value[i].VDict? && r.value[i].entries.Keys == {"location", "content", "type"} &&
      r.value[i].entries["type"] == Get(step, "type", VNull)
  {
    match Entries(result, "dataflow_trace")
    case Err(e) => Err(e)
    case Ok(steps) => Ok(seq(|steps|, i requires 0 <= i < |steps| => Step(steps[i])))
  }

  /** `_extract_security_patterns`: one entry per element of `security-patterns`, in order. */
  function ExtractSecurityPatterns(result: Dict): (r: Result<seq<Value>, string>)
    ensures r.Ok? <==> Entries(result, "security-patterns").Ok?
    ensures r.Ok? ==> |r.value| == |Entries(result, "security-patterns").value|
    ensures r.Ok? ==> forall i :: 0 <= i < |r.value| ==>
      var p := Entries(result, "security-patterns").value[i];
      r.value[i] == VDict(map["pattern" := Get(p, "pattern", VNull), "severity" := Get(p, "severity", VNull)])
  {
    match Entries(result, "security-patterns")
    case Err(e) => Err(e)
    case Ok(ps) => Ok(seq(|ps|, i requires 0 <= i < |ps| => Pattern(ps[i])))
  }

  function References(refs: seq<Dict>): (r: Result<seq<Value>, string>)
    ensures r.Ok? <==> forall i :: 0 <= i < |refs| ==> Reference(refs[i]).Ok?
    ensures r.Ok? ==> |r.value| == |refs| && forall i :: 0 <= i < |refs| ==> r.value[i] == Reference(refs[i]).value
  {
    if refs == [] then Ok([])
    else
      match References(refs[..|refs| - 1])
      case Err(e) => Err(e)
      case Ok(front) => (
        match Reference(refs[|refs| - 1])
        case Err(e) => Err(e)
        case Ok(v) => Ok(front + [v]))
  }

  /** `_extract_references`: one entry per related location, in order. */
  function ExtractReferences(result: Dict): (r: Result<seq<Value>, string>)
    ensures "related_locations" !in result ==> r == Ok([])
    ensures r.Ok? ==> Entries(result, "related_locations").Ok?
    ensures r.Ok? ==> |r.value| == |Entries(result, "related_locations").value|
    ensures r.Ok? ==> forall i :: 0 <= i < |r.value| ==>
      var ref := Reference(Entries(result, "related_locations").value[i]);
      ref.Ok? && r.value[i] == ref.value
  {
    match Entries(result, "related_locations")
    case Err(e) => Err(e)
    case Ok(refs) => References(refs)
  }

  // ---------------------------------------------------------------- the finding record

  /** `d.get(k, {})` read as a dict; a value that is not one has no `get`. */
  function SubDict(d: Dict, k: string): (r: Result<Dict, string>)
    ensures k !in d ==> r == Ok(map[])
  {
    var v := Get(d, k, VDict(map[]));
    if v.VDict? then Ok(v.entries) else Err(NoGet)
  }

  const FindingKeys: set<string> := {
    "rule_id", "severity", "message", "path", "line", "code", "dataflow", "references",
    "security_patterns", "metadata"}

  const MetadataKeys: set<string> := {
    "cwe", "owasp", "category", "technology", "vulnerability_class", "confidence", "source", "shortlink"}

  function MetadataRecord(m: Dict): (r: Dict)
    ensures r.Keys == MetadataKeys
    ensures r["confidence"] == Get(m, "confidence", VStr("UNKNOWN"))
    ensures r["cwe"] == Get(m, "cwe", VList([]))
  {
    map[
      "cwe" := Get(m, "cwe", VList([])),
      "owasp" := Get(m, "owasp", VStr("")),
      "category" := Get(m, "category", VStr("")),
      "technology" := Get(m, "technology", VList([])),
      "vulnerability_class" := Get(m, "vulnerability_class", VList([])),
      "confidence" := Get(m, "confidence", VStr("UNKNOWN")),
      "source" := Get(m, "source", VStr("")),
      "shortlink" := Get(m, "shortlink", VStr(""))]
  }

  /** What the finding record is built from. */
  datatype Parts = Parts(extra: Dict, metadata: Dict, code: string, start: Dict,
                         dataflow: seq<Value>, references: seq<Value>, patterns: seq<Value>)

  /** The lookups and extractions one result goes through, or the first exception among them. */
  function Gathered(result: Dict, disk: Disk): (r: Result<Parts, string>)
    ensures r.Ok? ==> ExtractCode(result, disk) == Ok(r.value.code)
    ensures r.Ok? ==> SubDict(result, "start") == Ok(r.value.start) && SubDict(result, "extra") == Ok(r.value.extra)
  {
    match SubDict(result, "extra")
    case Err(e) => Err(e)
    case Ok(extra) => (
      match SubDict(extra, "metadata")
      case Err(e) => Err(e)
      case Ok(metadata) => (
        match ExtractCode(result, disk)
        case Err(e) => Err(e)
        case Ok(code) => (
          match SubDict(result, "start")
          case Err(e) => Err(e)
          case Ok(start) => (
            match ExtractDataflow(result)
            case Err(e) => Err(e)
            case Ok(dataflow) => (
              match ExtractReferences(result)
              case Err(e) => Err(e)
              case Ok(references) => (
                match ExtractSecurityPatterns(result)
                case Err(e) => Err(e)
                case Ok(patterns) => Ok(Parts(extra, metadata, code, start, dataflow, references, patterns))))))))
  }

  /** The finding dict `_process_results` builds, with its defaults. */
  function FindingOf(result: Dict, p: Parts): (f: Dict)
    ensures f.Keys == FindingKeys
  {
    map[
      "rule_id" := Get(result, "check_id", VNull),
      "severity" := Get(p.extra, "severity", VStr("UNKNOWN")),
      "message" := Get(p.extra, "message", VStr("")),
      "path" := Get(result, "path", VStr("")),
      "line" := Get(p.start, "line", VInt(0)),
      "code" := VStr(p.code),
      "dataflow" := VList(p.dataflow),
      "references" := VList(p.references),
      "security_patterns" := VList(p.patterns),
      "metadata" := VDict(MetadataRecord(p.metadata))]
  }

  /** Where a finding's location fields come from, and their defaults. */
  lemma FindingOfSource(result: Dict, p: Parts)
    ensures var f := FindingOf(result, p);
      && f["rule_id"] == Get(result, "check_id", VNull) && f["path"] == Get(result, "path", VStr(""))
      && f["severity"] == Get(p.extra, "severity", VStr("UNKNOWN")) && f["message"] == Get(p.extra, "message", VStr(""))
      && f["line"] == Get(p.start, "line", VInt(0))
  {
  }

  /** A finding carries the extracted code, lists and metadata record. */
  lemma FindingOfContent(result: Dict, p: Parts)
    ensures var f := FindingOf(result, p);
      && f["code"] == VStr(p.code) && f["metadata"] == VDict(MetadataRecord(p.metadata))
      && f["dataflow"] == VList(p.dataflow) && f["references"] == VList(p.references)
      && f["security_patterns"] == VList(p.patterns)
  {
  }

  /** The finding built from one semgrep result, or the exception building it raised. */
  function Normalize(result: Dict, disk: Disk): (r: Result<Dict, string>)
    ensures r.Ok? <==> Gathered(result, disk).Ok?
    ensures r.Ok? ==> r.value == FindingOf(result, Gathered(result, disk).value)
  {
    match Gathered(result, disk)
    case Err(e) => Err(e)
    case Ok(p) => Ok(FindingOf(result, p))
  }

  /**
   * A bare result (only the code it carries) becomes a finding with every
   * default: severity UNKNOWN, empty message and path, line 0, no lists,
   * confidence UNKNOWN, and no rule id.
   */
  lemma BareResultDefaults(code: string, disk: Disk)
    requires code != "" && code != "requires login"
    ensures var r := Normalize(map["lines" := VStr(code)], disk);
      && r.Ok?
      && r.value["severity"] == VStr("UNKNOWN") && r.value["message"] == VStr("")
      && r.value["path"] == VStr("") && r.value["line"] == VInt(0)
      && r.value["rule_id"] == VNull && r.value["code"] == VStr(Strip(code))
      && r.value["dataflow"] == VList([]) && r.value["references"] == VList([])
      && r.value["security_patterns"] == VList([])
      && r.value["metadata"].entries["confidence"] == VStr("UNKNOWN")
  {
    var result := map["lines" := VStr(code)];
    assert "extra" !in result && "start" !in result && "dataflow_trace" !in result;
    assert "related_locations" !in result && "security-patterns" !in result;
    assert "check_id" !in result && "path" !in result;
    assert SubDict(result, "extra") == Ok(map[]);
    assert SubDict(map[], "metadata") == Ok(map[]);
    assert ExtractCode(result, disk) == Ok(Strip(code));
    assert SubDict(result, "start") == Ok(map[]);
    assert ExtractDataflow(result) == Ok([]);
    assert ExtractReferences(result) == Ok([]);
    assert ExtractSecurityPatterns(result) == Ok([]);
    var p := Parts(map[], map[], Strip(code), map[], [], [], []);
    assert Gathered(result, disk) == Ok(p);
    FindingOfSource(result, p);
    FindingOfContent(result, p);
  }

  /** `_process_results` over the `results` list: one finding per result, in order, or the first exception. */
  function ProcessResults(results: seq<Dict>, disk: Disk): (r: Result<seq<Dict>, string>)
    ensures r.Ok? <==> forall i :: 0 <= i < |results| ==> Normalize(results[i], disk).Ok?
    ensures r.Ok? ==> |r.value| == |results|
    ensures r.Ok? ==> forall i :: 0 <= i < |results| ==> r.value[i] == Normalize(results[i], disk).value
  {
    EachOk(results, x => Normalize(x, disk))
  }

  /** `f` over every element, in order, stopping at the first error. */
  function EachOk(xs: seq<Dict>, f: Dict -> Result<Dict, string>): (r: Result<seq<Dict>, string>)
    ensures r.Ok? <==> forall i :: 0 <= i < |xs| ==> f(xs[i]).Ok?
    ensures r.Ok? ==> |r.value| == |xs|
    ensures r.Ok? ==> forall i :: 0 <= i < |xs| ==> r.value[i] == f(xs[i]).value
  {
    if xs == [] then Ok([])
    else
      match EachOk(xs[..|xs| - 1], f)
      case Err(e) => Err(e)
      case Ok(front) => (
        match f(xs[|xs| - 1])
        case Err(e) => Err(e)
        case Ok(y) => Ok(front + [y]))
  }

  /** `results['json'].get('results', [])` through `_process_results`: no `json` entry raises. */
  function ProcessRawResults(results: Dict, disk: Disk): (r: Result<seq<Dict>, string>)
    ensures "json" !in results ==> r == Err("KeyError: 'json'")
    ensures "json" in results && results["json"] == VDict(map[]) ==> r == Ok([])
  {
    if "json" !in results then Err("KeyError: 'json'")
    else if !results["json"].VDict? then Err(NoGet)
    else match Dicts(Get(results["json"].entries, "results", VList([])))
      case Err(e) => Err(e)
      case Ok(rs) => ProcessResults(rs, disk)
  }
}
