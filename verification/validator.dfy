/**
 * The finding validator (semgrepai/validator.py), without the language
 * model, the progress bar and the thread pool.
 *
 * A finding is a dictionary (`Dict`). The model call is a parameter that
 * either returns the sections captured from its answer or raises; the
 * regular expressions that capture the sections are not modelled, only the
 * mapping from captured text to the fields of the validation record.
 * Gathering a file's context (`_prepare_finding_context`) reads files, so it
 * is a parameter too.
 */
module Validator {
  import opened Common

  // ================================================================ cache key

  /** `str(v)` for the values a finding's `line` can hold; `None` where the text is not modelled. */
  function LineText(v: Value): Option<string> {
    match v
    case VStr(s) => Some(s)
    case VInt(i) => Some(IntToString(i))
    case VNull => Some("None")
    case VBool(b) => Some(if b then "True" else "False")
    case _ => None
  }

  /** `finding.get(k, '')` where `'|'.join` needs a string. */
  function TextField(finding: Dict, k: string): Option<string> {
    var v := Get(finding, k, VStr(""));
    if v.VStr? then Some(v.s) else None
  }

  /** The four parts of the key, or `None` when the join would raise (a part that is not text). */
  function CacheKeyParts(finding: Dict): Option<seq<string>> {
    var rule := TextField(finding, "rule_id");
    var path := TextField(finding, "path");
    var line := LineText(Get(finding, "line", VStr("")));
    var message := TextField(finding, "message");
    if rule.Some? && path.Some? && line.Some? && message.Some? then
      Some([rule.value, path.value, line.value, message.value])
    else None
  }

  /** `_get_cache_key`: `rule_id|path|line|message`, with `''` for a missing field. */
  function CacheKey(finding: Dict): (key: Option<string>)
    ensures key.Some? <==> CacheKeyParts(finding).Some?
  {
    match CacheKeyParts(finding)
    case Some(parts) => Some(Join(parts, "|"))
    case None => None
  }

  /** An empty finding has the key `|||`. */
  lemma EmptyFindingKey()
    ensures CacheKey(map[]) == Some("|||")
  {
    var parts: seq<string> := ["", "", "", ""];
    assert CacheKeyParts(map[]) == Some(parts);
    assert parts[1..][1..][1..] == [""];
    assert Join(parts[1..][1..], "|") == "|";
    assert Join(parts[1..], "|") == "||";
    assert Join(parts, "|") == "|||";
  }

  /** When no part contains `'|'`, splitting the key on `'|'` gives the four parts back. */
  lemma CacheKeySplits(finding: Dict)
    requires CacheKeyParts(finding).Some?
    requires forall i :: 0 <= i < 4 ==> Free(CacheKeyParts(finding).value[i], '|')
    ensures Split(CacheKey(finding).value, '|') == CacheKeyParts(finding).value
  {
    SplitJoin(CacheKeyParts(finding).value, '|');
  }

  /** Two findings whose parts are free of `'|'` share a key only if they agree on all four parts. */
  lemma CacheKeyInjective(a: Dict, b: Dict)
    requires CacheKeyParts(a).Some? && CacheKeyParts(b).Some?
    requires forall i :: 0 <= i < 4 ==> Free(CacheKeyParts(a).value[i], '|') && Free(CacheKeyParts(b).value[i], '|')
    requires CacheKey(a) == CacheKey(b)
    ensures CacheKeyParts(a) == CacheKeyParts(b)
  {
    CacheKeySplits(a);
    CacheKeySplits(b);
  }

  // ================================================================ dataflow formatting

  /** One entry of a file's dataflow: its type, line and description. */
  datatype Flow = Flow(kind: string, line: int, description: string)

  /** The types printed first, in this order, under fixed headers. */
  const Leading: seq<string> := ["url_operation", "assignment", "call"]

  function Header(kind: string): string {
    if kind == "url_operation" then "URL Operations:"
    else if kind == "assignment" then "Variable Assignments:"
    else if kind == "call" then "Function Calls:"
    else Title(kind) + ":"
  }

  function FlowLine(f: Flow): string {
    "  Line " + IntToString(f.line) + ": " + f.description
  }

  function FlowLines(fs: seq<Flow>): (r: seq<string>)
    ensures |r| == |fs|
  {
    if fs == [] then [] else FlowLines(fs[..|fs| - 1]) + [FlowLine(fs[|fs| - 1])]
  }

  function Kinds(flows: seq<Flow>): (r: seq<string>)
    ensures |r| == |flows|
    ensures forall i :: 0 <= i < |flows| ==> r[i] == flows[i].kind
  {
    if flows == [] then [] else Kinds(flows[..|flows| - 1]) + [flows[|flows| - 1].kind]
  }

  /** The flows of one type, in input order. */
  function Group(flows: seq<Flow>, kind: string): seq<Flow> {
    if flows == [] then []
    else Group(flows[..|flows| - 1], kind) + (if flows[|flows| - 1].kind == kind then [flows[|flows| - 1]] else [])
  }

  /** The leading types that occur, in their fixed order. */
  function LeadingPresent(kinds: seq<string>): seq<string> {
    (if "url_operation" in kinds then ["url_operation"] else [])
      + (if "assignment" in kinds then ["assignment"] else [])
      + (if "call" in kinds then ["call"] else [])
  }

  /** The other types, keeping their order. */
  function Others(kinds: seq<string>): (r: seq<string>)
    ensures forall k :: k in r <==> k in kinds && k !in Leading
  {
    if kinds == [] then []
    else Others(kinds[..|kinds| - 1]) + (if kinds[|kinds| - 1] in Leading then [] else [kinds[|kinds| - 1]])
  }

  /** The order in which the groups are printed. */
  function GroupOrder(flows: seq<Flow>): seq<string> {
    LeadingPresent(Kinds(flows)) + Others(Distinct(Kinds(flows)))
  }

  /** A group as printed: its header, then one line per flow of that type in input order. */
  function Block(flows: seq<Flow>, kind: string): seq<string> {
    [Header(kind)] + FlowLines(Group(flows, kind))
  }

  function BlockOf(flows: seq<Flow>): string -> seq<string> {
    k => Block(flows, k)
  }

  /** The blocks of the types in `order`, one after another. */
  function Blocks(order: seq<string>, block: string -> seq<string>): seq<string> {
    if order == [] then [] else Blocks(order[..|order| - 1], block) + block(order[|order| - 1])
  }

  /** The lines `_format_dataflow` joins with newlines. */
  function DataflowLines(flows: seq<Flow>): seq<string> {
    Blocks(GroupOrder(flows), BlockOf(flows))
  }

  /** `_format_dataflow` as a value. */
  function FormattedDataflow(flows: seq<Flow>): string {
    if flows == [] then "No dataflow found" else Join(DataflowLines(flows), "\n")
  }

  lemma {:induction false} BlocksAppend(a: seq<string>, b: seq<string>, block: string -> seq<string>)
    ensures Blocks(a + b, block) == Blocks(a, block) + Blocks(b, block)
    decreases |b|
  {
    if b == [] {
      assert a + b == a;
    } else {
      var init, k := b[..|b| - 1], b[|b| - 1];
      assert a + b == (a + init) + [k];
      BlocksSnoc(a + init, k, block);
      BlocksAppend(a, init, block);
      BlocksSnoc(init, k, block);
      AppendAssoc(Blocks(a, block), Blocks(init, block), block(k));
    }
  }

  lemma BlocksSnoc(a: seq<string>, k: string, block: string -> seq<string>)
    ensures Blocks(a + [k], block) == Blocks(a, block) + block(k)
  {
    assert (a + [k])[..|a|] == a;
  }

  /** Number of lines a group order produces: one header per type plus its flows. */
  function GroupSizes(flows: seq<Flow>, order: seq<string>): nat {
    if order == [] then 0 else GroupSizes(flows, order[..|order| - 1]) + |Group(flows, order[|order| - 1])|
  }

  lemma {:induction false} BlocksLength(flows: seq<Flow>, order: seq<string>)
    ensures |Blocks(order, BlockOf(flows))| == |order| + GroupSizes(flows, order)
  {
    if order != [] {
      BlocksLength(flows, order[..|order| - 1]);
    }
  }

  /** How often `k` occurs in `ks`. */
  function Occurrences(ks: seq<string>, k: string): nat {
    if ks == [] then 0 else Occurrences(ks[..|ks| - 1], k) + (if ks[|ks| - 1] == k then 1 else 0)
  }

  lemma {:induction false} OccursOnce(ks: seq<string>, k: string)
    requires NoDuplicates(ks) && k in ks
    ensures Occurrences(ks, k) == 1
  {
    var init := ks[..|ks| - 1];
    assert NoDuplicates(init);
    if ks[|ks| - 1] == k {
      assert k !in init;
      OccursNever(init, k);
    } else {
      assert k in init;
      OccursOnce(init, k);
    }
  }

  lemma {:induction false} OccursNever(ks: seq<string>, k: string)
    requires k !in ks
    ensures Occurrences(ks, k) == 0
  {
    if ks != [] {
      assert k !in ks[..|ks| - 1];
      OccursNever(ks[..|ks| - 1], k);
    }
  }

  /** Adding one flow adds one line to the group of its type, for every occurrence of that type in the order. */
  lemma {:induction false} GroupSizesSnoc(flows: seq<Flow>, f: Flow, order: seq<string>)
    ensures GroupSizes(flows + [f], order) == GroupSizes(flows, order) + Occurrences(order, f.kind)
  {
    if order != [] {
      GroupSizesSnoc(flows, f, order[..|order| - 1]);
      assert (flows + [f])[..|flows + [f]| - 1] == flows;
    }
  }

  /** An order that lists every type once accounts for every flow once. */
  lemma {:induction false} GroupSizesCover(flows: seq<Flow>, order: seq<string>)
    requires NoDuplicates(order)
    requires forall f :: f in flows ==> f.kind in order
    ensures GroupSizes(flows, order) == |flows|
  {
    if flows == [] {
      EmptyGroupSizes(order);
    } else {
      var init, f := flows[..|flows| - 1], flows[|flows| - 1];
      assert flows == init + [f];
      GroupSizesCover(init, order);
      GroupSizesSnoc(init, f, order);
      OccursOnce(order, f.kind);
    }
  }

  lemma {:induction false} EmptyGroupSizes(order: seq<string>)
    ensures GroupSizes([], order) == 0
  {
    if order != [] {
      EmptyGroupSizes(order[..|order| - 1]);
    }
  }

  /** The print order lists every type that occurs, and each exactly once. */
  lemma GroupOrderLists(flows: seq<Flow>)
    ensures NoDuplicates(GroupOrder(flows))
    ensures forall k :: k in GroupOrder(flows) <==> k in Kinds(flows)
  {
    var kinds := Kinds(flows);
    LeadingPresentMembers(kinds);
    OthersKeepDistinct(Distinct(kinds));
    AppendNoDuplicates(LeadingPresent(kinds), Others(Distinct(kinds)));
  }

  /** The leading types present are distinct, and are exactly the leading types that occur. */
  lemma LeadingPresentMembers(kinds: seq<string>)
    ensures NoDuplicates(LeadingPresent(kinds))
    ensures forall k :: k in LeadingPresent(kinds) <==> k in kinds && k in Leading
  {
  }

  lemma {:induction false} OthersKeepDistinct(ks: seq<string>)
    requires NoDuplicates(ks)
    ensures NoDuplicates(Others(ks))
  {
    if ks != [] {
      var init := ks[..|ks| - 1];
      assert NoDuplicates(init);
      OthersKeepDistinct(init);
      assert ks[|ks| - 1] !in init;
    }
  }

  /** The formatted text has one line per flow plus one header per distinct type. */
  lemma DataflowLineCount(flows: seq<Flow>)
    ensures |DataflowLines(flows)| == |flows| + |GroupOrder(flows)|
  {
    GroupOrderLists(flows);
    BlocksLength(flows, GroupOrder(flows));
    forall f | f in flows
      ensures f.kind in GroupOrder(flows)
    {
      var i :| 0 <= i < |flows| && flows[i] == f;
      assert Kinds(flows)[i] == f.kind;
    }
    GroupSizesCover(flows, GroupOrder(flows));
  }

  /** Appends one group of `flows`: its header, then one line per flow of that type, in order. */
  method AppendGroup(lines: seq<string>, ghost flows: seq<Flow>, kind: string, group: seq<Flow>) returns (r: seq<string>)
    requires group == Group(flows, kind)
    ensures r == lines + BlockOf(flows)(kind)
  {
    var body: seq<string> := [];
    for i := 0 to |group|
      invariant body == FlowLines(group[..i])
    {
      FlowLinesPrefix(group, i);
      body := body + [FlowLine(group[i])];
    }
    assert group[..|group|] == group;
    BlockOfGroup(flows, kind);
    r := lines + ([Header(kind)] + body);
  }

  /** The lines of the first i+1 flows extend those of the first i. */
  lemma FlowLinesPrefix(group: seq<Flow>, i: nat)
    requires i < |group|
    ensures FlowLines(group[..i + 1]) == FlowLines(group[..i]) + [FlowLine(group[i])]
  {
    assert group[..i + 1][..i] == group[..i];
  }

  /** The printed block of a type, looked up through `BlockOf`. */
  lemma BlockOfGroup(flows: seq<Flow>, kind: string)
    ensures BlockOf(flows)(kind) == [Header(kind)] + FlowLines(Group(flows, kind))
  {
  }

  /** The grouping loop: types in first-seen order, and each type's flows in input order. */
  method GroupByType(flows: seq<Flow>) returns (byType: map<string, seq<Flow>>, seen: seq<string>)
    ensures seen == Distinct(Kinds(flows))
    ensures Grouped(flows, byType, seen)
  {
    byType := map[];
    seen := [];
    ghost var done: seq<Flow> := [];
    for i := 0 to |flows|
      invariant done == flows[..i]
      invariant seen == Distinct(Kinds(done))
      invariant Grouped(done, byType, seen)
    {
      PrefixSnoc(flows, i);
      byType, seen := AddToGroup(done, flows[i], byType, seen);
      done := done + [flows[i]];
    }
    assert done == flows;
  }

  /** One step of the grouping loop: a new type opens an empty group at the end, then the flow joins its group. */
  method AddToGroup(ghost flows: seq<Flow>, f: Flow, byType: map<string, seq<Flow>>, seen: seq<string>)
    returns (byType': map<string, seq<Flow>>, seen': seq<string>)
    requires seen == Distinct(Kinds(flows)) && Grouped(flows, byType, seen)
    ensures seen' == Distinct(Kinds(flows + [f])) && Grouped(flows + [f], byType', seen')
  {
    byType', seen' := byType, seen;
    if f.kind !in byType' {
      byType' := byType'[f.kind := []];
      seen' := seen' + [f.kind];
    }
    byType' := byType'[f.kind := byType'[f.kind] + [f]];
    ghost var before := if f.kind in byType then byType[f.kind] else [];
    assert byType' == byType[f.kind := before + [f]];
    GroupedSnoc(flows, f, byType, seen, byType', seen');
  }

  /** `byType` holds exactly the types of `seen`, each with its group of `flows`. */
  ghost predicate Grouped(flows: seq<Flow>, byType: map<string, seq<Flow>>, seen: seq<string>) {
    (forall k :: k in byType <==> k in seen) &&
    (forall k :: k in byType ==> byType[k] == Group(flows, k))
  }

  /** One step of the grouping loop keeps the grouping right for the longer prefix. */
  lemma GroupedSnoc(flows: seq<Flow>, f: Flow, byType: map<string, seq<Flow>>, seen: seq<string>,
                    byType': map<string, seq<Flow>>, seen': seq<string>)
    requires seen == Distinct(Kinds(flows)) && Grouped(flows, byType, seen)
    requires byType' == byType[f.kind := (if f.kind in byType then byType[f.kind] else []) + [f]]
    requires seen' == if f.kind in byType then seen else seen + [f.kind]
    ensures seen' == Distinct(Kinds(flows + [f])) && Grouped(flows + [f], byType', seen')
  {
    DistinctKindsSnoc(flows, f);
    if f.kind !in byType {
      GroupAbsent(flows, f.kind);
    }
    var before := if f.kind in byType then byType[f.kind] else [];
    GroupedStepKeys(byType, seen, f.kind, before + [f], byType', seen');
    GroupedStepGroups(flows, f, byType, before, byType');
  }

  lemma GroupedStepKeys(byType: map<string, seq<Flow>>, seen: seq<string>, kind: string, group: seq<Flow>,
                        byType': map<string, seq<Flow>>, seen': seq<string>)
    requires forall k :: k in byType <==> k in seen
    requires byType' == byType[kind := group]
    requires seen' == if kind in byType then seen else seen + [kind]
    ensures forall k :: k in byType' <==> k in seen'
  {
    forall k
      ensures k in byType' <==> k in seen'
    {
    }
  }

  lemma GroupedStepGroups(flows: seq<Flow>, f: Flow, byType: map<string, seq<Flow>>, before: seq<Flow>,
                          byType': map<string, seq<Flow>>)
    requires forall k :: k in byType ==> byType[k] == Group(flows, k)
    requires before == Group(flows, f.kind)
    requires byType' == byType[f.kind := before + [f]]
    ensures forall k :: k in byType' ==> byType'[k] == Group(flows + [f], k)
  {
    forall k | k in byType'
      ensures byType'[k] == Group(flows + [f], k)
    {
      GroupSnoc(flows, f, k);
    }
  }

  lemma DistinctKindsSnoc(flows: seq<Flow>, f: Flow)
    ensures var d := Distinct(Kinds(flows));
      Distinct(Kinds(flows + [f])) == if f.kind in d then d else d + [f.kind]
  {
    assert (flows + [f])[..|flows|] == flows;
    var ks := Kinds(flows + [f]);
    assert ks[..|ks| - 1] == Kinds(flows);
  }

  lemma GroupSnoc(flows: seq<Flow>, f: Flow, k: string)
    ensures Group(flows + [f], k) == Group(flows, k) + (if f.kind == k then [f] else [])
  {
    assert (flows + [f])[..|flows|] == flows;
  }

  lemma {:induction false} GroupAbsent(flows: seq<Flow>, k: string)
    requires k !in Kinds(flows)
    ensures Group(flows, k) == []
  {
    if flows != [] {
      assert Kinds(flows) == Kinds(flows[..|flows| - 1]) + [flows[|flows| - 1].kind];
      GroupAbsent(flows[..|flows| - 1], k);
    }
  }

  /** `_format_dataflow`: group by type, print the three leading types, then the others in first-seen order. */
  method FormatDataflow(flows: seq<Flow>) returns (text: string)
    ensures text == FormattedDataflow(flows)
  {
    if flows == [] {
      return "No dataflow found";
    }
    var byType, seen := GroupByType(flows);
    var leading := EmitLeading(flows, byType, seen);
    var others := EmitOthers(flows, byType, seen);
    BlocksAppend(LeadingPresent(Kinds(flows)), Others(seen), BlockOf(flows));
    text := Join(leading + others, "\n");
  }

  /** The three fixed groups, each only when that type occurs. */
  method EmitLeading(ghost flows: seq<Flow>, byType: map<string, seq<Flow>>, ghost seen: seq<string>)
    returns (lines: seq<string>)
    requires seen == Distinct(Kinds(flows)) && Grouped(flows, byType, seen)
    ensures lines == Blocks(LeadingPresent(Kinds(flows)), BlockOf(flows))
  {
    ghost var done: seq<string> := [];
    lines := [];
    lines, done := EmitIfPresent(lines, done, flows, byType, seen, "url_operation");
    lines, done := EmitIfPresent(lines, done, flows, byType, seen, "assignment");
    lines, done := EmitIfPresent(lines, done, flows, byType, seen, "call");
  }

  /** One `if kind in by_type` block of `_format_dataflow`. */
  method EmitIfPresent(lines: seq<string>, ghost done: seq<string>, ghost flows: seq<Flow>,
                       byType: map<string, seq<Flow>>, ghost seen: seq<string>, kind: string)
    returns (lines': seq<string>, ghost done': seq<string>)
    requires seen == Distinct(Kinds(flows)) && Grouped(flows, byType, seen)
    requires lines == Blocks(done, BlockOf(flows))
    ensures done' == done + (if kind in Kinds(flows) then [kind] else [])
    ensures lines' == Blocks(done', BlockOf(flows))
  {
    lines', done' := lines, done;
    if kind in byType {
      lines' := AppendGroup(lines, flows, kind, byType[kind]);
      BlocksSnoc(done, kind, BlockOf(flows));
      done' := done + [kind];
    }
  }

  lemma OthersSnoc(seen: seq<string>, j: nat)
    requires j < |seen|
    ensures seen[j] in Leading ==> Others(seen[..j + 1]) == Others(seen[..j])
    ensures seen[j] !in Leading ==> Others(seen[..j + 1]) == Others(seen[..j]) + [seen[j]]
  {
    assert seen[..j + 1][..j] == seen[..j];
  }

  /** The remaining groups, in the order their types were first seen. */
  method EmitOthers(ghost flows: seq<Flow>, byType: map<string, seq<Flow>>, seen: seq<string>)
    returns (lines: seq<string>)
    requires Grouped(flows, byType, seen)
    ensures lines == Blocks(Others(seen), BlockOf(flows))
  {
    ghost var block := BlockOf(flows);
    lines := [];
    for j := 0 to |seen|
      invariant lines == Blocks(Others(seen[..j]), block)
    {
      var k := seen[j];
      ghost var prev := Others(seen[..j]);
      OthersSnoc(seen, j);
      if k !in Leading {
        lines := AppendGroup(lines, flows, k, byType[k]);
        BlocksSnoc(prev, k, block);
      }
    }
    assert seen[..|seen|] == seen;
  }

  // ================================================================ validation record

  /** The `impact` part of a validation. */
  datatype Impact = Impact(business: string, dataSensitivity: string, exploitLikelihood: string)

  /** The `vulnerability` part of a validation. */
  datatype Vulnerability = Vulnerability(primary: string, subcategory: string)

  /** The `technical` part of a validation. */
  datatype Technical = Technical(language: string, component: string, scope: string)

  /** The `ai_validation` record; `isValid` is `None` while no verdict was read. */
  datatype Validation = Validation(
    isValid: Option<bool>,
    confidence: real,
    verdict: string,
    riskScore: int,
    impact: Impact,
    vulnerability: Vulnerability,
    technical: Technical,
    justification: string,
    poc: string,
    attackVectors: seq<string>,
    triggerSteps: seq<string>,
    recommendedFixes: seq<string>,
    notes: seq<string>)

  /** The record `_parse_validation_result` starts from. */
  const DefaultValidation: Validation := Validation(
    None, 0.0, "Unknown", 0,
    Impact("Unknown", "Unknown", "Unknown"),
    Vulnerability("Unknown", "Unknown"),
    Technical("Unknown", "Unknown", "Unknown"),
    "", "", [], [], [], [])

  /** The record written when validating a finding raised. */
  function ErrorValidation(justification: string): (v: Validation)
    ensures v == DefaultValidation.(verdict := "Error", justification := justification)
  {
    Validation(
      None, 0.0, "Error", 0,
      Impact("Unknown", "Unknown", "Unknown"),
      Vulnerability("Unknown", "Unknown"),
      Technical("Unknown", "Unknown", "Unknown"),
      justification, "", [], [], [], [])
  }

  function StrList(xs: seq<string>): seq<Value> {
    seq(|xs|, i requires 0 <= i < |xs| => VStr(xs[i]))
  }

  function Texts(vs: seq<Value>): Option<seq<string>> {
    if forall i :: 0 <= i < |vs| ==> vs[i].VStr? then Some(seq(|vs|, i requires 0 <= i < |vs| => vs[i].s)) else None
  }

  function ImpactValue(i: Impact): Value {
    VDict(map[
      "business" := VStr(i.business),
      "data_sensitivity" := VStr(i.dataSensitivity),
      "exploit_likelihood" := VStr(i.exploitLikelihood)])
  }

  function VulnerabilityValue(v: Vulnerability): Value {
    VDict(map["primary" := VStr(v.primary), "subcategory" := VStr(v.subcategory)])
  }

  function TechnicalValue(t: Technical): Value {
    VDict(map[
      "language" := VStr(t.language),
      "component" := VStr(t.component),
      "scope" := VStr(t.scope)])
  }

  /** The record as the dictionary stored under `ai_validation`. */
  function ValidationValue(v: Validation): Value {
    VDict(map[
      "is_valid" := (if v.isValid.Some? then VBool(v.isValid.value) else VNull),
      "confidence" := VReal(v.confidence),
      "verdict" := VStr(v.verdict),
      "risk_score" := VInt(v.riskScore),
      "impact" := ImpactValue(v.impact),
      "vulnerability" := VulnerabilityValue(v.vulnerability),
      "technical" := TechnicalValue(v.technical),
      "justification" := VStr(v.justification),
      "poc" := VStr(v.poc),
      "attack_vectors" := VList(StrList(v.attackVectors)),
      "trigger_steps" := VList(StrList(v.triggerSteps)),
      "recommended_fixes" := VList(StrList(v.recommendedFixes)),
      "notes" := VList(StrList(v.notes))])
  }

  function TextAt(d: Dict, k: string): Option<string> {
    if k in d && d[k].VStr? then Some(d[k].s) else None
  }

  function ListAt(d: Dict, k: string): Option<seq<string>> {
    if k in d && d[k].VList? then Texts(d[k].items) else None
  }

  function ReadImpact(v: Value): Option<Impact> {
    if !v.VDict? then None
    else
      var b, s, l := TextAt(v.entries, "business"), TextAt(v.entries, "data_sensitivity"), TextAt(v.entries, "exploit_likelihood");
      if b.Some? && s.Some? && l.Some? then Some(Impact(b.value, s.value, l.value)) else None
  }

  function ReadVulnerability(v: Value): Option<Vulnerability> {
    if !v.VDict? then None
    else
      var p, s := TextAt(v.entries, "primary"), TextAt(v.entries, "subcategory");
      if p.Some? && s.Some? then Some(Vulnerability(p.value, s.value)) else None
  }

  function ReadTechnical(v: Value): Option<Technical> {
    if !v.VDict? then None
    else
      var l, c, s := TextAt(v.entries, "language"), TextAt(v.entries, "component"), TextAt(v.entries, "scope");
      if l.Some? && c.Some? && s.Some? then Some(Technical(l.value, c.value, s.value)) else None
  }

  function ReadFlag(v: Value): Option<Option<bool>> {
    match v
    case VBool(b) => Some(Some(b))
    case VNull => Some(None)
    case _ => None
  }

  /** Reads a validation back from its dictionary form; `None` for a dictionary of another shape. */
  function ReadValidation(value: Value): Option<Validation> {
    if !value.VDict? then None
    else
      var d := value.entries;
      if !("is_valid" in d && "confidence" in d && "risk_score" in d && "impact" in d && "vulnerability" in d && "technical" in d) then None
      else
        var flag, impact, vuln, tech := ReadFlag(d["is_valid"]), ReadImpact(d["impact"]), ReadVulnerability(d["vulnerability"]), ReadTechnical(d["technical"]);
        var verdict, justification, poc := TextAt(d, "verdict"), TextAt(d, "justification"), TextAt(d, "poc");
        var vectors, steps, fixes, notes := ListAt(d, "attack_vectors"), ListAt(d, "trigger_steps"), ListAt(d, "recommended_fixes"), ListAt(d, "notes");
        if flag.None? || !d["confidence"].VReal? || !d["risk_score"].VInt? || impact.None? || vuln.None? || tech.None?
          || verdict.None? || justification.None? || poc.None? || vectors.None? || steps.None? || fixes.None? || notes.None?
        then None
        else
          Some(Validation(
            flag.value, d["confidence"].r, verdict.value, d["risk_score"].i, impact.value, vuln.value, tech.value,
            justification.value, poc.value, vectors.value, steps.value, fixes.value, notes.value))
  }

  lemma TextsOfStrList(xs: seq<string>)
    ensures Texts(StrList(xs)) == Some(xs)
  {
    var vs := StrList(xs);
    assert forall i :: 0 <= i < |vs| ==> vs[i] == VStr(xs[i]);
    assert seq(|vs|, i requires 0 <= i < |vs| => vs[i].s) == xs;
  }

  lemma PartsRoundTrip(v: Validation)
    ensures ReadImpact(ImpactValue(v.impact)) == Some(v.impact)
    ensures ReadVulnerability(VulnerabilityValue(v.vulnerability)) == Some(v.vulnerability)
    ensures ReadTechnical(TechnicalValue(v.technical)) == Some(v.technical)
    ensures ReadFlag(if v.isValid.Some? then VBool(v.isValid.value) else VNull) == Some(v.isValid)
  {
  }

  lemma ListsRoundTrip(v: Validation)
    ensures var d := ValidationValue(v).entries;
      ListAt(d, "attack_vectors") == Some(v.attackVectors) && ListAt(d, "trigger_steps") == Some(v.triggerSteps) &&
      ListAt(d, "recommended_fixes") == Some(v.recommendedFixes) && ListAt(d, "notes") == Some(v.notes)
  {
    TextsOfStrList(v.attackVectors);
    TextsOfStrList(v.triggerSteps);
    TextsOfStrList(v.recommendedFixes);
    TextsOfStrList(v.notes);
  }

  lemma TextsRoundTrip(v: Validation)
    ensures var d := ValidationValue(v).entries;
      TextAt(d, "verdict") == Some(v.verdict) && TextAt(d, "justification") == Some(v.justification) &&
      TextAt(d, "poc") == Some(v.poc) && d["confidence"] == VReal(v.confidence) && d["risk_score"] == VInt(v.riskScore)
  {
  }

  lemma NestedRoundTrip(v: Validation)
    ensures var d := ValidationValue(v).entries;
      "is_valid" in d && "impact" in d && "vulnerability" in d && "technical" in d &&
      ReadFlag(d["is_valid"]) == Some(v.isValid) && ReadImpact(d["impact"]) == Some(v.impact) &&
      ReadVulnerability(d["vulnerability"]) == Some(v.vulnerability) && ReadTechnical(d["technical"]) == Some(v.technical)
  {
    PartsRoundTrip(v);
  }

  /** The dictionary form loses nothing: reading it back gives the same record. */
  lemma ValidationValueRoundTrip(v: Validation)
    ensures ReadValidation(ValidationValue(v)) == Some(v)
  {
    ListsRoundTrip(v);
    TextsRoundTrip(v);
    NestedRoundTrip(v);
  }

  // ================================================================ reading the model's answer

  /**
   * What the section expressions captured from the answer: the text after each
   * heading (`"Verdict:"`, `"Attack Vectors:"`, ...), before stripping, and the
   * number after `Risk Score:`, which that expression only captures as digits.
   */
  datatype Captured = Captured(text: map<string, string>, riskScore: Option<nat>)

  /** The stripped text captured after `heading`, if any. */
  function Section(c: Captured, heading: string): (r: Option<string>)
    ensures r.Some? <==> heading in c.text
    ensures r.Some? ==> r.value == Strip(c.text[heading])
  {
    if heading in c.text then Some(Strip(c.text[heading])) else None
  }

  function SectionOr(c: Captured, heading: string, default: string): string {
    Section(c, heading).GetOr(default)
  }

  /** The captured confidence word as a score; the lookup is case-sensitive. */
  function ConfidenceScore(level: string): (r: real)
    ensures r == 0.9 <==> level == "High"
    ensures r == 0.6 <==> level == "Medium"
    ensures r == 0.3 <==> level == "Low"
    ensures r == 0.0 <==> level != "High" && level != "Medium" && level != "Low"
  {
    if level == "High" then 0.9
    else if level == "Medium" then 0.6
    else if level == "Low" then 0.3
    else 0.0
  }

  /** An item that is non-empty and carries no surrounding whitespace. */
  predicate Clean(x: string) {
    x != "" && Strip(x) == x
  }

  /** A list whose items are all clean. */
  predicate CleanItems(xs: seq<string>) {
    forall i :: 0 <= i < |xs| ==> Clean(xs[i])
  }

  /** `[v.strip() for v in lines if v.strip()]`. */
  function NonBlank(lines: seq<string>): (r: seq<string>)
    ensures CleanItems(r)
    ensures |r| <= |lines|
  {
    if lines == [] then []
    else
      var rest := NonBlank(lines[1..]);
      var s := Strip(lines[0]);
      StripIdempotent(lines[0]);
      if s != "" then CleanCons(s, rest); [s] + rest else rest
  }

  /** A clean item in front of clean items. */
  lemma CleanCons(s: string, rest: seq<string>)
    requires Clean(s) && CleanItems(rest)
    ensures CleanItems([s] + rest)
  {
    var r := [s] + rest;
    forall i | 0 <= i < |r|
      ensures Clean(r[i])
    {
      if i == 0 {
        assert r[i] == s;
      } else {
        assert r[i] == rest[i - 1];
      }
    }
  }

  /** A list section: its stripped text split on newlines, each line stripped, blank lines dropped. */
  function SectionItems(text: string): (r: seq<string>)
    ensures CleanItems(r)
  {
    NonBlank(Split(text, '\n'))
  }

  function ItemsOr(c: Captured, heading: string): seq<string> {
    match Section(c, heading)
    case Some(text) => SectionItems(text)
    case None => []
  }

  /** `_parse_validation_result`: each captured section sets its own field of the default record. */
  function ParseValidation(c: Captured): (v: Validation)
    ensures c.text == map[] && c.riskScore.None? ==> v == DefaultValidation
    ensures v.isValid.None? <==> "Verdict:" !in c.text
    ensures v.isValid == Some(true) <==> "Verdict:" in c.text && Lower(Strip(c.text["Verdict:"])) == "true positive"
    ensures "Verdict:" !in c.text ==> v.verdict == "Unknown"
    ensures v.confidence in {0.0, 0.3, 0.6, 0.9}
    ensures v.riskScore >= 0
    ensures CleanItems(v.attackVectors) && CleanItems(v.triggerSteps)
    ensures CleanItems(v.recommendedFixes) && CleanItems(v.notes)
  {
    var verdict := Section(c, "Verdict:");
    Validation(
      if verdict.Some? then Some(Lower(verdict.value) == "true positive") else None,
      match Section(c, "Confidence:") case Some(level) => ConfidenceScore(level) case None => 0.0,
      verdict.GetOr("Unknown"),
      c.riskScore.GetOr(0),
      Impact(
        SectionOr(c, "Business Impact:", "Unknown"),
        SectionOr(c, "Data Sensitivity:", "Unknown"),
        SectionOr(c, "Exploit Likelihood:", "Unknown")),
      Vulnerability(
        SectionOr(c, "Primary:", "Unknown"),
        SectionOr(c, "Sub-category:", "Unknown")),
      Technical(
        SectionOr(c, "Language/Framework:", "Unknown"),
        SectionOr(c, "Component Type:", "Unknown"),
        SectionOr(c, "Scope:", "Unknown")),
      SectionOr(c, "Justification:", ""),
      SectionOr(c, "Proof of Concept:", ""),
      ItemsOr(c, "Attack Vectors:"),
      ItemsOr(c, "Steps to Trigger:"),
      ItemsOr(c, "Recommended Fixes:"),
      ItemsOr(c, "Additional Notes:"))
  }

  /** Stripping a stripped string changes nothing. */
  lemma StripIdempotent(s: string)
    ensures Strip(Strip(s)) == Strip(s)
  {
    var l := LStripChars(s, Whitespace);
    var r := Strip(s);
    if r != "" {
      assert r[0] == l[0];
      NoStripNeeded(r);
    }
  }

  /** A string that neither starts nor ends with whitespace is its own strip. */
  lemma NoStripNeeded(s: string)
    requires s == "" || (s[0] !in Whitespace && s[|s| - 1] !in Whitespace)
    ensures Strip(s) == s
  {
  }

  /** A stripped, non-empty string starts and ends with non-whitespace. */
  lemma StrippedEnds(s: string)
    requires Clean(s)
    ensures s[0] !in Whitespace && s[|s| - 1] !in Whitespace
  {
    var l := LStripChars(s, Whitespace);
    var r := RStripChars(l, Whitespace);
    assert r == s;
    assert |l| == |s|;
    assert l == s[0..] == s;
  }

  lemma {:induction false} JoinEnds(items: seq<string>, sep: string)
    requires |items| >= 1 && forall i :: 0 <= i < |items| ==> items[i] != ""
    ensures Join(items, sep) != ""
    ensures Join(items, sep)[0] == items[0][0]
    ensures var j, last := Join(items, sep), items[|items| - 1]; j[|j| - 1] == last[|last| - 1]
  {
    if |items| > 1 {
      var rest := items[1..];
      forall i | 0 <= i < |rest| ensures rest[i] != "" {
        assert rest[i] == items[i + 1];
      }
      JoinEnds(rest, sep);
      var t := Join(rest, sep);
      var j := Join(items, sep);
      assert j == items[0] + (sep + t);
      assert j[0] == items[0][0];
      assert j[|j| - 1] == t[|t| - 1];
      assert rest[|rest| - 1] == items[|items| - 1];
    }
  }

  lemma {:induction false} NonBlankClean(items: seq<string>)
    requires CleanItems(items)
    ensures NonBlank(items) == items
  {
    if items != [] {
      assert Clean(items[0]);
      assert CleanItems(items[1..]) by {
        forall i | 0 <= i < |items| - 1
          ensures Clean(items[1..][i])
        {
          assert items[1..][i] == items[i + 1];
        }
      }
      NonBlankClean(items[1..]);
      assert NonBlank(items) == [items[0]] + NonBlank(items[1..]);
      HeadTail(items);
    }
  }

  lemma HeadTail<T>(s: seq<T>)
    requires s != []
    ensures [s[0]] + s[1..] == s
  {
  }

  /** Writing clean, single-line items one per line and reading the section back gives the items. */
  lemma SectionItemsRoundTrip(items: seq<string>)
    requires |items| >= 1 && CleanItems(items)
    requires forall i :: 0 <= i < |items| ==> Free(items[i], '\n')
    ensures Strip(Join(items, "\n")) == Join(items, "\n")
    ensures SectionItems(Strip(Join(items, "\n"))) == items
  {
    CleanEnds(items);
    JoinStripped(items);
    SplitJoin(items, '\n');
    NonBlankClean(items);
  }

  /** Clean items are non-empty and the first starts, the last ends, with non-whitespace. */
  lemma CleanEnds(items: seq<string>)
    requires |items| >= 1 && CleanItems(items)
    ensures forall i :: 0 <= i < |items| ==> items[i] != ""
    ensures items[0] != "" && items[0][0] !in Whitespace
    ensures var last := items[|items| - 1]; last != "" && last[|last| - 1] !in Whitespace
  {
    forall i | 0 <= i < |items| ensures items[i] != "" {
      assert Clean(items[i]);
    }
    StrippedEnds(items[0]);
    StrippedEnds(items[|items| - 1]);
  }

  /** Non-empty items joined by newlines need no stripping when the whole starts and ends with non-whitespace. */
  lemma JoinStripped(items: seq<string>)
    requires |items| >= 1 && forall i :: 0 <= i < |items| ==> items[i] != ""
    requires items[0][0] !in Whitespace
    requires var last := items[|items| - 1]; last[|last| - 1] !in Whitespace
    ensures Strip(Join(items, "\n")) == Join(items, "\n")
  {
    JoinEnds(items, "\n");
    NoStripNeeded(Join(items, "\n"));
  }

  // ================================================================ validating one finding

  /** The context keys `_validate_single_finding` fills with `setdefault`. */
  const ContextKeys: set<string> :=
    {"function_name", "class_name", "imports", "dataflow", "references", "security_patterns"}

  /** The value `setdefault` gives each context key. */
  function ContextDefault(k: string): Value {
    if k == "function_name" then VStr("Not in function")
    else if k == "class_name" then VStr("Not in class")
    else if k == "imports" then VStr("No imports")
    else if k == "dataflow" then VStr("No dataflow found")
    else if k == "references" then VStr("No references found")
    else VDict(map[])
  }

  predicate HasContext(f: Dict) {
    "function_name" in f && "class_name" in f && "imports" in f &&
    "dataflow" in f && "references" in f && "security_patterns" in f
  }

  /** The six `setdefault` calls: present keys keep their value, missing context keys get their default. */
  function WithContextDefaults(d: Dict): (r: Dict)
    ensures HasContext(r)
    ensures forall k :: k in d ==> k in r && r[k] == d[k]
    ensures forall k :: k in r ==> k in d || k in ContextKeys
    ensures forall k :: k in ContextKeys && k !in d ==> r[k] == ContextDefault(k)
  {
    d + map k | k in ContextKeys && k !in d :: ContextDefault(k)
  }

  /** The metadata entries shown to the model, in this order. `joined` entries are lists joined with `", "`. */
  datatype MetaField = MetaField(key: string, heading: string, joined: bool)

  const MetaFields: seq<MetaField> := [
    MetaField("cwe", "CWE: ", true),
    MetaField("owasp", "OWASP: ", false),
    MetaField("vulnerability_class", "Vulnerability: ", true),
    MetaField("confidence", "Confidence: ", false),
    MetaField("shortlink", "Rule Details: ", false)]

  /** Message of the exception raised when `metadata` is not a dictionary. */
  const MetadataNotDict := "metadata has no attribute 'get'"

  /** Message of the exception raised when `', '.join` meets something other than text. */
  const JoinNotText := "sequence item: expected str instance"

  /** `', '.join(v)`: a list of texts, or a text (joined character by character); anything else raises. */
  function JoinedItems(v: Value): Result<string, string> {
    match v
    case VStr(s) => Ok(Join(seq(|s|, i requires 0 <= i < |s| => [s[i]]), ", "))
    case VList(xs) => (
      match Texts(xs)
      case Some(parts) => Ok(Join(parts, ", "))
      case None => Err(JoinNotText))
    case _ => Err(JoinNotText)
  }

  /** `f"{v}"`: text as itself; other values through `show`, Python's `str`, which is not modelled. */
  function Display(v: Value, show: Value -> string): string {
    if v.VStr? then v.s else show(v)
  }

  /** The fields of `MetaFields` whose entry in `m` is truthy, in order. */
  function Present(m: Dict, fields: seq<MetaField>): (r: seq<MetaField>)
    ensures |r| <= |fields|
  {
    if fields == [] then []
    else Present(m, fields[..|fields| - 1]) + (if Truthy(Get(m, fields[|fields| - 1].key, VNull)) then [fields[|fields| - 1]] else [])
  }

  /** The metadata lines for `fields`, or the message of the exception a join raised. */
  function MetaLines(m: Dict, fields: seq<MetaField>, show: Value -> string): (r: Result<seq<string>, string>)
    ensures r.Ok? ==> |r.value| == |Present(m, fields)|
    ensures r.Ok? ==> forall i :: 0 <= i < |r.value| ==>
      var h := Present(m, fields)[i].heading; |h| <= |r.value[i]| && r.value[i][..|h|] == h
  {
    if fields == [] then Ok([])
    else
      var f := fields[|fields| - 1];
      var before := MetaLines(m, fields[..|fields| - 1], show);
      var v := Get(m, f.key, VNull);
      if before.Err? then before
      else if !Truthy(v) then before
      else if f.joined then
        match JoinedItems(v)
        case Ok(text) => Ok(before.value + [f.heading + text])
        case Err(e) => Err(e)
      else Ok(before.value + [f.heading + Display(v, show)])
  }

  /** The metadata block of a finding: one line per truthy entry, in the fixed order. */
  function MetadataLines(metadata: Value, show: Value -> string): (r: Result<seq<string>, string>)
    ensures !metadata.VDict? ==> r == Err(MetadataNotDict)
    ensures metadata.VDict? && r.Ok? ==> |r.value| == |Present(metadata.entries, MetaFields)|
  {
    if metadata.VDict? then MetaLines(metadata.entries, MetaFields, show) else Err(MetadataNotDict)
  }

  /** What the model call gave back: the captured sections of its answer, or the message of what it raised. */
  datatype Reply = Answer(captured: Captured) | Raised(message: string)

  /** The inputs the prompt is filled with. */
  function PromptInputs(f: Dict, metadata: string): Dict
    requires HasContext(f)
  {
    map[
      "rule_id" := Get(f, "rule_id", VStr("Unknown")),
      "severity" := Get(f, "severity", VStr("Unknown")),
      "message" := Get(f, "message", VStr("")),
      "code" := Get(f, "code", VStr("")),
      "path" := Get(f, "path", VStr("")),
      "line" := Get(f, "line", VInt(0)),
      "function_name" := f["function_name"],
      "class_name" := f["class_name"],
      "imports" := f["imports"],
      "dataflow" := f["dataflow"],
      "references" := f["references"],
      "security_patterns" := f["security_patterns"],
      "metadata" := VStr(metadata)]
  }

  /** The finding before its defaults: prepared by `prepare` when it has no truthy `code`. */
  function Prepared(finding: Dict, prepare: Dict -> Dict): Dict {
    if "code" !in finding || !Truthy(finding["code"]) then prepare(finding) else finding
  }

  /** Prefix of the justification written when validating a finding raised. */
  const ValidationErrorPrefix := "Error during validation: "

  /**
   * The validation of a finding that has its context: the parsed answer, or the
   * message of the exception raised while formatting the metadata or calling the model.
   */
  function Assess(f: Dict, show: Value -> string, llm: Dict -> Reply): (r: Result<Validation, string>)
    requires HasContext(f)
    ensures !Get(f, "metadata", VDict(map[])).VDict? ==> r == Err(MetadataNotDict)
    ensures r.Ok? ==> MetadataLines(Get(f, "metadata", VDict(map[])), show).Ok?
  {
    match MetadataLines(Get(f, "metadata", VDict(map[])), show)
    case Err(e) => Err(e)
    case Ok(lines) => (
      match llm(PromptInputs(f, Join(lines, "\n")))
      case Raised(e) => Err(e)
      case Answer(c) => Ok(ParseValidation(c)))
  }

  /** Writes the outcome into the finding: `ai_validation` (and `processing_time` on success). */
  function Record(f: Dict, outcome: Result<Validation, string>, elapsed: real): (r: Dict)
    ensures "ai_validation" in r
    ensures outcome.Ok? ==> "processing_time" in r && r["processing_time"] == VReal(elapsed)
    ensures forall k :: k in r <==> k in f || k == "ai_validation" || (outcome.Ok? && k == "processing_time")
    ensures forall k :: k in f && k != "ai_validation" && k != "processing_time" ==> r[k] == f[k]
    ensures outcome.Err? ==> forall k :: k in f && k != "ai_validation" ==> r[k] == f[k]
  {
    match outcome
    case Ok(v) => f["ai_validation" := ValidationValue(v)]["processing_time" := VReal(elapsed)]
    case Err(e) => f["ai_validation" := ValidationValue(ErrorValidation(ValidationErrorPrefix + e))]
  }

  /** The record stored in the finding is the validation, or the error record carrying the message. */
  lemma RecordStoresOutcome(f: Dict, outcome: Result<Validation, string>, elapsed: real)
    ensures ReadValidation(Record(f, outcome, elapsed)["ai_validation"]) ==
      Some(match outcome case Ok(v) => v case Err(e) => ErrorValidation(ValidationErrorPrefix + e))
  {
    match outcome
    case Ok(v) => ValidationValueRoundTrip(v);
    case Err(e) => ValidationValueRoundTrip(ErrorValidation(ValidationErrorPrefix + e));
  }

  /**
   * `_validate_single_finding`: never raises. The prepared finding gets its
   * context defaults, then its validation or the error record.
   */
  function ValidateSingleFinding(finding: Dict, prepare: Dict -> Dict, show: Value -> string,
                                 llm: Dict -> Reply, elapsed: real): (r: Dict)
    ensures "ai_validation" in r && HasContext(r)
    ensures forall k :: k in Prepared(finding, prepare) && k != "ai_validation" && k != "processing_time" ==>
      k in r && r[k] == Prepared(finding, prepare)[k]
  {
    var f := WithContextDefaults(Prepared(finding, prepare));
    Record(f, Assess(f, show, llm), elapsed)
  }

  /** Missing context keys hold their defaults, and no key other than the context keys and the two results is added. */
  lemma SingleFindingKeys(finding: Dict, prepare: Dict -> Dict, show: Value -> string, llm: Dict -> Reply, elapsed: real)
    ensures var p, r := Prepared(finding, prepare), ValidateSingleFinding(finding, prepare, show, llm, elapsed);
      && (forall k :: k in ContextKeys && k !in p ==> r[k] == ContextDefault(k))
      && (forall k :: k in r ==> k in p || k in ContextKeys || k == "ai_validation" || k == "processing_time")
  {
    var p := Prepared(finding, prepare);
    var f := WithContextDefaults(p);
    RecordKeys(p, Assess(f, show, llm), elapsed);
  }

  /** The keys of the record built from a prepared finding, whatever the outcome. */
  lemma RecordKeys(p: Dict, outcome: Result<Validation, string>, elapsed: real)
    ensures var r := Record(WithContextDefaults(p), outcome, elapsed);
      && (forall k :: k in ContextKeys && k !in p ==> k in r && r[k] == ContextDefault(k))
      && (forall k :: k in r ==> k in p || k in ContextKeys || k == "ai_validation" || k == "processing_time")
  {
    var f := WithContextDefaults(p);
    var r := Record(f, outcome, elapsed);
    ResultKeysNotContext();
    forall k | k in ContextKeys && k !in p
      ensures k in r && r[k] == ContextDefault(k)
    {
      assert k in f && r[k] == f[k];
    }
  }

  lemma ResultKeysNotContext()
    ensures "ai_validation" !in ContextKeys && "processing_time" !in ContextKeys
  {
    assert |"ai_validation"| == 13 && |"processing_time"| == 15;
  }

  /** A failure anywhere in validating a finding leaves the error record with the exception's message. */
  lemma SingleFindingError(finding: Dict, prepare: Dict -> Dict, show: Value -> string,
                           llm: Dict -> Reply, elapsed: real)
    ensures var f := WithContextDefaults(Prepared(finding, prepare));
      var outcome := Assess(f, show, llm);
      var r := ValidateSingleFinding(finding, prepare, show, llm, elapsed);
      && (outcome.Err? ==> ReadValidation(r["ai_validation"]) == Some(ErrorValidation(ValidationErrorPrefix + outcome.error)))
      && (outcome.Ok? ==> ReadValidation(r["ai_validation"]) == Some(outcome.value) && r["processing_time"] == VReal(elapsed))
  {
    var f := WithContextDefaults(Prepared(finding, prepare));
    RecordStoresOutcome(f, Assess(f, show, llm), elapsed);
  }

  /** When the model call raises, the finding's validation is the error record with the model's message. */
  lemma ModelFailureRecorded(f: Dict, show: Value -> string, llm: Dict -> Reply, elapsed: real)
    requires HasContext(f)
    requires MetadataLines(Get(f, "metadata", VDict(map[])), show).Ok?
    requires llm(PromptInputs(f, Join(MetadataLines(Get(f, "metadata", VDict(map[])), show).value, "\n"))).Raised?
    ensures var msg := llm(PromptInputs(f, Join(MetadataLines(Get(f, "metadata", VDict(map[])), show).value, "\n"))).message;
      var v := ReadValidation(Record(f, Assess(f, show, llm), elapsed)["ai_validation"]);
      v == Some(ErrorValidation(ValidationErrorPrefix + msg)) && v.value.verdict == "Error" &&
      v.value.confidence == 0.0 && v.value.riskScore == 0 && v.value.isValid.None?
  {
    RecordStoresOutcome(f, Assess(f, show, llm), elapsed);
  }

  // ================================================================ batches

  /** One finding through a step that may raise (`None`): a raise keeps the original finding. */
  function Processed(finding: Dict, step: Dict -> Option<Dict>): Dict {
    match step(finding)
    case Some(r) => r
    case None => finding
  }

  /** `_process_batch`: exactly one result per finding, in input order. */
  method ProcessBatch(batch: seq<Dict>, step: Dict -> Option<Dict>) returns (results: seq<Dict>)
    ensures |results| == |batch|
    ensures forall i :: 0 <= i < |batch| ==> results[i] == Processed(batch[i], step)
  {
    results := [];
    for i := 0 to |batch|
      invariant |results| == i
      invariant forall j :: 0 <= j < i ==> results[j] == Processed(batch[j], step)
    {
      var r := step(batch[i]);
      if r.Some? {
        results := results + [r.value];
      } else {
        results := results + [batch[i]];
      }
    }
  }

  /** The step `_process_batch` runs: `_validate_single_finding`, which never raises. */
  function ValidationStep(prepare: Dict -> Dict, show: Value -> string, llm: Dict -> Reply, elapsed: Dict -> real): Dict -> Option<Dict> {
    f => Some(ValidateSingleFinding(f, prepare, show, llm, elapsed(f)))
  }

  /** Every finding of a batch comes back with a validation record. */
  lemma BatchAllValidated(batch: seq<Dict>, prepare: Dict -> Dict, show: Value -> string,
                          llm: Dict -> Reply, elapsed: Dict -> real, i: nat)
    requires i < |batch|
    ensures var r := Processed(batch[i], ValidationStep(prepare, show, llm, elapsed));
      "ai_validation" in r && ReadValidation(r["ai_validation"]).Some?
  {
    var f := WithContextDefaults(Prepared(batch[i], prepare));
    RecordStoresOutcome(f, Assess(f, show, llm), elapsed(batch[i]));
  }

  /** `findings[i:i + size]` for `i` in `range(0, len(findings), size)`, for a positive size. */
  function ChunksOf(findings: seq<Dict>, size: nat): (r: seq<seq<Dict>>)
    requires size > 0
    ensures forall j :: 0 <= j < |r| ==> 0 < |r[j]| <= size
    decreases |findings|
  {
    if findings == [] then []
    else if |findings| <= size then [findings]
    else [findings[..size]] + ChunksOf(findings[size..], size)
  }

  /** The batches `validate_findings` submits: `range` raises for a zero step and is empty for a negative one. */
  function Batches(findings: seq<Dict>, size: int): (r: Result<seq<seq<Dict>>, string>)
    ensures size == 0 <==> r.Err?
    ensures size < 0 ==> r == Ok([])
  {
    if size == 0 then Err("range() arg 3 must not be zero")
    else if size < 0 then Ok([])
    else Ok(ChunksOf(findings, size))
  }

  function Flatten<T>(xs: seq<seq<T>>): seq<T> {
    if xs == [] then [] else xs[0] + Flatten(xs[1..])
  }

  /** The batches, put back together, are the findings. */
  lemma {:induction false} ChunksCover(findings: seq<Dict>, size: nat)
    requires size > 0
    ensures Flatten(ChunksOf(findings, size)) == findings
    decreases |findings|
  {
    if findings != [] && |findings| > size {
      ChunksCover(findings[size..], size);
      assert findings[..size] + findings[size..] == findings;
    }
  }

  /** There are `ceil(n / size)` batches: `size` times their number just reaches the number of findings. */
  lemma {:induction false} ChunksCount(findings: seq<Dict>, size: nat)
    requires size > 0
    ensures var k := |ChunksOf(findings, size)|;
      (k == 0 <==> findings == []) && (findings != [] ==> (k - 1) * size < |findings| <= k * size)
    decreases |findings|
  {
    if findings != [] && |findings| > size {
      ChunksCount(findings[size..], size);
      var k := |ChunksOf(findings[size..], size)|;
      assert |ChunksOf(findings, size)| == k + 1;
      assert (k + 1) * size == k * size + size;
      assert k * size == (k - 1) * size + size;
    }
  }

  /** All batches but the last are full. */
  lemma {:induction false} ChunksFull(findings: seq<Dict>, size: nat)
    requires size > 0
    ensures forall j :: 0 <= j < |ChunksOf(findings, size)| - 1 ==> |ChunksOf(findings, size)[j]| == size
    decreases |findings|
  {
    var r := ChunksOf(findings, size);
    if findings != [] && |findings| > size {
      ChunksFull(findings[size..], size);
      forall j | 0 <= j < |r| - 1
        ensures |r[j]| == size
      {
        if j > 0 {
          assert r[j] == ChunksOf(findings[size..], size)[j - 1];
        }
      }
    }
  }

  /** The findings from position `i` on; empty once `i` has passed the end. */
  function From(findings: seq<Dict>, i: nat): seq<Dict> {
    if i >= |findings| then [] else findings[i..]
  }

  lemma ChunkStep(findings: seq<Dict>, i: nat, size: nat)
    requires size > 0 && i < |findings|
    ensures ChunksOf(From(findings, i), size) ==
      [findings[i..Min(i + size, |findings|)]] + ChunksOf(From(findings, i + size), size)
  {
    var rest := findings[i..];
    assert From(findings, i) == rest;
    if |rest| > size {
      assert Min(i + size, |findings|) == i + size;
      assert rest[..size] == findings[i..i + size];
      assert From(findings, i + size) == findings[i + size..] == rest[size..];
    } else {
      assert Min(i + size, |findings|) == |findings|;
      assert From(findings, i + size) == [];
      assert findings[i..|findings|] == rest;
    }
  }

  /** The loop that slices `findings` into batches with a positive step. */
  method SliceBatches(findings: seq<Dict>, size: nat) returns (batches: seq<seq<Dict>>)
    requires size > 0
    ensures batches == ChunksOf(findings, size)
  {
    batches := [];
    var i := 0;
    assert From(findings, 0) == findings;
    while i < |findings|
      invariant batches + ChunksOf(From(findings, i), size) == ChunksOf(findings, size)
      decreases |findings| - i
    {
      ChunkStep(findings, i, size);
      var chunk := findings[i..Min(i + size, |findings|)];
      AppendAssoc(batches, [chunk], ChunksOf(From(findings, i + size), size));
      batches := batches + [chunk];
      i := i + size;
    }
    assert From(findings, i) == [];
    assert batches + [] == batches;
  }

  /** `order` yields each of `0..n-1` once: the order `as_completed` hands back `n` futures in. */
  predicate IsOrder(order: seq<nat>, n: nat) {
    |order| == n && (forall j :: 0 <= j < n ==> order[j] < n) && (forall i :: 0 <= i < n ==> i in order)
  }

  /** A whole batch through `_process_batch`. */
  function MapProcessed(batch: seq<Dict>, step: Dict -> Option<Dict>): (r: seq<Dict>)
    ensures |r| == |batch|
  {
    seq(|batch|, i requires 0 <= i < |batch| => Processed(batch[i], step))
  }

  /** What `validate_findings` collects from the batches in `order`; a batch in `raised` adds nothing. */
  function Collected(batches: seq<seq<Dict>>, order: seq<nat>, raised: set<nat>, step: Dict -> Option<Dict>): seq<Dict>
    requires forall j :: 0 <= j < |order| ==> order[j] < |batches|
  {
    if order == [] then []
    else
      var b := order[|order| - 1];
      Collected(batches, order[..|order| - 1], raised, step) + (if b in raised then [] else MapProcessed(batches[b], step))
  }

  /**
   * The batch loop of `validate_findings`: slices the findings into batches,
   * runs each batch, and appends the results of each batch whose future did
   * not raise, in the order the batches complete. The statistics that follow
   * are `ValidationStatistics.ValidateFindingsAsWritten`.
   */
  method CollectBatches(findings: seq<Dict>, batchSize: int, completion: seq<nat>, raised: set<nat>,
                          step: Dict -> Option<Dict>) returns (r: Result<seq<Dict>, string>)
    requires batchSize > 0 ==> IsOrder(completion, |ChunksOf(findings, batchSize)|)
    requires batchSize < 0 ==> completion == []
    ensures batchSize == 0 ==> r.Err?
    ensures batchSize < 0 ==> r == Ok([])
    ensures batchSize > 0 ==> r == Ok(Collected(ChunksOf(findings, batchSize), completion, raised, step))
  {
    if batchSize == 0 {
      return Err(Batches(findings, batchSize).error);
    }
    var batches: seq<seq<Dict>> := [];
    if batchSize > 0 {
      batches := SliceBatches(findings, batchSize);
    }
    var outputs: seq<seq<Dict>> := [];
    for b := 0 to |batches|
      invariant |outputs| == b
      invariant forall j :: 0 <= j < b ==> outputs[j] == MapProcessed(batches[j], step)
    {
      var out := ProcessBatch(batches[b], step);
      outputs := outputs + [out];
    }
    var validated: seq<Dict> := [];
    for j := 0 to |completion|
      invariant validated == Collected(batches, completion[..j], raised, step)
    {
      assert completion[..j + 1][..j] == completion[..j];
      var b := completion[j];
      if b !in raised {
        validated := validated + outputs[b];
      }
    }
    assert completion[..|completion|] == completion;
    return Ok(validated);
  }

  /** `[0, 1, ..., n-1]`. */
  function Upto(n: nat): (r: seq<nat>)
    ensures |r| == n && forall j :: 0 <= j < n ==> r[j] == j
  {
    if n == 0 then [] else Upto(n - 1) + [n - 1]
  }

  lemma {:induction false} FlattenSnoc<T>(xs: seq<seq<T>>, x: seq<T>)
    ensures Flatten(xs + [x]) == Flatten(xs) + x
  {
    if xs == [] {
      assert [x][1..] == [];
    } else {
      assert (xs + [x])[1..] == xs[1..] + [x];
      FlattenSnoc(xs[1..], x);
    }
  }

  lemma MapProcessedAppend(a: seq<Dict>, b: seq<Dict>, step: Dict -> Option<Dict>)
    ensures MapProcessed(a + b, step) == MapProcessed(a, step) + MapProcessed(b, step)
  {
  }

  /** Batches collected in submission order, none raising, are the batch steps of the concatenated batches. */
  lemma {:induction false} CollectedInOrder(batches: seq<seq<Dict>>, k: nat, step: Dict -> Option<Dict>)
    requires k <= |batches|
    ensures Collected(batches, Upto(k), {}, step) == MapProcessed(Flatten(batches[..k]), step)
  {
    if k == 0 {
      assert batches[..0] == [];
    } else {
      CollectedInOrder(batches, k - 1, step);
      assert Upto(k)[..k - 1] == Upto(k - 1);
      assert batches[..k] == batches[..k - 1] + [batches[k - 1]];
      FlattenSnoc(batches[..k - 1], batches[k - 1]);
      MapProcessedAppend(Flatten(batches[..k - 1]), batches[k - 1], step);
    }
  }

  /**
   * When the batches complete in the order they were submitted and none
   * raises, `validate_findings` returns one result per finding, in input order.
   */
  lemma OneResultPerFinding(findings: seq<Dict>, batchSize: nat, step: Dict -> Option<Dict>)
    requires batchSize > 0
    ensures var batches := ChunksOf(findings, batchSize);
      Collected(batches, Upto(|batches|), {}, step) == MapProcessed(findings, step)
  {
    var batches := ChunksOf(findings, batchSize);
    CollectedInOrder(batches, |batches|, step);
    assert batches[..|batches|] == batches;
    ChunksCover(findings, batchSize);
  }

  // ================================================================ the local batch processor

  /** What the future for finding `i` adds: a truthy result, nothing for an empty one, the original when it raised. */
  function LocalOutput(findings: seq<Dict>, i: nat, outcome: nat -> Option<Dict>): seq<Dict>
    requires i < |findings|
  {
    match outcome(i)
    case None => [findings[i]]
    case Some(d) => if d != map[] then [d] else []
  }

  function LocalCollected(findings: seq<Dict>, order: seq<nat>, outcome: nat -> Option<Dict>): seq<Dict>
    requires forall j :: 0 <= j < |order| ==> order[j] < |findings|
  {
    if order == [] then []
    else LocalCollected(findings, order[..|order| - 1], outcome) + LocalOutput(findings, order[|order| - 1], outcome)
  }

  /**
   * `ValidationBatchProcessor.process_findings` of the validator module: takes
   * the futures in completion order and stops at the first one handled after
   * the shutdown flag is set (`stopAt`, the number handled before that).
   */
  method ProcessFindingsLocal(findings: seq<Dict>, completion: seq<nat>, stopAt: nat, outcome: nat -> Option<Dict>)
    returns (processed: seq<Dict>)
    requires IsOrder(completion, |findings|)
    ensures processed == LocalCollected(findings, completion[..Min(stopAt, |completion|)], outcome)
  {
    processed := [];
    var j := 0;
    while j < |completion|
      invariant 0 <= j <= |completion| && j <= Min(stopAt, |completion|)
      invariant processed == LocalCollected(findings, completion[..j], outcome)
    {
      if j == stopAt {
        break;
      }
      assert completion[..j + 1][..j] == completion[..j];
      var i := completion[j];
      var r := outcome(i);
      if r.None? {
        processed := processed + [findings[i]];
      } else if r.value != map[] {
        processed := processed + [r.value];
      }
      j := j + 1;
    }
    assert j == Min(stopAt, |completion|);
  }

  /** With every call raising, the local processor returns the original findings in completion order. */
  lemma {:induction false} LocalAllRaised(findings: seq<Dict>, order: seq<nat>, outcome: nat -> Option<Dict>)
    requires forall j :: 0 <= j < |order| ==> order[j] < |findings|
    requires forall i :: outcome(i).None?
    ensures |LocalCollected(findings, order, outcome)| == |order|
    ensures forall j :: 0 <= j < |order| ==> LocalCollected(findings, order, outcome)[j] == findings[order[j]]
  {
    if order != [] {
      var n := |order| - 1;
      var front := order[..n];
      LocalAllRaised(findings, front, outcome);
      assert LocalOutput(findings, order[n], outcome) == [findings[order[n]]];
      var r := LocalCollected(findings, order, outcome);
      assert r == LocalCollected(findings, front, outcome) + [findings[order[n]]];
      forall j | 0 <= j < |order|
        ensures r[j] == findings[order[j]]
      {
        if j < n {
          assert front[j] == order[j];
        }
      }
    }
  }

  /** So a run that is not shut down returns every finding, and only those. */
  lemma LocalAllRaisedKeepsAll(findings: seq<Dict>, completion: seq<nat>, outcome: nat -> Option<Dict>)
    requires IsOrder(completion, |findings|)
    requires forall i :: outcome(i).None?
    ensures var r := LocalCollected(findings, completion, outcome);
      |r| == |findings| && (forall i :: 0 <= i < |findings| ==> findings[i] in r) && (forall d :: d in r ==> d in findings)
  {
    LocalAllRaised(findings, completion, outcome);
    var r := LocalCollected(findings, completion, outcome);
    forall i | 0 <= i < |findings|
      ensures findings[i] in r
    {
      assert i in completion;
      var j :| 0 <= j < |completion| && completion[j] == i;
      assert r[j] == findings[i];
    }
  }
}
