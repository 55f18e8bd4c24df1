/**
 * The per-finding code context of the analyzer: the `CodeContext` record and
 * the analyzer steps that fill it — the numbered snippet around a line, the
 * file an import resolves to, `from ... import` entries, assignment taint and
 * variable dependencies, and the line number of a pattern match.
 *
 * Python's AST is abstracted to `Expr`; `ast.unparse`, the user-input regular
 * expressions, the file system and the iteration order of a Python set are
 * parameters.
 */
module CodeAnalyzer {
  import opened Common

  // ------------------------------------------------------------ variables

  /** One entry of `CodeContext.variables`, as an assignment records it. */
  datatype VarInfo = VarInfo(
    name: string,
    line: int,
    typeName: Option<string>,
    value: Value,
    tainted: bool,
    source: Option<string>)

  /** The keys of a dict are distinct; `variables` is kept as its entries in insertion order. */
  predicate DistinctNames(vars: seq<VarInfo>) {
    forall i, j :: 0 <= i < j < |vars| ==> vars[i].name != vars[j].name
  }

  /** `variables.get(name)`. */
  function Lookup(vars: seq<VarInfo>, name: string): (r: Option<VarInfo>)
    ensures r.Some? ==> r.value.name == name && r.value in vars
    ensures r.None? ==> forall x :: x in vars ==> x.name != name
  {
    if vars == [] then None
    else if vars[0].name == name then Some(vars[0])
    else Lookup(vars[1..], name)
  }

  /** `variables[info.name] = info`: an existing key keeps its place, a new key goes last. */
  function Store(vars: seq<VarInfo>, info: VarInfo): (r: seq<VarInfo>)
    ensures Lookup(r, info.name) == Some(info)
    ensures forall n :: n != info.name ==> Lookup(r, n) == Lookup(vars, n)
    ensures forall x :: x in r ==> x == info || x in vars
  {
    if vars == [] then [info]
    else if vars[0].name == info.name then [info] + vars[1..]
    else [vars[0]] + Store(vars[1..], info)
  }

  /** Storing into a dict keeps its keys distinct. */
  lemma {:induction false} StoreKeepsDistinct(vars: seq<VarInfo>, info: VarInfo)
    ensures DistinctNames(vars) ==> DistinctNames(Store(vars, info))
  {
    if DistinctNames(vars) && vars != [] {
      var r := Store(vars, info);
      if vars[0].name == info.name {
        assert r == [info] + vars[1..];
        forall i, j | 0 <= i < j < |r|
          ensures r[i].name != r[j].name
        {
          assert r[j] == vars[j];
          if i > 0 {
            assert r[i] == vars[i];
          }
        }
      } else {
        var rest := vars[1..];
        var tail := Store(rest, info);
        assert DistinctNames(rest) by {
          forall i, j | 0 <= i < j < |rest|
            ensures rest[i].name != rest[j].name
          {
            assert rest[i] == vars[i + 1] && rest[j] == vars[j + 1];
          }
        }
        StoreKeepsDistinct(rest, info);
        assert r == [vars[0]] + tail;
        forall i, j | 0 <= i < j < |r|
          ensures r[i].name != r[j].name
        {
          assert r[j] == tail[j - 1];
          if i == 0 {
            assert r[j] in tail;
            if r[j] != info {
              var k :| 0 <= k < |rest| && rest[k] == r[j];
              assert vars[k + 1] == r[j];
            }
          } else {
            assert r[i] == tail[i - 1];
          }
        }
      }
    }
  }

  // ------------------------------------------------------------ the context

  /** `x or []` for an optional list. */
  function OrEmpty<T>(o: Option<seq<T>>): seq<T> {
    if o.Some? then o.value else []
  }

  /** `x or {}` for an optional dict. */
  function OrEmptyDict(o: Option<Dict>): Dict {
    if o.Some? then o.value else map[]
  }

  /** A dataflow entry: type, description and line, then the extra details (which win on a clash). */
  function Flow(flowType: string, description: string, line: int, details: Dict): (r: Dict)
    ensures r.Keys == {"type", "description", "line"} + details.Keys
    ensures forall k :: k in details ==> r[k] == details[k]
    ensures "type" !in details ==> r["type"] == VStr(flowType)
    ensures "description" !in details ==> r["description"] == VStr(description)
    ensures "line" !in details ==> r["line"] == VInt(line)
  {
    map["type" := VStr(flowType), "description" := VStr(description), "line" := VInt(line)] + details
  }

  /** The analysis context of one finding. */
  class CodeContext {
    const filePath: string
    var codeSnippet: string
    var lineNumber: int
    var functionName: Option<string>
    var className: Option<string>
    var references: seq<Dict>
    var imports: seq<string>
    var userInputSources: seq<Dict>
    var dangerousSinks: seq<Dict>
    var sanitizationFunctions: seq<Dict>
    var variables: seq<VarInfo>
    var functions: Dict
    var classes: Dict
    var dataflow: seq<Dict>

    /** `variables` is a dict: one entry per name. */
    ghost predicate Valid()
      reads this
    {
      DistinctNames(variables)
    }

    /** The dataclass constructor followed by `__post_init__`: every absent collection becomes empty. */
    constructor (filePath: string, codeSnippet: string, lineNumber: int,
                 functionName: Option<string>, className: Option<string>,
                 references: Option<seq<Dict>>, imports: Option<seq<string>>,
                 userInputSources: Option<seq<Dict>>, dangerousSinks: Option<seq<Dict>>,
                 sanitizationFunctions: Option<seq<Dict>>, variables: Option<seq<VarInfo>>,
                 functions: Option<Dict>, classes: Option<Dict>, dataflow: Option<seq<Dict>>)
      requires variables.Some? ==> DistinctNames(variables.value)
      ensures Valid()
      ensures this.filePath == filePath && this.codeSnippet == codeSnippet && this.lineNumber == lineNumber
      ensures this.functionName == functionName && this.className == className
      ensures this.references == OrEmpty(references) && this.imports == OrEmpty(imports)
      ensures this.userInputSources == OrEmpty(userInputSources)
      ensures this.dangerousSinks == OrEmpty(dangerousSinks)
      ensures this.sanitizationFunctions == OrEmpty(sanitizationFunctions)
      ensures this.variables == OrEmpty(variables)
      ensures this.functions == OrEmptyDict(functions) && this.classes == OrEmptyDict(classes)
      ensures this.dataflow == OrEmpty(dataflow)
    {
      this.filePath := filePath;
      this.codeSnippet := codeSnippet;
      this.lineNumber := lineNumber;
      this.functionName := functionName;
      this.className := className;
      this.references := OrEmpty(references);
      this.imports := OrEmpty(imports);
      this.userInputSources := OrEmpty(userInputSources);
      this.dangerousSinks := OrEmpty(dangerousSinks);
      this.sanitizationFunctions := OrEmpty(sanitizationFunctions);
      this.variables := OrEmpty(variables);
      this.functions := OrEmptyDict(functions);
      this.classes := OrEmptyDict(classes);
      this.dataflow := OrEmpty(dataflow);
    }

    /** `add_dataflow`: exactly one entry is appended, and nothing else changes. */
    method AddDataflow(flowType: string, description: string, line: int, details: Dict)
      modifies this`dataflow
      ensures dataflow == old(dataflow) + [Flow(flowType, description, line, details)]
    {
      dataflow := dataflow + [Flow(flowType, description, line, details)];
    }
  }

  // ------------------------------------------------------------ snippet

  /** The default number of context lines on each side of the flagged line. */
  const DefaultContextLines := 3

  /** What opening and reading the file gave. */
  datatype FileRead = NotFound | ReadError(message: string) | Read(lines: seq<string>)

  /** First index of the window around the 1-based line `n`. */
  function WindowFirst(n: int, ctx: int): int { Max(0, n - 1 - ctx) }

  /** One past the last index of the window. */
  function WindowEnd(count: nat, n: int, ctx: int): int { Min(count, n - 1 + ctx + 1) }

  /** One numbered line; the flagged line is prefixed `"> "`, the others two spaces. */
  function SnippetLine(i: nat, text: string, flagged: bool): string {
    (if flagged then "> " else "  ") + NatToString(i + 1) + ": " + RStrip(text)
  }

  /** The numbered lines of the window, in file order. */
  function SnippetLines(lines: seq<string>, n: int, ctx: int): seq<string> {
    var lo := WindowFirst(n, ctx);
    var hi := WindowEnd(|lines|, n, ctx);
    if hi <= lo then []
    else seq(hi - lo, k requires 0 <= k < hi - lo => SnippetLine(lo + k, lines[lo + k], lo + k == n - 1))
  }

  /** `extract_code_snippet`: the window around line `n` of the file, or the error text. */
  function ExtractCodeSnippet(file: FileRead, n: int, ctx: int): (r: string)
    ensures file.NotFound? ==> r == "File not found"
    ensures file.ReadError? ==> r == "Error extracting code: " + file.message
    ensures file == Read([]) ==> r == "Empty file"
    ensures file.Read? && file.lines != [] ==> r == Join(SnippetLines(file.lines, n, ctx), "\n")
  {
    match file
    case NotFound => "File not found"
    case ReadError(message) => "Error extracting code: " + message
    case Read(lines) =>
      if lines == [] then "Empty file" else Join(SnippetLines(lines, n, ctx), "\n")
  }

  /**
   * The window holds exactly the existing lines at most `ctx` away from line
   * `n`, so at most 2·ctx+1 of them, and the marker is on line `n` alone.
   */
  lemma SnippetWindow(lines: seq<string>, n: int, ctx: int)
    requires ctx >= 0
    ensures var r := SnippetLines(lines, n, ctx);
      && |r| <= 2 * ctx + 1
      && |r| == Max(0, WindowEnd(|lines|, n, ctx) - WindowFirst(n, ctx))
      && (forall i :: 0 <= i < |lines| && n - 1 - ctx <= i <= n - 1 + ctx ==>
            && WindowFirst(n, ctx) <= i < WindowEnd(|lines|, n, ctx)
            && r[i - WindowFirst(n, ctx)] == SnippetLine(i, lines[i], i == n - 1))
      && (forall k :: 0 <= k < |r| ==>
            var i := WindowFirst(n, ctx) + k;
            && n - 1 - ctx <= i <= n - 1 + ctx
            && r[k] == SnippetLine(i, lines[i], i == n - 1)
            && (r[k][..2] == "> " <==> i == n - 1))
  {
    var r := SnippetLines(lines, n, ctx);
    forall k | 0 <= k < |r|
      ensures |r[k]| >= 2 && (r[k][..2] == "> " <==> WindowFirst(n, ctx) + k == n - 1)
    {
      var i := WindowFirst(n, ctx) + k;
      SnippetMarker(i, lines[i], i == n - 1);
    }
  }

  /** The first two characters of a numbered line are the marker. */
  lemma SnippetMarker(i: nat, text: string, flagged: bool)
    ensures |SnippetLine(i, text, flagged)| >= 2
    ensures SnippetLine(i, text, flagged)[..2] == "> " <==> flagged
  {
    var head := if flagged then "> " else "  ";
    assert SnippetLine(i, text, flagged) == head + (NatToString(i + 1) + ": " + RStrip(text));
    assert SnippetLine(i, text, flagged)[..2] == head;
    assert !flagged ==> head[0] != '>';
  }

  // ------------------------------------------------------------ line numbers

  /** Counting a character over a concatenation. */
  lemma {:induction false} CountCharConcat(a: string, b: string, c: char)
    ensures CountChar(a + b, c) == CountChar(a, c) + CountChar(b, c)
  {
    if a == "" {
      assert a + b == b;
    } else {
      assert (a + b)[0] == a[0];
      assert (a + b)[1..] == a[1..] + b;
      CountCharConcat(a[1..], b, c);
    }
  }

  /** `s.split(c)` has one piece more than `s` has separators. */
  lemma {:induction false} SplitCount(s: string, c: char)
    ensures |Split(s, c)| == CountChar(s, c) + 1
  {
    if s != "" {
      SplitCount(s[1..], c);
    }
  }

  /** `content.count('\n', 0, p) + 1`: the line on which a match starting at offset `p` lies. */
  function LineAt(content: string, p: nat): (n: nat)
    requires p <= |content|
    ensures 1 <= n <= CountChar(content, '\n') + 1
  {
    assert content == content[..p] + content[p..];
    CountCharConcat(content[..p], content[p..], '\n');
    CountChar(content[..p], '\n') + 1
  }

  /** Moving past one character moves to the next line exactly when that character is a newline. */
  lemma LineAtStep(content: string, p: nat)
    requires p < |content|
    ensures LineAt(content, p + 1) == LineAt(content, p) + (if content[p] == '\n' then 1 else 0)
  {
    assert content[..p + 1] == content[..p] + [content[p]];
    CountCharConcat(content[..p], [content[p]], '\n');
  }

  /** Later offsets are never on earlier lines. */
  lemma {:induction false} LineAtMonotone(content: string, p: nat, q: nat)
    requires p <= q <= |content|
    ensures LineAt(content, p) <= LineAt(content, q)
    decreases q - p
  {
    if p < q {
      LineAtStep(content, p);
      LineAtMonotone(content, p + 1, q);
    }
  }

  /** `content.splitlines()` for text whose only line break is `'\n'`. */
  function SplitLines(content: string): (r: seq<string>)
    ensures content != "" && content[|content| - 1] == '\n' ==> |r| == CountChar(content, '\n')
    ensures content != "" && content[|content| - 1] != '\n' ==> |r| == CountChar(content, '\n') + 1
  {
    SplitCount(content, '\n');
    var pieces := Split(content, '\n');
    if content == "" then []
    else if content[|content| - 1] == '\n' then pieces[..|pieces| - 1]
    else pieces
  }

  /** A match inside the text lies on a line that `splitlines()` has. */
  lemma MatchLineExists(content: string, p: nat)
    requires p < |content|
    ensures LineAt(content, p) <= |SplitLines(content)|
  {
    var last := |content| - 1;
    if content[last] == '\n' {
      assert content[..p] + content[p..last] + [content[last]] == content;
      CountCharConcat(content[..p] + content[p..last], [content[last]], '\n');
      CountCharConcat(content[..p], content[p..last], '\n');
    }
  }

  /** One entry of `_find_security_patterns`: the pattern, the line of the match and that line stripped. */
  function PatternEntry(content: string, pattern: string, start: nat): (r: Dict)
    requires start < |content|
    ensures r.Keys == {"pattern", "line", "content"}
    ensures r["line"] == VInt(LineAt(content, start))
  {
    MatchLineExists(content, start);
    var line := LineAt(content, start);
    map["pattern" := VStr(pattern), "line" := VInt(line), "content" := VStr(Strip(SplitLines(content)[line - 1]))]
  }

  /** The entries for all matches of one pattern, in match order. */
  function PatternEntries(content: string, pattern: string, starts: seq<nat>): (r: seq<Dict>)
    requires forall k :: 0 <= k < |starts| ==> starts[k] < |content|
    ensures |r| == |starts|
    ensures forall k :: 0 <= k < |r| ==> r[k] == PatternEntry(content, pattern, starts[k])
  {
    seq(|starts|, k requires 0 <= k < |starts| => PatternEntry(content, pattern, starts[k]))
  }

  // ------------------------------------------------------------ import files

  /** The module name with every `'.'` turned into `'/'`. */
  function Slashed(name: string): (r: string)
    ensures |r| == |name|
    ensures forall i :: 0 <= i < |name| ==> r[i] == if name[i] == '.' then '/' else name[i]
  {
    if name == "" then "" else [if name[0] == '.' then '/' else name[0]] + Slashed(name[1..])
  }

  /** Joining pieces whose first one is extended at the front. */
  lemma JoinConsHead(c: char, parts: seq<string>, sep: string)
    requires |parts| >= 1
    ensures Join([[c] + parts[0]] + parts[1..], sep) == [c] + Join(parts, sep)
  {
    var q := [[c] + parts[0]] + parts[1..];
    assert q[1..] == parts[1..];
  }

  /** `'/'.join(name.split('.'))` is the name with its dots turned into slashes. */
  lemma {:induction false} ModulePathSlashed(name: string)
    ensures Join(Split(name, '.'), "/") == Slashed(name)
  {
    if name != "" {
      ModulePathSlashed(name[1..]);
      var rest := Split(name[1..], '.');
      if name[0] == '.' {
        assert ([""] + rest)[1..] == rest;
      } else {
        JoinConsHead(name[0], rest, "/");
      }
    }
  }

  /** The three files `_find_import_file` tries, in order. */
  function ImportCandidates(root: string, name: string): (r: seq<string>)
    ensures |r| == 3
    ensures r[0] == root + "/" + Slashed(name) + ".py"
    ensures r[1] == root + "/" + Slashed(name) + ".pyi"
    ensures r[2] == root + "/" + Slashed(name) + "/__init__.py"
  {
    ModulePathSlashed(name);
    var path := Join(Split(name, '.'), "/");
    [root + "/" + path + ".py", root + "/" + path + ".pyi", root + "/" + path + "/__init__.py"]
  }

  /** The first candidate that is a file. */
  function FirstFile(candidates: seq<string>, isFile: string -> bool): (r: Option<string>)
    ensures r.None? <==> forall i :: 0 <= i < |candidates| ==> !isFile(candidates[i])
    ensures r.Some? ==> exists i :: (0 <= i < |candidates| && r.value == candidates[i] && isFile(candidates[i])
      && forall j :: 0 <= j < i ==> !isFile(candidates[j]))
  {
    if candidates == [] then None
    else if isFile(candidates[0]) then Some(candidates[0])
    else
      var r := FirstFile(candidates[1..], isFile);
      assert forall i :: 1 <= i < |candidates| ==> candidates[i] == candidates[1..][i - 1];
      r
  }

  /** `_find_import_file`: the first existing candidate, else None. */
  function FindImportFile(root: string, name: string, isFile: string -> bool): (r: Option<string>)
    ensures r.None? <==> forall i :: 0 <= i < 3 ==> !isFile(ImportCandidates(root, name)[i])
    ensures r.Some? ==> exists i :: (0 <= i < 3 && r.value == ImportCandidates(root, name)[i]
      && isFile(r.value) && forall j :: 0 <= j < i ==> !isFile(ImportCandidates(root, name)[j]))
  {
    FirstFile(ImportCandidates(root, name), isFile)
  }

  /** A module file wins over a stub, and both over a package of the same name. */
  lemma ModuleFileFirst(root: string, name: string, isFile: string -> bool)
    ensures isFile(root + "/" + Slashed(name) + ".py") ==>
      FindImportFile(root, name, isFile) == Some(root + "/" + Slashed(name) + ".py")
    ensures !isFile(root + "/" + Slashed(name) + ".py") && isFile(root + "/" + Slashed(name) + ".pyi") ==>
      FindImportFile(root, name, isFile) == Some(root + "/" + Slashed(name) + ".pyi")
  {
  }

  // ------------------------------------------------------------ imports

  /** The entries `f"{module}.{name}"`, in order. */
  function Qualified(moduleName: string, names: seq<string>): (r: seq<string>)
    ensures |r| == |names|
    ensures forall i :: 0 <= i < |names| ==> r[i] == moduleName + "." + names[i]
  {
    seq(|names|, i requires 0 <= i < |names| => moduleName + "." + names[i])
  }

  /** `module` is set and non-empty: Python's `if node.module:`. */
  predicate NamedModule(moduleName: Option<string>) {
    moduleName.Some? && moduleName.value != ""
  }

  /** `_analyze_import_from`: the qualified names are appended only when the module is named. */
  method AnalyzeImportFrom(context: CodeContext, moduleName: Option<string>, names: seq<string>)
    modifies context`imports
    ensures NamedModule(moduleName) ==> context.imports == old(context.imports) + Qualified(moduleName.value, names)
    ensures !NamedModule(moduleName) ==> context.imports == old(context.imports)
  {
    if NamedModule(moduleName) {
      var i := 0;
      while i < |names|
        invariant 0 <= i <= |names|
        invariant context.imports == old(context.imports) + Qualified(moduleName.value, names)[..i]
      {
        context.imports := context.imports + [moduleName.value + "." + names[i]];
        assert Qualified(moduleName.value, names)[..i + 1] == Qualified(moduleName.value, names)[..i] + [moduleName.value + "." + names[i]];
        i := i + 1;
      }
      assert Qualified(moduleName.value, names)[..|names|] == Qualified(moduleName.value, names);
    }
  }

  /** The visitor in `analyze_file`: a missing module is read as `''`, and every name is appended. */
  method VisitImportFrom(context: CodeContext, moduleName: Option<string>, names: seq<string>)
    modifies context`imports
    ensures context.imports == old(context.imports) + Qualified(moduleName.GetOr(""), names)
  {
    var prefix := moduleName.GetOr("");
    var i := 0;
    while i < |names|
      invariant 0 <= i <= |names|
      invariant context.imports == old(context.imports) + Qualified(prefix, names)[..i]
    {
      context.imports := context.imports + [prefix + "." + names[i]];
      assert Qualified(prefix, names)[..i + 1] == Qualified(prefix, names)[..i] + [prefix + "." + names[i]];
      i := i + 1;
    }
    assert Qualified(prefix, names)[..|names|] == Qualified(prefix, names);
  }

  /** For a relative import the two disagree: the visitor records `".name"`, the analyzer nothing. */
  lemma RelativeImportEntries(names: seq<string>)
    ensures forall i :: 0 <= i < |names| ==> Qualified(Option<string>.None.GetOr(""), names)[i] == "." + names[i]
    ensures !NamedModule(None) && !NamedModule(Some(""))
  {
  }

  // ------------------------------------------------------------ expressions

  /** The right-hand side of an assignment, as far as the analysis looks at it. */
  datatype Expr =
    | Name(id: string)
    | Literal(v: Value)               // an expression `ast.literal_eval` accepts
    | Call(func: Expr, args: seq<Expr>)
    | Attribute(obj: Expr, attr: string)
    | Subscript(obj: Expr, index: Expr)
    | Operation(operands: seq<Expr>)  // any other expression, by its sub-expressions

  /** An assignment target: a plain name (with its line) or anything else. */
  datatype Target = NameTarget(id: string, line: int) | OtherTarget

  /** The identifiers of the `Name` nodes that `ast.walk` visits. */
  function Names(e: Expr): set<string>
    decreases e
  {
    match e
    case Name(id) => {id}
    case Literal(_) => {}
    case Call(f, args) => Names(f) + NamesOf(args)
    case Attribute(obj, _) => Names(obj)
    case Subscript(obj, index) => Names(obj) + Names(index)
    case Operation(operands) => NamesOf(operands)
  }

  /** The identifiers of the `Name` nodes under a list of expressions. */
  function NamesOf(es: seq<Expr>): set<string>
    decreases es
  {
    if es == [] then {} else Names(es[0]) + NamesOf(es[1..])
  }

  /** `type(value).__name__` of a literal. */
  function TypeName(v: Value): string {
    match v
    case VNull => "NoneType"
    case VBool(_) => "bool"
    case VInt(_) => "int"
    case VReal(_) => "float"
    case VStr(_) => "str"
    case VList(_) => "list"
    case VDict(_) => "dict"
  }

  // ------------------------------------------------------------ taint

  /** A taint status and the source it came from. */
  datatype Taint = Taint(tainted: bool, source: Option<string>)

  /** The callee text when the value is a call to something a user-input pattern matches. */
  function CallSource(value: Expr, unparse: Expr -> string, userInput: string -> bool): (r: Option<string>)
    ensures r.Some? <==> value.Call? && userInput(unparse(value.func))
    ensures r.Some? ==> r.value == unparse(value.func)
  {
    if value.Call? && userInput(unparse(value.func)) then Some(unparse(value.func)) else None
  }

  /** An earlier variable whose name occurs in the value text and which is tainted. */
  predicate Feeds(v: VarInfo, text: string) {
    Contains(text, v.name) && v.tainted
  }

  /** The taint after visiting `vars` in order: each feeding variable passes on its taint and source. */
  function Inherit(vars: seq<VarInfo>, text: string, start: Taint): (t: Taint)
    ensures t.tainted <==> start.tainted || exists i :: 0 <= i < |vars| && Feeds(vars[i], text)
    ensures (forall i :: 0 <= i < |vars| ==> !Feeds(vars[i], text)) ==> t == start
    ensures (exists i :: 0 <= i < |vars| && Feeds(vars[i], text)) ==>
      exists i :: 0 <= i < |vars| && Feeds(vars[i], text) && t.source == vars[i].source
        && forall j :: i < j < |vars| ==> !Feeds(vars[j], text)
    decreases |vars|
  {
    if vars == [] then start
    else
      var last := vars[|vars| - 1];
      var before := Inherit(vars[..|vars| - 1], text, start);
      assert forall i :: 0 <= i < |vars| - 1 ==> vars[..|vars| - 1][i] == vars[i];
      if Feeds(last, text) then Taint(true, last.source) else before
  }

  /** The record `_analyze_assignment` stores for one name target. */
  function AssignedInfo(vars: seq<VarInfo>, id: string, line: int, value: Expr,
                        unparse: Expr -> string, userInput: string -> bool): (r: VarInfo)
    ensures r.name == id && r.line == line
    ensures value.Literal? ==> r == VarInfo(id, line, Some(TypeName(value.v)), value.v, false, None)
    ensures !value.Literal? ==> r.value == VStr(unparse(value)) && r.typeName == None
    ensures r.tainted <==> (!value.Literal? &&
      (CallSource(value, unparse, userInput).Some? || exists i :: 0 <= i < |vars| && Feeds(vars[i], unparse(value))))
    ensures !value.Literal? && (forall i :: 0 <= i < |vars| ==> !Feeds(vars[i], unparse(value))) ==>
      r.source == CallSource(value, unparse, userInput)
  {
    if value.Literal? then VarInfo(id, line, Some(TypeName(value.v)), value.v, false, None)
    else
      var call := CallSource(value, unparse, userInput);
      var t := Inherit(vars, unparse(value), Taint(call.Some?, call));
      VarInfo(id, line, None, VStr(unparse(value)), t.tainted, t.source)
  }

  /** Python's text for an optional source: `None` or the string itself. */
  function SourceText(source: Option<string>): string {
    if source.Some? then source.value else "None"
  }

  /** The `'assignment'` dataflow entry for a tainted variable. */
  function TaintEntry(info: VarInfo): Dict {
    Flow("assignment", "Tainted variable '" + info.name + "' from " + SourceText(info.source), info.line,
         map["variable" := VStr(info.name),
             "source" := if info.source.Some? then VStr(info.source.value) else VNull])
  }

  /** The variables and dataflow an assignment works on. */
  datatype Facts = Facts(vars: seq<VarInfo>, flow: seq<Dict>)

  /** The effect of one target: a name is recorded, and a tainted one adds one `'assignment'` entry. */
  function AssignOne(s: Facts, t: Target, value: Expr, unparse: Expr -> string, userInput: string -> bool): (r: Facts)
    ensures t.OtherTarget? ==> r == s
    ensures t.NameTarget? ==>
      var info := AssignedInfo(s.vars, t.id, t.line, value, unparse, userInput);
      && Lookup(r.vars, t.id) == Some(info)
      && (forall n :: n != t.id ==> Lookup(r.vars, n) == Lookup(s.vars, n))
      && (info.tainted ==> r.flow == s.flow + [TaintEntry(info)])
      && (!info.tainted ==> r.flow == s.flow)
    ensures DistinctNames(s.vars) ==> DistinctNames(r.vars)
    ensures |s.flow| <= |r.flow| <= |s.flow| + 1 && r.flow[..|s.flow|] == s.flow
  {
    match t
    case OtherTarget => s
    case NameTarget(id, line) =>
      var info := AssignedInfo(s.vars, id, line, value, unparse, userInput);
      StoreKeepsDistinct(s.vars, info);
      Facts(Store(s.vars, info), if info.tainted then s.flow + [TaintEntry(info)] else s.flow)
  }

  /** The effect of all targets, left to right. */
  function AssignAll(s: Facts, targets: seq<Target>, value: Expr, unparse: Expr -> string, userInput: string -> bool): (r: Facts)
    ensures DistinctNames(s.vars) ==> DistinctNames(r.vars)
    ensures |s.flow| <= |r.flow| <= |s.flow| + |targets| && r.flow[..|s.flow|] == s.flow
    decreases |targets|
  {
    if targets == [] then s
    else
      var before := AssignAll(s, targets[..|targets| - 1], value, unparse, userInput);
      AssignOne(before, targets[|targets| - 1], value, unparse, userInput)
  }

  /** A literal never taints, whatever the variables hold. */
  lemma {:induction false} LiteralNeverTaints(s: Facts, targets: seq<Target>, v: Value,
                                              unparse: Expr -> string, userInput: string -> bool)
    ensures AssignAll(s, targets, Literal(v), unparse, userInput).flow == s.flow
    decreases |targets|
  {
    if targets != [] {
      LiteralNeverTaints(s, targets[..|targets| - 1], v, unparse, userInput);
    }
  }

  /** Taint passes along a chain: `y = f(x)` after a tainted `x` is tainted with `x`'s source. */
  lemma TaintPassesOn(vars: seq<VarInfo>, x: VarInfo, id: string, line: int, value: Expr,
                      unparse: Expr -> string, userInput: string -> bool)
    requires x in vars && x.tainted && !value.Literal? && Contains(unparse(value), x.name)
    requires forall v :: v in vars && v != x ==> !Feeds(v, unparse(value))
    ensures AssignedInfo(vars, id, line, value, unparse, userInput) == VarInfo(id, line, None, VStr(unparse(value)), true, x.source)
  {
    var i :| 0 <= i < |vars| && vars[i] == x;
    assert Feeds(vars[i], unparse(value));
  }

  /** The taint of a non-literal value: the call check, then every earlier variable in insertion order. */
  method AssignmentTaint(vars: seq<VarInfo>, value: Expr, unparse: Expr -> string, userInput: string -> bool)
    returns (t: Taint)
    requires !value.Literal?
    ensures t == Inherit(vars, unparse(value), Taint(CallSource(value, unparse, userInput).Some?, CallSource(value, unparse, userInput)))
  {
    var text := unparse(value);
    t := Taint(false, None);
    if value.Call? {
      var callSource := unparse(value.func);
      if userInput(callSource) {
        t := Taint(true, Some(callSource));
      }
    }
    ghost var start := t;
    var i := 0;
    while i < |vars|
      invariant 0 <= i <= |vars|
      invariant t == Inherit(vars[..i], text, start)
    {
      assert vars[..i + 1][..i] == vars[..i];
      if Contains(text, vars[i].name) && vars[i].tainted {
        t := Taint(true, vars[i].source);
      }
      i := i + 1;
    }
    assert vars[..|vars|] == vars;
  }

  /** One target of `_analyze_assignment`: a name is recorded, and logged when tainted. */
  method AssignTarget(context: CodeContext, t: Target, value: Expr,
                      unparse: Expr -> string, userInput: string -> bool)
    modifies context`variables, context`dataflow
    ensures Facts(context.variables, context.dataflow) ==
      AssignOne(Facts(old(context.variables), old(context.dataflow)), t, value, unparse, userInput)
  {
    if t.NameTarget? {
      var info;
      if value.Literal? {
        info := VarInfo(t.id, t.line, Some(TypeName(value.v)), value.v, false, None);
      } else {
        var taint := AssignmentTaint(context.variables, value, unparse, userInput);
        info := VarInfo(t.id, t.line, None, VStr(unparse(value)), taint.tainted, taint.source);
      }
      assert info == AssignedInfo(context.variables, t.id, t.line, value, unparse, userInput);
      context.variables := Store(context.variables, info);
      if info.tainted {
        context.AddDataflow("assignment", "Tainted variable '" + t.id + "' from " + SourceText(info.source), t.line,
                            map["variable" := VStr(t.id),
                                "source" := if info.source.Some? then VStr(info.source.value) else VNull]);
      }
    }
  }

  /** The first i+1 targets are the first i followed by one more. */
  lemma AssignAllPrefix(s: Facts, targets: seq<Target>, i: nat, value: Expr, unparse: Expr -> string, userInput: string -> bool)
    requires i < |targets|
    ensures AssignAll(s, targets[..i + 1], value, unparse, userInput) ==
      AssignOne(AssignAll(s, targets[..i], value, unparse, userInput), targets[i], value, unparse, userInput)
  {
    assert targets[..i + 1][..i] == targets[..i];
  }

  /** `_analyze_assignment`: each name target is recorded in order, and each tainted one logged. */
  method AnalyzeAssignment(context: CodeContext, targets: seq<Target>, value: Expr,
                           unparse: Expr -> string, userInput: string -> bool)
    requires context.Valid()
    modifies context`variables, context`dataflow
    ensures context.Valid()
    ensures Facts(context.variables, context.dataflow) ==
      AssignAll(Facts(old(context.variables), old(context.dataflow)), targets, value, unparse, userInput)
  {
    ghost var s0 := Facts(context.variables, context.dataflow);
    var i := 0;
    while i < |targets|
      invariant 0 <= i <= |targets|
      invariant Facts(context.variables, context.dataflow) == AssignAll(s0, targets[..i], value, unparse, userInput)
      invariant DistinctNames(context.variables)
    {
      AssignAllPrefix(s0, targets, i, value, unparse, userInput);
      AssignTarget(context, targets[i], value, unparse, userInput);
      i := i + 1;
    }
    assert targets[..|targets|] == targets;
  }

  // ------------------------------------------------------------ dependencies

  /** The names as strings in a JSON list. */
  function Strs(names: seq<string>): (r: seq<Value>)
    ensures |r| == |names|
    ensures forall i :: 0 <= i < |names| ==> r[i] == VStr(names[i])
  {
    seq(|names|, i requires 0 <= i < |names| => VStr(names[i]))
  }

  /**
   * The `'dependency'` entries one target contributes: one exactly when the
   * target is a name and the value mentions a name.  `listing` is the
   * iteration order of the Python set of names.
   */
  function DependencyFor(t: Target, value: Expr, listing: set<string> -> seq<string>): (r: seq<Dict>)
    ensures |r| == 1 <==> t.NameTarget? && Names(value) != {}
    ensures |r| <= 1
    ensures |r| == 1 ==> r[0].Keys == {"type", "description", "line", "variable", "dependencies"}
    ensures |r| == 1 ==> (r[0]["type"] == VStr("dependency") && r[0]["variable"] == VStr(t.id)
      && r[0]["dependencies"] == VList(Strs(listing(Names(value)))))
  {
    if t.NameTarget? && Names(value) != {} then
      var deps := listing(Names(value));
      [Flow("dependency", "Variable '" + t.id + "' depends on: " + Join(deps, ", "), t.line,
            map["variable" := VStr(t.id), "dependencies" := VList(Strs(deps))])]
    else []
  }

  /** The entries every target contributes, in target order. */
  function Dependencies(targets: seq<Target>, value: Expr, listing: set<string> -> seq<string>): seq<Dict>
    decreases |targets|
  {
    if targets == [] then []
    else Dependencies(targets[..|targets| - 1], value, listing) + DependencyFor(targets[|targets| - 1], value, listing)
  }

  /** The entries of one more target follow those of the targets before it. */
  lemma DependenciesPrefix(targets: seq<Target>, i: nat, value: Expr, listing: set<string> -> seq<string>)
    requires i < |targets|
    ensures Dependencies(targets[..i + 1], value, listing)
         == Dependencies(targets[..i], value, listing) + DependencyFor(targets[i], value, listing)
  {
    assert targets[..i + 1][..i] == targets[..i];
  }

  /** The number of plain-name targets. */
  function NameCount(targets: seq<Target>): (n: nat)
    ensures n <= |targets|
    decreases |targets|
  {
    if targets == [] then 0
    else NameCount(targets[..|targets| - 1]) + (if targets[|targets| - 1].NameTarget? then 1 else 0)
  }

  /** Every name target gets its entry when the value mentions a name, and none otherwise. */
  lemma {:induction false} DependenciesCount(targets: seq<Target>, value: Expr, listing: set<string> -> seq<string>)
    ensures |Dependencies(targets, value, listing)| == if Names(value) == {} then 0 else NameCount(targets)
    decreases |targets|
  {
    if targets != [] {
      DependenciesCount(targets[..|targets| - 1], value, listing);
    }
  }

  /** `_analyze_dataflow` with each target's names taken from the assignment's own value. */
  method AnalyzeDataflow(context: CodeContext, targets: seq<Target>, value: Expr, listing: set<string> -> seq<string>)
    modifies context`dataflow
    ensures context.dataflow == old(context.dataflow) + Dependencies(targets, value, listing)
  {
    var i := 0;
    while i < |targets|
      invariant 0 <= i <= |targets|
      invariant context.dataflow == old(context.dataflow) + Dependencies(targets[..i], value, listing)
    {
      DependenciesPrefix(targets, i, value, listing);
      AppendAssoc(old(context.dataflow), Dependencies(targets[..i], value, listing), DependencyFor(targets[i], value, listing));
      var t := targets[i];
      var deps := Names(value);
      if t.NameTarget? && deps != {} {
        var names := listing(deps);
        context.AddDataflow("dependency", "Variable '" + t.id + "' depends on: " + Join(names, ", "), t.line,
                            map["variable" := VStr(t.id), "dependencies" := VList(Strs(names))]);
      }
      i := i + 1;
    }
    assert targets[..|targets|] == targets;
  }

  /** Some target in the list is a plain name. */
  predicate HasNameTarget(targets: seq<Target>) {
    exists i :: 0 <= i < |targets| && targets[i].NameTarget?
  }

  /**
   * The entries of `_analyze_dataflow` as written: the inner loop rebinds
   * `node` to the last node of the walk, a leaf (a load context, an operator
   * or a constant) with no expression under `.value`, so the next name target
   * raises and the handler ends the loop.  Only the first name target counts.
   */
  function DependenciesAsWritten(targets: seq<Target>, value: Expr, listing: set<string> -> seq<string>): (r: seq<Dict>)
    ensures |r| <= 1
    ensures !HasNameTarget(targets) ==> r == []
    decreases |targets|
  {
    if targets == [] then []
    else
      var init := targets[..|targets| - 1];
      assert forall i :: 0 <= i < |init| ==> init[i] == targets[i];
      if HasNameTarget(init) then DependenciesAsWritten(init, value, listing)
      else DependencyFor(targets[|targets| - 1], value, listing)
  }

  /** One more target: nothing after the first name target, that target's entry when it is the first. */
  lemma AsWrittenPrefix(targets: seq<Target>, i: nat, value: Expr, listing: set<string> -> seq<string>)
    requires i < |targets|
    ensures HasNameTarget(targets[..i + 1]) <==> HasNameTarget(targets[..i]) || targets[i].NameTarget?
    ensures HasNameTarget(targets[..i]) ==>
      DependenciesAsWritten(targets[..i + 1], value, listing) == DependenciesAsWritten(targets[..i], value, listing)
    ensures !HasNameTarget(targets[..i]) ==>
      DependenciesAsWritten(targets[..i + 1], value, listing) == DependenciesAsWritten(targets[..i], value, listing) + DependencyFor(targets[i], value, listing)
  {
    var pre, ext := targets[..i], targets[..i + 1];
    assert ext[..i] == pre;
    if HasNameTarget(ext) && !targets[i].NameTarget? {
      var j :| 0 <= j < i + 1 && ext[j].NameTarget?;
      assert pre[j] == ext[j];
    }
    if targets[i].NameTarget? {
      assert ext[i].NameTarget?;
    }
    if HasNameTarget(pre) {
      var j :| 0 <= j < i && pre[j].NameTarget?;
      assert ext[j] == pre[j];
    }
  }

  /** Once a name target has been seen, later targets add nothing. */
  lemma {:induction false} AsWrittenStopsAfterFirstName(targets: seq<Target>, i: nat, value: Expr,
                                                        listing: set<string> -> seq<string>)
    requires i <= |targets| && HasNameTarget(targets[..i])
    ensures DependenciesAsWritten(targets, value, listing) == DependenciesAsWritten(targets[..i], value, listing)
    decreases |targets| - i
  {
    if i < |targets| {
      var init := targets[..|targets| - 1];
      assert init[..i] == targets[..i];
      assert HasNameTarget(init) by {
        var j :| 0 <= j < i && targets[..i][j].NameTarget?;
        assert init[j] == targets[j];
      }
      AsWrittenStopsAfterFirstName(init, i, value, listing);
    } else {
      assert targets[..i] == targets;
    }
  }

  /** `_analyze_dataflow` as written, with the rebinding of `node` and the catch-all handler. */
  method AnalyzeDataflowAsWritten(context: CodeContext, targets: seq<Target>, value: Expr,
                                  listing: set<string> -> seq<string>)
    modifies context`dataflow
    ensures context.dataflow == old(context.dataflow) + DependenciesAsWritten(targets, value, listing)
  {
    var rebound := false;  // `node` now names the leaf the walk ended on
    var i := 0;
    while i < |targets|
      invariant 0 <= i <= |targets|
      invariant rebound <==> HasNameTarget(targets[..i])
      invariant context.dataflow == old(context.dataflow) + DependenciesAsWritten(targets[..i], value, listing)
    {
      AsWrittenPrefix(targets, i, value, listing);
      var t := targets[i];
      if t.NameTarget? {
        if rebound {
          // `node.value` raises; the handler around the loop ends it.
          AsWrittenStopsAfterFirstName(targets, i, value, listing);
          return;
        }
        var deps := Names(value);
        rebound := true;
        if deps != {} {
          var names := listing(deps);
          context.AddDataflow("dependency", "Variable '" + t.id + "' depends on: " + Join(names, ", "), t.line,
                              map["variable" := VStr(t.id), "dependencies" := VList(Strs(names))]);
        }
      }
      i := i + 1;
    }
    assert targets[..|targets|] == targets;
  }

  /** `a = b = x`: as written only `a` gets a dependency entry; both should. */
  lemma ChainedAssignmentLosesTarget(listing: set<string> -> seq<string>)
    ensures var targets := [NameTarget("a", 1), NameTarget("b", 1)];
      && |DependenciesAsWritten(targets, Name("x"), listing)| == 1
      && |Dependencies(targets, Name("x"), listing)| == 2
  {
    var targets := [NameTarget("a", 1), NameTarget("b", 1)];
    assert targets[..1] == [NameTarget("a", 1)];
    assert targets[..1][..0] == [];
    assert HasNameTarget(targets[..1]) by { assert targets[..1][0].NameTarget?; }
    assert !HasNameTarget(targets[..1][..0]);
    DependenciesCount(targets, Name("x"), listing);
    assert targets[..1][..0] == [];
    assert targets[..0] == [];
  }
}
