/**
 * The counting behind the validator's statistics table
 * (`_display_validation_statistics` in semgrepai/validator.py): verdict
 * counts, positive risk scores, impact levels and vulnerability categories,
 * gathered in one pass over the validated findings, and the guarded and
 * unguarded divisions of the table's first rows.
 *
 * Python dictionaries that count keep their keys in insertion order; a
 * `Counter` holds that order next to the counts.
 */
module ValidationStatistics {
  import opened Common
  import opened Validator

  // ================================================================ counters

  /** A counting dictionary: its keys in insertion order and the count of each. */
  datatype Counter = Counter(keys: seq<Value>, count: map<Value, nat>) {
    ghost predicate Valid() {
      NoDuplicates(keys) && forall k :: k in count <==> k in keys
    }
  }

  /** A counter holding `keys`, each at zero. */
  function Start(keys: seq<Value>): (c: Counter)
    requires NoDuplicates(keys)
    ensures c.Valid()
  {
    Counter(keys, map k | k in keys :: 0)
  }

  /** `counts[k] = counts.get(k, 0) + 1`. */
  function Bump(c: Counter, k: Value): (r: Counter)
    requires c.Valid()
    ensures r.Valid()
  {
    if k in c.count then Counter(c.keys, c.count[k := c.count[k] + 1])
    else Counter(c.keys + [k], c.count[k := 1])
  }

  /** `Bump` for each key of `ks`, in order. */
  function Tally(c: Counter, ks: seq<Value>): (r: Counter)
    requires c.Valid()
    ensures r.Valid()
  {
    if ks == [] then c else Bump(Tally(c, ks[..|ks| - 1]), ks[|ks| - 1])
  }

  /** How often `k` occurs in `ks`. */
  function Occurrences(ks: seq<Value>, k: Value): nat {
    if ks == [] then 0 else Occurrences(ks[..|ks| - 1], k) + (if ks[|ks| - 1] == k then 1 else 0)
  }

  /** A tally counts each key's occurrences on top of its starting count, and holds exactly the keys it started with or met. */
  lemma {:induction false} TallyCounts(c: Counter, ks: seq<Value>, k: Value)
    requires c.Valid()
    ensures k in Tally(c, ks).count <==> k in c.count || k in ks
    ensures k in Tally(c, ks).count ==>
      Tally(c, ks).count[k] == (if k in c.count then c.count[k] else 0) + Occurrences(ks, k)
  {
    if ks != [] {
      var init, last := ks[..|ks| - 1], ks[|ks| - 1];
      TallyCounts(c, init, k);
      var t := Tally(c, init);
      assert Tally(c, ks) == Bump(t, last);
      assert Occurrences(ks, k) == Occurrences(init, k) + (if last == k then 1 else 0);
      assert ks == init + [last];
      assert k in ks <==> k in init || k == last;
      if k in Tally(c, ks).count {
        var base := if k in c.count then c.count[k] else 0;
        if k == last {
          if k in t.count {
            assert t.count[k] == base + Occurrences(init, k);
          } else {
            assert Occurrences(init, k) == 0 by {
              if Occurrences(init, k) != 0 {
                OccurrencesPositive(init, k);
              }
            }
          }
        } else {
          assert Tally(c, ks).count[k] == t.count[k];
        }
      }
    }
  }

  lemma {:induction false} OccurrencesPositive(ks: seq<Value>, k: Value)
    requires Occurrences(ks, k) != 0
    ensures k in ks
  {
    var init := ks[..|ks| - 1];
    if ks[|ks| - 1] != k {
      OccurrencesPositive(init, k);
    }
  }

  /** The entries of a counter in insertion order. */
  function Items(c: Counter): (r: seq<(Value, nat)>)
    requires c.Valid()
    ensures |r| == |c.keys|
  {
    seq(|c.keys|, i requires 0 <= i < |c.keys| => (c.keys[i], c.count[c.keys[i]]))
  }

  // ================================================================ reading one finding

  /** What the statistics read from one finding's `ai_validation`. */
  datatype Reading = Reading(
    verdict: Value, risk: real, business: Value, sensitivity: Value, likelihood: Value, category: Value)

  /** Usable as a dictionary key: Python refuses lists and dictionaries. */
  predicate Hashable(v: Value) {
    !v.VList? && !v.VDict?
  }

  /** `risk_score > 0` needs a number (a boolean counts as 0 or 1); anything else raises. */
  function Number(v: Value): Option<real> {
    match v
    case VInt(i) => Some(i as real)
    case VReal(r) => Some(r)
    case VBool(b) => Some(if b then 1.0 else 0.0)
    case _ => None
  }

  const Unknown: Value := VStr("Unknown")

  /** A level or category that would be counted must be hashable; `'Unknown'` is never counted. */
  predicate Countable(v: Value) {
    v == Unknown || Hashable(v)
  }

  /** Message of the exception the statistics pass raises on a finding it cannot read. */
  const UnreadableFinding := "statistics cannot read the finding's validation"

  /** One finding as the statistics loop reads it: `.get` with the defaults of the source, or the exception it raises. */
  function ReadFinding(f: Dict): (r: Result<Reading, string>)
    ensures r.Ok? ==> Hashable(r.value.verdict)
    ensures r.Ok? && "ai_validation" !in f ==> r.value == Reading(VStr("Error"), 0.0, Unknown, Unknown, Unknown, Unknown)
  {
    var validation := Get(f, "ai_validation", VDict(map[]));
    if !validation.VDict? then Err(UnreadableFinding)
    else
      var v := validation.entries;
      var verdict := Get(v, "verdict", VStr("Error"));
      var risk := Number(Get(v, "risk_score", VInt(0)));
      var impact := Get(v, "impact", VDict(map[]));
      var vuln := Get(v, "vulnerability", VDict(map[]));
      if !Hashable(verdict) || risk.None? || !impact.VDict? || !vuln.VDict? then Err(UnreadableFinding)
      else
        var b := Get(impact.entries, "business", Unknown);
        var s := Get(impact.entries, "data_sensitivity", Unknown);
        var l := Get(impact.entries, "exploit_likelihood", Unknown);
        var c := Get(vuln.entries, "primary", Unknown);
        if !Countable(b) || !Countable(s) || !Countable(l) || !Countable(c) then Err(UnreadableFinding)
        else Ok(Reading(verdict, risk.value, b, s, l, c))
  }

  /** A finding carrying a validation record reads as that record's verdict, risk, levels and category. */
  lemma ReadValidated(f: Dict, v: Validation)
    requires "ai_validation" in f && f["ai_validation"] == ValidationValue(v)
    ensures ReadFinding(f) == Ok(Reading(
      VStr(v.verdict), v.riskScore as real,
      VStr(v.impact.business), VStr(v.impact.dataSensitivity), VStr(v.impact.exploitLikelihood),
      VStr(v.vulnerability.primary)))
  {
    ValidationLookups(v);
    ImpactLookups(v.impact);
    VulnerabilityLookup(v.vulnerability);
  }

  /** The entries of a stored validation record that the statistics read. */
  lemma ValidationLookups(v: Validation)
    ensures var e := ValidationValue(v).entries;
      && Get(e, "verdict", VStr("Error")) == VStr(v.verdict)
      && Get(e, "risk_score", VInt(0)) == VInt(v.riskScore)
      && Get(e, "impact", VDict(map[])) == ImpactValue(v.impact)
      && Get(e, "vulnerability", VDict(map[])) == VulnerabilityValue(v.vulnerability)
  {
  }

  lemma ImpactLookups(i: Impact)
    ensures var e := ImpactValue(i).entries;
      && Get(e, "business", Unknown) == VStr(i.business)
      && Get(e, "data_sensitivity", Unknown) == VStr(i.dataSensitivity)
      && Get(e, "exploit_likelihood", Unknown) == VStr(i.exploitLikelihood)
  {
  }

  lemma VulnerabilityLookup(v: Vulnerability)
    ensures Get(VulnerabilityValue(v).entries, "primary", Unknown) == VStr(v.primary)
  {
  }

  /** The readings of all findings, or the first exception. */
  function Readings(findings: seq<Dict>): (r: Result<seq<Reading>, string>)
    ensures r.Ok? ==> |r.value| == |findings|
  {
    if findings == [] then Ok([])
    else
      var before := Readings(findings[..|findings| - 1]);
      if before.Err? then before
      else
        match ReadFinding(findings[|findings| - 1])
        case Err(e) => Err(e)
        case Ok(x) => Ok(before.value + [x])
  }

  // ================================================================ what is counted

  /** The verdicts the table always lists first. */
  const Verdicts: seq<Value> := [VStr("True Positive"), VStr("False Positive"), VStr("Needs Review"), VStr("Error")]

  const BusinessLevels: seq<Value> := [VStr("Critical"), VStr("High"), VStr("Medium"), VStr("Low")]

  const Levels: seq<Value> := [VStr("High"), VStr("Medium"), VStr("Low")]

  function VerdictsOf(rs: seq<Reading>): (r: seq<Value>)
    ensures |r| == |rs| && forall i :: 0 <= i < |rs| ==> r[i] == rs[i].verdict
  {
    seq(|rs|, i requires 0 <= i < |rs| => rs[i].verdict)
  }

  /** The values in `vs` other than `'Unknown'`, in order. */
  function Known(vs: seq<Value>): (r: seq<Value>)
    ensures Unknown !in r
    ensures forall v :: v in r <==> v in vs && v != Unknown
  {
    if vs == [] then []
    else Known(vs[..|vs| - 1]) + (if vs[|vs| - 1] == Unknown then [] else [vs[|vs| - 1]])
  }

  /** `risk_scores`: the risks above zero, in order. */
  function RiskScores(rs: seq<Reading>): (r: seq<real>)
    ensures forall i :: 0 <= i < |r| ==> r[i] > 0.0
    ensures |r| <= |rs|
  {
    if rs == [] then []
    else RiskScores(rs[..|rs| - 1]) + (if rs[|rs| - 1].risk > 0.0 then [rs[|rs| - 1].risk] else [])
  }

  /** Everything the loop gathers. */
  datatype Gathered = Gathered(
    verdicts: Counter, risks: seq<real>,
    business: Counter, sensitivity: Counter, likelihood: Counter,
    categories: Counter)

  function BusinessOf(rs: seq<Reading>): seq<Value> { seq(|rs|, i requires 0 <= i < |rs| => rs[i].business) }

  function SensitivityOf(rs: seq<Reading>): seq<Value> { seq(|rs|, i requires 0 <= i < |rs| => rs[i].sensitivity) }

  function LikelihoodOf(rs: seq<Reading>): seq<Value> { seq(|rs|, i requires 0 <= i < |rs| => rs[i].likelihood) }

  function CategoriesOf(rs: seq<Reading>): seq<Value> { seq(|rs|, i requires 0 <= i < |rs| => rs[i].category) }

  /** What the loop over the readings gathers. */
  function Gather(rs: seq<Reading>): (g: Gathered)
    ensures g.verdicts.Valid() && g.business.Valid() && g.sensitivity.Valid()
    ensures g.likelihood.Valid() && g.categories.Valid()
  {
    VerdictsDistinct();
    LevelsDistinct();
    Gathered(
      Tally(Start(Verdicts), VerdictsOf(rs)),
      RiskScores(rs),
      Tally(Start(BusinessLevels), Known(BusinessOf(rs))),
      Tally(Start(Levels), Known(SensitivityOf(rs))),
      Tally(Start(Levels), Known(LikelihoodOf(rs))),
      Tally(Start([]), Known(CategoriesOf(rs))))
  }

  lemma VerdictsDistinct()
    ensures NoDuplicates(Verdicts)
  {
    var t, f, n, e := "True Positive", "False Positive", "Needs Review", "Error";
    assert t[0] != f[0] && t[0] != n[0] && t[0] != e[0];
    assert f[0] != n[0] && f[0] != e[0] && n[0] != e[0];
  }

  lemma LevelsDistinct()
    ensures NoDuplicates(BusinessLevels) && NoDuplicates(Levels)
  {
    var c, h, m, l := "Critical", "High", "Medium", "Low";
    assert c[0] != h[0] && c[0] != m[0] && c[0] != l[0];
    assert h[0] != m[0] && h[0] != l[0] && m[0] != l[0];
  }

  /** One finding's contribution to what was gathered. */
  function Step(g: Gathered, x: Reading): Gathered
    requires g.verdicts.Valid() && g.business.Valid() && g.sensitivity.Valid()
    requires g.likelihood.Valid() && g.categories.Valid()
  {
    Gathered(
      Bump(g.verdicts, x.verdict),
      g.risks + (if x.risk > 0.0 then [x.risk] else []),
      if x.business != Unknown then Bump(g.business, x.business) else g.business,
      if x.sensitivity != Unknown then Bump(g.sensitivity, x.sensitivity) else g.sensitivity,
      if x.likelihood != Unknown then Bump(g.likelihood, x.likelihood) else g.likelihood,
      if x.category != Unknown then Bump(g.categories, x.category) else g.categories)
  }

  lemma TallySnoc(c: Counter, ks: seq<Value>, k: Value)
    requires c.Valid()
    ensures Tally(c, ks + [k]) == Bump(Tally(c, ks), k)
  {
    assert (ks + [k])[..|ks|] == ks;
  }

  /** Counting the known values of `vs + [v]`: one more bump unless `v` is `'Unknown'`. */
  lemma KnownTallySnoc(c: Counter, vs: seq<Value>, v: Value)
    requires c.Valid()
    ensures Tally(c, Known(vs + [v])) == if v != Unknown then Bump(Tally(c, Known(vs)), v) else Tally(c, Known(vs))
  {
    assert (vs + [v])[..|vs|] == vs;
    assert Known(vs + [v]) == Known(vs) + (if v == Unknown then [] else [v]);
    if v != Unknown {
      TallySnoc(c, Known(vs), v);
    } else {
      assert Known(vs) + [] == Known(vs);
    }
  }

  lemma VerdictsSnoc(rs: seq<Reading>, x: Reading)
    ensures VerdictsOf(rs + [x]) == VerdictsOf(rs) + [x.verdict]
  {
  }

  lemma BusinessSnoc(rs: seq<Reading>, x: Reading)
    ensures BusinessOf(rs + [x]) == BusinessOf(rs) + [x.business]
  {
  }

  lemma SensitivitySnoc(rs: seq<Reading>, x: Reading)
    ensures SensitivityOf(rs + [x]) == SensitivityOf(rs) + [x.sensitivity]
  {
  }

  lemma LikelihoodSnoc(rs: seq<Reading>, x: Reading)
    ensures LikelihoodOf(rs + [x]) == LikelihoodOf(rs) + [x.likelihood]
  {
  }

  lemma CategoriesSnoc(rs: seq<Reading>, x: Reading)
    ensures CategoriesOf(rs + [x]) == CategoriesOf(rs) + [x.category]
  {
  }

  lemma GatherSnocVerdicts(rs: seq<Reading>, x: Reading)
    ensures Gather(rs + [x]).verdicts == Step(Gather(rs), x).verdicts
    ensures Gather(rs + [x]).risks == Step(Gather(rs), x).risks
  {
    assert (rs + [x])[..|rs|] == rs;
    VerdictsSnoc(rs, x);
    VerdictsDistinct();
    TallySnoc(Start(Verdicts), VerdictsOf(rs), x.verdict);
  }

  lemma GatherSnocBusiness(rs: seq<Reading>, x: Reading)
    ensures Gather(rs + [x]).business == Step(Gather(rs), x).business
  {
    BusinessSnoc(rs, x);
    LevelsDistinct();
    KnownTallySnoc(Start(BusinessLevels), BusinessOf(rs), x.business);
  }

  lemma GatherSnocSensitivity(rs: seq<Reading>, x: Reading)
    ensures Gather(rs + [x]).sensitivity == Step(Gather(rs), x).sensitivity
  {
    SensitivitySnoc(rs, x);
    LevelsDistinct();
    KnownTallySnoc(Start(Levels), SensitivityOf(rs), x.sensitivity);
  }

  lemma GatherSnocLikelihood(rs: seq<Reading>, x: Reading)
    ensures Gather(rs + [x]).likelihood == Step(Gather(rs), x).likelihood
  {
    LikelihoodSnoc(rs, x);
    LevelsDistinct();
    KnownTallySnoc(Start(Levels), LikelihoodOf(rs), x.likelihood);
  }

  lemma GatherSnocCategories(rs: seq<Reading>, x: Reading)
    ensures Gather(rs + [x]).categories == Step(Gather(rs), x).categories
  {
    CategoriesSnoc(rs, x);
    KnownTallySnoc(Start([]), CategoriesOf(rs), x.category);
  }

  /** Gathering one more reading is one more loop step. */
  lemma GatherSnoc(rs: seq<Reading>, x: Reading)
    ensures Gather(rs + [x]) == Step(Gather(rs), x)
  {
    GatherSnocVerdicts(rs, x);
    GatherSnocBusiness(rs, x);
    GatherSnocSensitivity(rs, x);
    GatherSnocLikelihood(rs, x);
    GatherSnocCategories(rs, x);
  }

  /**
   * The loop of `_display_validation_statistics`: reads each finding and
   * counts it, or ends with the exception the first unreadable finding raises.
   */
  method GatherStatistics(findings: seq<Dict>) returns (r: Result<Gathered, string>)
    ensures Readings(findings).Err? ==> r == Err(Readings(findings).error)
    ensures Readings(findings).Ok? ==> r == Ok(Gather(Readings(findings).value))
  {
    var g := Gather([]);
    ghost var rs: seq<Reading> := [];
    for i := 0 to |findings|
      invariant Readings(findings[..i]) == Ok(rs)
      invariant g == Gather(rs)
    {
      var x := ReadFinding(findings[i]);
      if x.Err? {
        ReadingsStop(findings, i, rs, x.error);
        return Err(x.error);
      }
      ReadingsCount(findings, i, rs, x.value);
      g := Step(g, x.value);
      rs := rs + [x.value];
    }
    assert findings[..|findings|] == findings;
    return Ok(g);
  }

  /** Reading one more finding after a good prefix. */
  lemma ReadingsStep(findings: seq<Dict>, i: nat, rs: seq<Reading>)
    requires i < |findings| && Readings(findings[..i]) == Ok(rs)
    ensures Readings(findings[..i + 1]) ==
      match ReadFinding(findings[i])
      case Err(e) => Err(e)
      case Ok(x) => Ok(rs + [x])
  {
    assert findings[..i + 1][..i] == findings[..i];
  }

  /** A readable finding after a good prefix is read and counted once more. */
  lemma ReadingsCount(findings: seq<Dict>, i: nat, rs: seq<Reading>, x: Reading)
    requires i < |findings| && Readings(findings[..i]) == Ok(rs) && ReadFinding(findings[i]) == Ok(x)
    ensures Readings(findings[..i + 1]) == Ok(rs + [x])
    ensures Gather(rs + [x]) == Step(Gather(rs), x)
  {
    ReadingsStep(findings, i, rs);
    GatherSnoc(rs, x);
  }

  /** An unreadable finding after a good prefix ends the readings of all findings with its exception. */
  lemma {:induction false} ReadingsStop(findings: seq<Dict>, i: nat, rs: seq<Reading>, e: string)
    requires i < |findings| && Readings(findings[..i]) == Ok(rs) && ReadFinding(findings[i]) == Err(e)
    ensures Readings(findings) == Err(e)
    decreases |findings|
  {
    var m := |findings| - 1;
    var front := findings[..m];
    if i == m {
      assert front == findings[..i];
    } else {
      assert front[..i] == findings[..i] && front[i] == findings[i];
      ReadingsStop(front, i, rs, e);
    }
  }

  /** Once a prefix fails to read, so does every longer prefix, with the same exception. */
  lemma {:induction false} ReadingsErrPropagates(findings: seq<Dict>, n: nat)
    requires n <= |findings| && Readings(findings[..n]).Err?
    ensures Readings(findings) == Readings(findings[..n])
    decreases |findings| - n
  {
    if n < |findings| {
      var m := |findings| - 1;
      if Readings(findings[..m]).Err? {
        assert findings[..m][..n] == findings[..n];
        ReadingsErrPropagates(findings[..m], n);
        assert findings[..m] == findings[..|findings| - 1];
      } else {
        assert findings[..n] == findings[..m][..n];
        assert Readings(findings[..m][..n]).Err?;
        ReadingsErrPropagates(findings[..m], n);
      }
    } else {
      assert findings[..n] == findings;
    }
  }

  // ================================================================ what the counts mean

  /** Every verdict is counted once: the four fixed ones from zero, others from their first appearance. */
  lemma VerdictCount(rs: seq<Reading>, v: Value)
    ensures var c := Gather(rs).verdicts;
      (v in c.count <==> v in Verdicts || exists i :: 0 <= i < |rs| && rs[i].verdict == v) &&
      (v in c.count ==> c.count[v] == Occurrences(VerdictsOf(rs), v))
  {
    VerdictsDistinct();
    TallyCounts(Start(Verdicts), VerdictsOf(rs), v);
    if v in VerdictsOf(rs) {
      var i :| 0 <= i < |rs| && VerdictsOf(rs)[i] == v;
    }
  }

  /** A finding without a validation is counted as an `'Error'` verdict. */
  lemma MissingValidationIsError(f: Dict)
    requires "ai_validation" !in f
    ensures ReadFinding(f).Ok? && ReadFinding(f).value.verdict == VStr("Error")
  {
  }

  function CountAtLeast(xs: seq<real>, bound: real): nat {
    if xs == [] then 0 else CountAtLeast(xs[..|xs| - 1], bound) + (if xs[|xs| - 1] >= bound then 1 else 0)
  }

  function ReadingsAtLeast(rs: seq<Reading>, bound: real): nat {
    if rs == [] then 0 else ReadingsAtLeast(rs[..|rs| - 1], bound) + (if rs[|rs| - 1].risk >= bound then 1 else 0)
  }

  /** The critical count over the collected scores is the number of findings whose risk is at least 8. */
  lemma {:induction false} CriticalCount(rs: seq<Reading>)
    ensures CountAtLeast(RiskScores(rs), 8.0) == ReadingsAtLeast(rs, 8.0)
  {
    if rs != [] {
      var init, x := rs[..|rs| - 1], rs[|rs| - 1];
      CriticalCount(init);
      var extra := if x.risk > 0.0 then [x.risk] else [];
      CountAtLeastAppend(RiskScores(init), extra, 8.0);
    }
  }

  lemma {:induction false} CountAtLeastAppend(a: seq<real>, b: seq<real>, bound: real)
    requires |b| <= 1
    ensures CountAtLeast(a + b, bound) == CountAtLeast(a, bound) + CountAtLeast(b, bound)
  {
    if b != [] {
      assert (a + b)[..|a + b| - 1] == a;
      assert b[..0] == [];
    } else {
      assert a + b == a;
    }
  }

  /** `'Unknown'` is never a category, and each other category is counted by its occurrences. */
  lemma CategoryCount(rs: seq<Reading>, v: Value)
    ensures var c := Gather(rs).categories;
      Unknown !in c.count &&
      (v in c.count <==> v != Unknown && v in CategoriesOf(rs)) &&
      (v in c.count ==> c.count[v] == Occurrences(Known(CategoriesOf(rs)), v))
  {
    TallyCounts(Start([]), Known(CategoriesOf(rs)), v);
    TallyCounts(Start([]), Known(CategoriesOf(rs)), Unknown);
  }

  // ================================================================ the top five categories

  /** Inserts `x` after every entry whose count is at least its own, so equal counts keep their order. */
  function InsertDesc(x: (Value, nat), s: seq<(Value, nat)>): (r: seq<(Value, nat)>)
    ensures multiset(r) == multiset(s) + multiset{x}
    ensures |r| == |s| + 1
  {
    if s == [] then [x]
    else if s[0].1 >= x.1 then
      assert s == [s[0]] + s[1..];
      [s[0]] + InsertDesc(x, s[1..])
    else [x] + s
  }

  predicate SortedDesc(s: seq<(Value, nat)>) {
    forall i, j :: 0 <= i < j < |s| ==> s[i].1 >= s[j].1
  }

  lemma {:induction false} InsertDescSorted(x: (Value, nat), s: seq<(Value, nat)>)
    requires SortedDesc(s)
    ensures SortedDesc(InsertDesc(x, s))
  {
    if s != [] && s[0].1 >= x.1 {
      var rest := InsertDesc(x, s[1..]);
      InsertDescSorted(x, s[1..]);
      InsertDescBounded(x, s[1..], s[0].1);
      SortedDescCons(s[0], rest);
      assert InsertDesc(x, s) == [s[0]] + rest;
    }
  }

  /** A head no smaller than every count of a sorted tail keeps it sorted. */
  lemma SortedDescCons(h: (Value, nat), rest: seq<(Value, nat)>)
    requires SortedDesc(rest) && forall k :: 0 <= k < |rest| ==> rest[k].1 <= h.1
    ensures SortedDesc([h] + rest)
  {
    var r := [h] + rest;
    forall i, j | 0 <= i < j < |r|
      ensures r[i].1 >= r[j].1
    {
      assert r[j] == rest[j - 1];
      if i > 0 {
        assert r[i] == rest[i - 1];
      }
    }
  }

  /** Inserting a count no larger than a bound keeps every count within it. */
  lemma {:induction false} InsertDescBounded(x: (Value, nat), s: seq<(Value, nat)>, b: nat)
    requires x.1 <= b && forall k :: 0 <= k < |s| ==> s[k].1 <= b
    ensures forall k :: 0 <= k < |InsertDesc(x, s)| ==> InsertDesc(x, s)[k].1 <= b
  {
    if s != [] && s[0].1 >= x.1 {
      InsertDescBounded(x, s[1..], b);
      assert InsertDesc(x, s) == [s[0]] + InsertDesc(x, s[1..]);
    }
  }

  /** `sorted(items, key=count, reverse=True)`: a stable sort by descending count. */
  function SortDesc(items: seq<(Value, nat)>): (r: seq<(Value, nat)>)
    ensures multiset(r) == multiset(items)
    ensures |r| == |items|
  {
    if items == [] then []
    else
      assert items == items[..|items| - 1] + [items[|items| - 1]];
      InsertDesc(items[|items| - 1], SortDesc(items[..|items| - 1]))
  }

  lemma {:induction false} SortDescSorted(items: seq<(Value, nat)>)
    ensures SortedDesc(SortDesc(items))
  {
    if items != [] {
      SortDescSorted(items[..|items| - 1]);
      InsertDescSorted(items[|items| - 1], SortDesc(items[..|items| - 1]));
    }
  }

  /** The categories the table lists: the first five of the sorted entries. */
  function TopCategories(c: Counter): (r: seq<(Value, nat)>)
    requires c.Valid()
    ensures |r| == Min(5, |c.keys|)
  {
    var sorted := SortDesc(Items(c));
    sorted[..Min(5, |sorted|)]
  }

  /** The listed categories are in descending order, and no category left out has a higher count than one listed. */
  lemma TopCategoriesBest(c: Counter)
    requires c.Valid()
    ensures SortedDesc(TopCategories(c))
    ensures var sorted := SortDesc(Items(c));
      multiset(sorted) == multiset(Items(c)) &&
      TopCategories(c) == sorted[..|TopCategories(c)|] &&
      forall i, j :: 0 <= i < |TopCategories(c)| <= j < |sorted| ==> sorted[j].1 <= TopCategories(c)[i].1
  {
    SortDescSorted(Items(c));
  }

  // ================================================================ the first rows

  /** The text of the ZeroDivisionError a float division by zero raises. */
  const DivisionByZero := "float division by zero"

  /** The `Average Time per Finding` row as written: it divides by the number of findings unguarded. */
  function AverageTimeAsWritten(processingTime: real, total: int): (r: Result<real, string>)
    ensures total != 0 ==> r == Ok(processingTime / total as real)
  {
    if total == 0 then Err(DivisionByZero) else Ok(processingTime / total as real)
  }

  /** A run over no findings raises in the statistics, so `validate_findings` loses its (empty) result. */
  lemma EmptyRunRaises(processingTime: real)
    ensures AverageTimeAsWritten(processingTime, 0).Err?
  {
  }

  /** The row guarded like the hit-rate row: zero for no findings, the mean time otherwise. */
  function AverageTime(processingTime: real, total: int): (r: real)
    ensures total != 0 ==> AverageTimeAsWritten(processingTime, total) == Ok(r)
    ensures total == 0 ==> r == 0.0
  {
    if total == 0 then 0.0 else processingTime / total as real
  }

  /** The guarded row never exceeds the whole processing time. */
  lemma AverageTimeBounds(processingTime: real, total: int)
    requires processingTime >= 0.0 && total >= 0
    ensures 0.0 <= AverageTime(processingTime, total) <= processingTime
  {
    if total > 0 {
      var r := AverageTime(processingTime, total);
      assert r * total as real == processingTime;
      NonNegativeQuotient(processingTime, total as real, r);
    }
  }

  lemma NonNegativeQuotient(t: real, n: real, q: real)
    requires t >= 0.0 && n >= 1.0 && q * n == t
    ensures 0.0 <= q <= t
  {
    assert q * n >= q * 1.0;
  }

  // ================================================================ the whole call

  /** What the batch loop of `validate_findings` collects: nothing when `range` yields no batch. */
  function Validated(findings: seq<Dict>, batchSize: int, completion: seq<nat>, raised: set<nat>,
                     step: Dict -> Option<Dict>): seq<Dict>
    requires batchSize > 0 ==> IsOrder(completion, |ChunksOf(findings, batchSize)|)
  {
    if batchSize > 0 then Collected(ChunksOf(findings, batchSize), completion, raised, step) else []
  }

  /** `r` is the validated findings when the table can read them all, and otherwise the exception of the first it cannot read. */
  predicate Reports(r: Result<seq<Dict>, string>, validated: seq<Dict>) {
    match Readings(validated)
    case Ok(_) => r == Ok(validated)
    case Err(e) => r == Err(e)
  }

  /**
   * `validate_findings` as written: the batch loop, then the statistics
   * table, whose exception replaces the result. A run over no findings
   * raises in the average time; otherwise the first finding the table
   * cannot read decides.
   */
  method ValidateFindingsAsWritten(findings: seq<Dict>, batchSize: int, completion: seq<nat>, raised: set<nat>,
                                   step: Dict -> Option<Dict>, processingTime: real) returns (r: Result<seq<Dict>, string>)
    requires batchSize > 0 ==> IsOrder(completion, |ChunksOf(findings, batchSize)|)
    requires batchSize < 0 ==> completion == []
    ensures batchSize == 0 ==> r.Err?
    ensures batchSize != 0 && |findings| == 0 ==> r == Err(DivisionByZero)
    ensures batchSize != 0 && |findings| > 0 ==> Reports(r, Validated(findings, batchSize, completion, raised, step))
  {
    var v := CollectBatches(findings, batchSize, completion, raised, step);
    if v.Err? {
      return v;
    }
    var average := AverageTimeAsWritten(processingTime, |findings|);
    if average.Err? {
      return Err(average.error);
    }
    var g := GatherStatistics(v.value);
    if g.Err? {
      return Err(g.error);
    }
    return v;
  }

  /**
   * `validate_findings` with the average row guarded (`AverageTime`): a run
   * over no findings returns no findings, and otherwise the result is as
   * written.
   */
  method ValidateFindings(findings: seq<Dict>, batchSize: int, completion: seq<nat>, raised: set<nat>,
                          step: Dict -> Option<Dict>) returns (r: Result<seq<Dict>, string>)
    requires batchSize > 0 ==> IsOrder(completion, |ChunksOf(findings, batchSize)|)
    requires batchSize < 0 ==> completion == []
    ensures batchSize == 0 ==> r.Err?
    ensures batchSize != 0 ==> Reports(r, Validated(findings, batchSize, completion, raised, step))
    ensures batchSize != 0 && |findings| == 0 ==> r == Ok([])
  {
    var v := CollectBatches(findings, batchSize, completion, raised, step);
    if v.Err? {
      return v;
    }
    var g := GatherStatistics(v.value);
    if g.Err? {
      return Err(g.error);
    }
    return v;
  }

  /** The `Cache Hit Rate` row: shown only when there were findings. */
  function HitRate(hits: int, total: int): (r: Option<real>)
    ensures r.Some? <==> total > 0
    ensures r.Some? ==> r.value * total as real == hits as real * 100.0
  {
    if total > 0 then Some(hits as real / total as real * 100.0) else None
  }

  /** The percentage shown next to a count. */
  function Share(count: int, total: int): (r: real)
    ensures total <= 0 ==> r == 0.0
    ensures total > 0 ==> r * total as real == count as real * 100.0
  {
    if total > 0 then count as real / total as real * 100.0 else 0.0
  }
}
