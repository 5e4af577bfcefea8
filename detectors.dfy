/**
 The signature-matching engine of src/detectors.js: whether one technology
 detector matches a page (`isMatching`), and the six classification
 strategies built on it (`hasVue`, `getFramework`, `getUI`, `getPlugins`,
 `getNuxtMeta`, `getNuxtModules`).

 Foreign pieces are oracles: the compiled regular-expression test is the
 function `test`, and the live page's `evaluate` is the class `Page`, whose
 answer to each expression is fixed by `outcome` and which records every
 expression it is asked to evaluate in `log`.
 */
module Detectors {

  datatype Option<T> = None | Some(value: T)

  /** One pattern as produced by `parsePatterns`, identified by its text. */
  datatype Pattern = Pattern(source: string)

  /** `pattern.regex.test(subject)`, supplied from outside the engine. */
  type RegexTest = (Pattern, string) -> bool

  /** What `page.evaluate` yields: a boolean, or a thrown error. */
  datatype EvalOutcome = Ok(value: bool) | Failed

  /**
   A detector of the catalog. `None` is an absent (or falsy) rule, which
   `if (detector.html)` skips; `Some(ps)` is the rule after `parsePatterns`
   (html, script) or `asArray` (js).
   */
  datatype Detector = Detector(
    html: Option<seq<Pattern>>,
    script: Option<seq<Pattern>>,
    js: Option<seq<string>>)

  /** A catalog group: its entries in `Object.keys` order. */
  type Group = seq<(string, Detector)>

  /** The catalog, loaded once and never changed. */
  datatype Catalog = Catalog(
    vue: Detector,
    frameworks: Group,
    plugins: Group,
    uis: Group,
    nuxtMeta: Group,
    nuxtModules: Group)

  /** The live page: evaluating an expression answers `outcome` and is logged. */
  class Page {
    const outcome: string -> EvalOutcome
    var log: seq<string>

    constructor (outcome: string -> EvalOutcome)
      ensures this.outcome == outcome && log == []
    {
      this.outcome := outcome;
      log := [];
    }

    /** `page.evaluate(js)`; a throw is reported as `Failed`. */
    method Evaluate(js: string) returns (o: EvalOutcome)
      modifies this
      ensures o == outcome(js)
      ensures log == old(log) + [js]
    {
      o := outcome(js);
      log := log + [js];
    }
  }

  /** The destructured `{ html, scripts, page }` argument of `isMatching`. */
  datatype Context = Context(html: string, scripts: seq<string>, page: Page)

  // ---------------------------------------------------------------------------
  // What a match means: a logical OR over channels and over patterns

  predicate AnyTest(test: RegexTest, patterns: seq<Pattern>, s: string) {
    exists i :: 0 <= i < |patterns| && test(patterns[i], s)
  }

  predicate AnyTestAny(test: RegexTest, patterns: seq<Pattern>, uris: seq<string>) {
    exists i, j :: 0 <= i < |patterns| && 0 <= j < |uris| && test(patterns[i], uris[j])
  }

  predicate AnyTrue(exprs: seq<string>, outcome: string -> EvalOutcome) {
    exists i :: 0 <= i < |exprs| && outcome(exprs[i]) == Ok(true)
  }

  predicate HtmlHit(test: RegexTest, d: Detector, html: string) {
    d.html.Some? && AnyTest(test, d.html.value, html)
  }

  predicate ScriptHit(test: RegexTest, d: Detector, scripts: seq<string>) {
    d.script.Some? && AnyTestAny(test, d.script.value, scripts)
  }

  predicate JsHit(d: Detector, outcome: string -> EvalOutcome) {
    d.js.Some? && AnyTrue(d.js.value, outcome)
  }

  /** The detector matches the page: some present rule has evidence. */
  predicate Matches(test: RegexTest, d: Detector, ctx: Context) {
    HtmlHit(test, d, ctx.html) || ScriptHit(test, d, ctx.scripts) || JsHit(d, ctx.page.outcome)
  }

  // ---------------------------------------------------------------------------
  // Which expressions get evaluated

  /** The expressions evaluated in turn until one yields true. */
  function ProbeTrace(exprs: seq<string>, outcome: string -> EvalOutcome): seq<string> {
    if exprs == [] then []
    else if outcome(exprs[0]) == Ok(true) then [exprs[0]]
    else [exprs[0]] + ProbeTrace(exprs[1..], outcome)
  }

  /** The expressions `isMatching` hands to the page for detector `d`. */
  function Probes(test: RegexTest, d: Detector, ctx: Context): seq<string> {
    if HtmlHit(test, d, ctx.html) || ScriptHit(test, d, ctx.scripts) || d.js.None? then []
    else ProbeTrace(d.js.value, ctx.page.outcome)
  }

  /** The evaluations of `isMatching` run over every entry of `g`, in order. */
  function GroupProbes(test: RegexTest, g: Group, ctx: Context): seq<string> {
    if g == [] then []
    else GroupProbes(test, g[..|g| - 1], ctx) + Probes(test, g[|g| - 1].1, ctx)
  }

  lemma GroupProbesStep(test: RegexTest, g: Group, ctx: Context, i: nat)
    requires i < |g|
    ensures GroupProbes(test, g[..i + 1], ctx) == GroupProbes(test, g[..i], ctx) + Probes(test, g[i].1, ctx)
  {
    assert g[..i + 1][..i] == g[..i];
  }

  /** A hint for the solver in `LogStep`: naming the regrouping keeps that proof small. */
  lemma AppendAssoc(a: seq<string>, b: seq<string>, c: seq<string>)
    ensures (a + b) + c == a + (b + c)
  {
  }

  /** One more `isMatching` call extends the log of a group scan by that call's evaluations. */
  lemma LogStep(test: RegexTest, g: Group, ctx: Context, i: nat, start: seq<string>, mid: seq<string>, now: seq<string>)
    requires i < |g|
    requires mid == start + GroupProbes(test, g[..i], ctx)
    requires now == mid + Probes(test, g[i].1, ctx)
    ensures now == start + GroupProbes(test, g[..i + 1], ctx)
  {
    GroupProbesStep(test, g, ctx, i);
    AppendAssoc(start, GroupProbes(test, g[..i], ctx), Probes(test, g[i].1, ctx));
  }

  /** Expressions are evaluated in rule order, each at most once: the trace is a prefix. */
  lemma {:induction false} ProbeTracePrefix(exprs: seq<string>, outcome: string -> EvalOutcome)
    ensures ProbeTrace(exprs, outcome) <= exprs
  {
    if exprs != [] && outcome(exprs[0]) != Ok(true) {
      ProbeTracePrefix(exprs[1..], outcome);
      assert exprs == [exprs[0]] + exprs[1..];
    }
  }

  /** Evaluation stops at the first expression that yields true. */
  lemma {:induction false} ProbeTraceStops(exprs: seq<string>, outcome: string -> EvalOutcome, i: nat)
    requires i < |exprs|
    requires forall k :: 0 <= k < i ==> outcome(exprs[k]) != Ok(true)
    requires outcome(exprs[i]) == Ok(true)
    ensures ProbeTrace(exprs, outcome) == exprs[..i + 1]
  {
    if i > 0 {
      assert outcome(exprs[0]) != Ok(true);
      var rest := exprs[1..];
      forall k | 0 <= k < i - 1 ensures outcome(rest[k]) != Ok(true) {
        assert rest[k] == exprs[k + 1];
      }
      ProbeTraceStops(rest, outcome, i - 1);
      assert exprs[..i + 1] == [exprs[0]] + rest[..i];
    }
  }

  /**
   When no expression yields true, every one is evaluated: an expression that
   throws or yields false does not stop the ones after it.
   */
  lemma {:induction false} ProbeTraceAll(exprs: seq<string>, outcome: string -> EvalOutcome)
    requires forall k :: 0 <= k < |exprs| ==> outcome(exprs[k]) != Ok(true)
    ensures ProbeTrace(exprs, outcome) == exprs
  {
    if exprs != [] {
      var rest := exprs[1..];
      assert outcome(exprs[0]) != Ok(true);
      forall k | 0 <= k < |rest| ensures outcome(rest[k]) != Ok(true) {
        assert rest[k] == exprs[k + 1];
      }
      ProbeTraceAll(rest, outcome);
      assert exprs == [exprs[0]] + rest;
    }
  }

  /** The last expression evaluated yields true exactly when the js rule has evidence. */
  lemma {:induction false} ProbeTraceEndsTrue(exprs: seq<string>, outcome: string -> EvalOutcome)
    ensures AnyTrue(exprs, outcome) <==>
      (ProbeTrace(exprs, outcome) != [] &&
       outcome(ProbeTrace(exprs, outcome)[|ProbeTrace(exprs, outcome)| - 1]) == Ok(true))
  {
    if exprs != [] && outcome(exprs[0]) != Ok(true) {
      var rest := exprs[1..];
      ProbeTraceEndsTrue(rest, outcome);
      if AnyTrue(exprs, outcome) {
        var i :| 0 <= i < |exprs| && outcome(exprs[i]) == Ok(true);
        assert rest[i - 1] == exprs[i];
      }
      if AnyTrue(rest, outcome) {
        var i :| 0 <= i < |rest| && outcome(rest[i]) == Ok(true);
        assert exprs[i + 1] == rest[i];
      }
    }
  }

  /** A detector without any rule never matches and never touches the page. */
  lemma NoRuleNeverMatches(test: RegexTest, ctx: Context)
    ensures !Matches(test, Detector(None, None, None), ctx)
    ensures Probes(test, Detector(None, None, None), ctx) == []
  {
  }

  /** Rules that are present but empty behave like absent ones. */
  lemma EmptyRulesNeverMatch(test: RegexTest, ctx: Context)
    ensures !Matches(test, Detector(Some([]), Some([]), Some([])), ctx)
    ensures Probes(test, Detector(Some([]), Some([]), Some([])), ctx) == []
  {
  }

  // ---------------------------------------------------------------------------
  // isMatching

  /** The html channel: some pattern tests positive against the markup. */
  method TestsAny(test: RegexTest, patterns: seq<Pattern>, s: string) returns (r: bool)
    ensures r == AnyTest(test, patterns, s)
  {
    for i := 0 to |patterns|
      invariant forall k :: 0 <= k < i ==> !test(patterns[k], s)
    {
      if test(patterns[i], s) {
        return true;
      }
    }
    return false;
  }

  /** The script channel: some pattern tests positive against some script URI. */
  method TestsAnyUri(test: RegexTest, patterns: seq<Pattern>, uris: seq<string>) returns (r: bool)
    ensures r == AnyTestAny(test, patterns, uris)
  {
    for i := 0 to |patterns|
      invariant forall a, b :: 0 <= a < i && 0 <= b < |uris| ==> !test(patterns[a], uris[b])
    {
      for j := 0 to |uris|
        invariant forall b :: 0 <= b < j ==> !test(patterns[i], uris[b])
      {
        if test(patterns[i], uris[j]) {
          return true;
        }
      }
    }
    return false;
  }

  /**
   Html, then scripts, then js expressions; the first evidence found returns
   true, so the page is asked nothing once html or scripts have matched.
   */
  method IsMatching(test: RegexTest, d: Detector, ctx: Context) returns (r: bool)
    modifies ctx.page
    ensures r == Matches(test, d, ctx)
    ensures ctx.page.log == old(ctx.page.log) + Probes(test, d, ctx)
    ensures HtmlHit(test, d, ctx.html) || ScriptHit(test, d, ctx.scripts) ==>
      ctx.page.log == old(ctx.page.log)
  {
    if d.html.Some? {
      var hit := TestsAny(test, d.html.value, ctx.html);
      if hit {
        return true;
      }
    }
    if d.script.Some? {
      var hit := TestsAnyUri(test, d.script.value, ctx.scripts);
      if hit {
        return true;
      }
    }
    if d.js.Some? {
      var exprs := d.js.value;
      for i := 0 to |exprs|
        invariant forall k :: 0 <= k < i ==> ctx.page.outcome(exprs[k]) != Ok(true)
        invariant ctx.page.log == old(ctx.page.log) + exprs[..i]
      {
        var o := ctx.page.Evaluate(exprs[i]);
        // Ok(false) and a thrown error (Failed) both go on to the next expression.
        if o == Ok(true) {
          ProbeTraceStops(exprs, ctx.page.outcome, i);
          return true;
        }
      }
      ProbeTraceAll(exprs, ctx.page.outcome);
    }
    return false;
  }

  method HasVue(test: RegexTest, cat: Catalog, ctx: Context) returns (r: bool)
    modifies ctx.page
    ensures r == Matches(test, cat.vue, ctx)
    ensures ctx.page.log == old(ctx.page.log) + Probes(test, cat.vue, ctx)
  {
    r := IsMatching(test, cat.vue, ctx);
  }

  // ---------------------------------------------------------------------------
  // First match wins: getFramework, getUI

  /** The position of the first matching entry, or |g| when none matches. */
  function FirstIndex(test: RegexTest, g: Group, ctx: Context): (k: nat)
    ensures k <= |g|
    ensures forall j :: 0 <= j < k ==> !Matches(test, g[j].1, ctx)
    ensures k < |g| ==> Matches(test, g[k].1, ctx)
  {
    if g == [] then 0
    else if Matches(test, g[0].1, ctx) then 0
    else 1 + FirstIndex(test, g[1..], ctx)
  }

  /** The name of the first matching entry in group order, or None. */
  function FirstMatch(test: RegexTest, g: Group, ctx: Context): (r: Option<string>)
    ensures r.None? <==> forall i :: 0 <= i < |g| ==> !Matches(test, g[i].1, ctx)
    ensures r.Some? ==> exists i :: 0 <= i < |g| && g[i].0 == r.value && Matches(test, g[i].1, ctx) &&
                                    forall j :: 0 <= j < i ==> !Matches(test, g[j].1, ctx)
  {
    var k := FirstIndex(test, g, ctx);
    if k < |g| then Some(g[k].0) else None
  }

  /** How many entries a first-match scan runs `isMatching` on. */
  function Scanned(test: RegexTest, g: Group, ctx: Context): nat {
    var k := FirstIndex(test, g, ctx);
    if k < |g| then k + 1 else |g|
  }

  /** Of several matching entries, the one declared first is the answer. */
  lemma FirstMatchEarliest(test: RegexTest, g: Group, ctx: Context, i: nat)
    requires i < |g| && Matches(test, g[i].1, ctx)
    requires forall j :: 0 <= j < i ==> !Matches(test, g[j].1, ctx)
    ensures FirstMatch(test, g, ctx) == Some(g[i].0)
    ensures Scanned(test, g, ctx) == i + 1
  {
  }

  /** When no entry matches, the scan runs `isMatching` on every entry and finds nothing. */
  lemma FirstMatchNone(test: RegexTest, g: Group, ctx: Context)
    requires forall j :: 0 <= j < |g| ==> !Matches(test, g[j].1, ctx)
    ensures FirstMatch(test, g, ctx) == None
    ensures Scanned(test, g, ctx) == |g|
  {
  }

  /** The shared loop of `getFramework` and `getUI`. */
  method ScanFirst(test: RegexTest, g: Group, ctx: Context) returns (r: Option<string>)
    modifies ctx.page
    ensures r == FirstMatch(test, g, ctx)
    ensures ctx.page.log == old(ctx.page.log) + GroupProbes(test, g[..Scanned(test, g, ctx)], ctx)
  {
    for i := 0 to |g|
      invariant FirstIndex(test, g, ctx) >= i
      invariant ctx.page.log == old(ctx.page.log) + GroupProbes(test, g[..i], ctx)
    {
      ghost var mid := ctx.page.log;
      var hit := IsMatching(test, g[i].1, ctx);
      LogStep(test, g, ctx, i, old(ctx.page.log), mid, ctx.page.log);
      if hit {
        assert FirstIndex(test, g, ctx) == i;
        assert Scanned(test, g, ctx) == i + 1;
        return Some(g[i].0);
      }
    }
    assert Scanned(test, g, ctx) == |g|;
    assert g[..|g|] == g;
    return None;
  }

  method GetFramework(test: RegexTest, cat: Catalog, ctx: Context) returns (r: Option<string>)
    modifies ctx.page
    ensures r == FirstMatch(test, cat.frameworks, ctx)
    ensures ctx.page.log ==
      old(ctx.page.log) + GroupProbes(test, cat.frameworks[..Scanned(test, cat.frameworks, ctx)], ctx)
  {
    r := ScanFirst(test, cat.frameworks, ctx);
  }

  method GetUI(test: RegexTest, cat: Catalog, ctx: Context) returns (r: Option<string>)
    modifies ctx.page
    ensures r == FirstMatch(test, cat.uis, ctx)
    ensures ctx.page.log ==
      old(ctx.page.log) + GroupProbes(test, cat.uis[..Scanned(test, cat.uis, ctx)], ctx)
  {
    r := ScanFirst(test, cat.uis, ctx);
  }

  // ---------------------------------------------------------------------------
  // Collect all: getPlugins, getNuxtModules

  /** The names of the matching entries of `g`. */
  function MatchingNames(test: RegexTest, g: Group, ctx: Context): (r: set<string>)
    ensures forall n :: n in r <==>
      exists i :: 0 <= i < |g| && g[i].0 == n && Matches(test, g[i].1, ctx)
  {
    if g == [] then {}
    else
      var last := g[|g| - 1];
      var front := MatchingNames(test, g[..|g| - 1], ctx);
      assert forall i :: 0 <= i < |g| - 1 ==> g[..|g| - 1][i] == g[i];
      if Matches(test, last.1, ctx) then front + {last.0} else front
  }

  lemma MatchingNamesStep(test: RegexTest, g: Group, ctx: Context, i: nat)
    requires i < |g|
    ensures MatchingNames(test, g[..i + 1], ctx) ==
      MatchingNames(test, g[..i], ctx) + (if Matches(test, g[i].1, ctx) then {g[i].0} else {})
  {
  }

  /** Every entry of `g` is an entry of `h`: `h` matches at least the names `g` does. */
  lemma MatchingNamesMonotone(test: RegexTest, g: Group, h: Group, ctx: Context)
    requires forall e :: e in g ==> e in h
    ensures MatchingNames(test, g, ctx) <= MatchingNames(test, h, ctx)
  {
    forall n | n in MatchingNames(test, g, ctx) ensures n in MatchingNames(test, h, ctx) {
      var i :| 0 <= i < |g| && g[i].0 == n && Matches(test, g[i].1, ctx);
      assert g[i] in h;
      var j :| 0 <= j < |h| && h[j] == g[i];
    }
  }

  /** Reordering the entries of a group does not change the collected names. */
  lemma MatchingNamesReorder(test: RegexTest, g: Group, h: Group, ctx: Context)
    requires multiset(g) == multiset(h)
    ensures MatchingNames(test, g, ctx) == MatchingNames(test, h, ctx)
  {
    forall e | e in g ensures e in h {
      assert e in multiset(g);
    }
    forall e | e in h ensures e in g {
      assert e in multiset(h);
    }
    MatchingNamesMonotone(test, g, h, ctx);
    MatchingNamesMonotone(test, h, g, ctx);
  }

  /** The loop shared by `getPlugins` and `getNuxtModules` (sequential here). */
  method CollectMatching(test: RegexTest, g: Group, ctx: Context) returns (names: set<string>)
    modifies ctx.page
    ensures names == MatchingNames(test, g, ctx)
    ensures ctx.page.log == old(ctx.page.log) + GroupProbes(test, g, ctx)
  {
    names := {};
    for i := 0 to |g|
      invariant names == MatchingNames(test, g[..i], ctx)
      invariant ctx.page.log == old(ctx.page.log) + GroupProbes(test, g[..i], ctx)
    {
      ghost var mid := ctx.page.log;
      var hit := IsMatching(test, g[i].1, ctx);
      LogStep(test, g, ctx, i, old(ctx.page.log), mid, ctx.page.log);
      if hit {
        names := names + {g[i].0};
      }
      MatchingNamesStep(test, g, ctx, i);
    }
    assert g[..|g|] == g;
  }

  method GetPlugins(test: RegexTest, cat: Catalog, ctx: Context) returns (names: set<string>)
    modifies ctx.page
    ensures names == MatchingNames(test, cat.plugins, ctx)
    ensures ctx.page.log == old(ctx.page.log) + GroupProbes(test, cat.plugins, ctx)
  {
    names := CollectMatching(test, cat.plugins, ctx);
  }

  method GetNuxtModules(test: RegexTest, cat: Catalog, ctx: Context) returns (names: set<string>)
    modifies ctx.page
    ensures names == MatchingNames(test, cat.nuxtModules, ctx)
    ensures ctx.page.log == old(ctx.page.log) + GroupProbes(test, cat.nuxtModules, ctx)
  {
    names := CollectMatching(test, cat.nuxtModules, ctx);
  }

  // ---------------------------------------------------------------------------
  // Boolean map: getNuxtMeta

  function Names(g: Group): set<string> {
    set i | 0 <= i < |g| :: g[i].0
  }

  /** Keys of a JavaScript object are distinct. */
  predicate DistinctNames(g: Group) {
    forall i, j :: 0 <= i < j < |g| ==> g[i].0 != g[j].0
  }

  /** Every name of `g` mapped to whether its detector matches. */
  function MatchMap(test: RegexTest, g: Group, ctx: Context): (m: map<string, bool>)
    ensures m.Keys == Names(g)
  {
    if g == [] then map[]
    else
      var front := g[..|g| - 1];
      var last := g[|g| - 1];
      assert Names(g) == Names(front) + {last.0} by {
        assert forall i :: 0 <= i < |g| - 1 ==> front[i] == g[i];
      }
      MatchMap(test, front, ctx)[last.0 := Matches(test, last.1, ctx)]
  }

  /** With distinct names, each name maps to its own detector's verdict. */
  lemma {:induction false} MatchMapValues(test: RegexTest, g: Group, ctx: Context)
    requires DistinctNames(g)
    ensures forall i :: 0 <= i < |g| ==>
      g[i].0 in MatchMap(test, g, ctx) && MatchMap(test, g, ctx)[g[i].0] == Matches(test, g[i].1, ctx)
  {
    if g != [] {
      var front := g[..|g| - 1];
      var last := g[|g| - 1];
      assert DistinctNames(front) by {
        forall a, b | 0 <= a < b < |front| ensures front[a].0 != front[b].0 {
          assert front[a] == g[a] && front[b] == g[b];
        }
      }
      MatchMapValues(test, front, ctx);
      forall i | 0 <= i < |g|
        ensures g[i].0 in MatchMap(test, g, ctx) && MatchMap(test, g, ctx)[g[i].0] == Matches(test, g[i].1, ctx)
      {
        if i < |g| - 1 {
          assert front[i] == g[i];
          assert g[i].0 != last.0;
        }
      }
    }
  }

  lemma MatchMapStep(test: RegexTest, g: Group, ctx: Context, i: nat)
    requires i < |g|
    ensures MatchMap(test, g[..i + 1], ctx) == MatchMap(test, g[..i], ctx)[g[i].0 := Matches(test, g[i].1, ctx)]
  {
    assert g[..i + 1][..i] == g[..i];
  }

  /** The loop of `getNuxtMeta` (sequential here), assigning `meta[key]` in place. */
  method MapMatching(test: RegexTest, g: Group, ctx: Context) returns (meta: map<string, bool>)
    modifies ctx.page
    ensures meta == MatchMap(test, g, ctx)
    ensures ctx.page.log == old(ctx.page.log) + GroupProbes(test, g, ctx)
  {
    meta := map[];
    for i := 0 to |g|
      invariant meta == MatchMap(test, g[..i], ctx)
      invariant ctx.page.log == old(ctx.page.log) + GroupProbes(test, g[..i], ctx)
    {
      ghost var mid := ctx.page.log;
      var hit := IsMatching(test, g[i].1, ctx);
      LogStep(test, g, ctx, i, old(ctx.page.log), mid, ctx.page.log);
      meta := meta[g[i].0 := hit];
      MatchMapStep(test, g, ctx, i);
    }
    assert g[..|g|] == g;
  }

  method GetNuxtMeta(test: RegexTest, cat: Catalog, ctx: Context) returns (meta: map<string, bool>)
    modifies ctx.page
    ensures meta == MatchMap(test, cat.nuxtMeta, ctx)
    ensures ctx.page.log == old(ctx.page.log) + GroupProbes(test, cat.nuxtMeta, ctx)
  {
    meta := MapMatching(test, cat.nuxtMeta, ctx);
  }

  // ---------------------------------------------------------------------------
  // Properties of whole classifications

  /** Classifying the same page twice against the same catalog gives the same answers. */
  method ReclassifyAgrees(test: RegexTest, cat: Catalog, ctx: Context)
    returns (vue1: bool, vue2: bool,
             framework1: Option<string>, framework2: Option<string>,
             ui1: Option<string>, ui2: Option<string>,
             plugins1: set<string>, plugins2: set<string>,
             meta1: map<string, bool>, meta2: map<string, bool>,
             modules1: set<string>, modules2: set<string>)
    modifies ctx.page
    ensures vue1 == vue2 && framework1 == framework2 && ui1 == ui2
    ensures plugins1 == plugins2 && meta1 == meta2 && modules1 == modules2
  {
    vue1 := HasVue(test, cat, ctx);
    framework1 := GetFramework(test, cat, ctx);
    ui1 := GetUI(test, cat, ctx);
    plugins1 := GetPlugins(test, cat, ctx);
    meta1 := GetNuxtMeta(test, cat, ctx);
    modules1 := GetNuxtModules(test, cat, ctx);
    vue2 := HasVue(test, cat, ctx);
    framework2 := GetFramework(test, cat, ctx);
    ui2 := GetUI(test, cat, ctx);
    plugins2 := GetPlugins(test, cat, ctx);
    meta2 := GetNuxtMeta(test, cat, ctx);
    modules2 := GetNuxtModules(test, cat, ctx);
  }

  /** An empty group: no framework, no plugins, an empty meta map. */
  lemma EmptyGroupNeutral(test: RegexTest, ctx: Context)
    ensures FirstMatch(test, [], ctx) == None
    ensures MatchingNames(test, [], ctx) == {}
    ensures MatchMap(test, [], ctx) == map[]
  {
  }

  /** A js rule whose only expression throws does not match. */
  lemma ThrowingExpressionNoMatch(test: RegexTest, ctx: Context, js: string)
    requires ctx.page.outcome(js) == Failed
    ensures !Matches(test, Detector(None, None, Some([js])), ctx)
    ensures Probes(test, Detector(None, None, Some([js])), ctx) == [js]
  {
    assert [js][1..] == [];
    assert ProbeTrace([js], ctx.page.outcome) == [js] + ProbeTrace([], ctx.page.outcome);
  }
}
