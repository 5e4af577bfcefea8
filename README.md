# Detector matching engine of vue-telescope-analyzer

This project models the signature-matching core of the analyzer, `src/detectors.js`, in Dafny.
`isMatching` decides whether one technology detector matches an analysed page. The page is
given as its markup, the URIs of its loaded scripts, and a live page that can evaluate
JavaScript expressions. Six strategies are built on `isMatching`:

- `hasVue` asks about the Vue detector.
- `getFramework` and `getUI` return the first matching name of their group, or `null`.
- `getPlugins` and `getNuxtModules` collect every matching name.
- `getNuxtMeta` maps every name of its group to a boolean.

Everything is in one module, `Detectors` (`detectors.dfy`):

- A detector has three optional rules, `html`, `script` and `js`. `None` stands for a rule that
  is absent or falsy, which `if (detector.html)` skips. `Some(...)` holds the patterns or
  expressions the rule yields.
- A catalog group is the sequence of its `(name, detector)` entries in `Object.keys` order.
  The catalog is an immutable `Catalog` value passed to every strategy.
- The compiled regular-expression test `pattern.regex.test(s)` is an oracle parameter,
  `test: (Pattern, string) -> bool`.
- The live page is the class `Page`. Its constant `outcome` fixes what `page.evaluate` answers
  for each expression: `Ok(b)`, or `Failed` when evaluation throws. Its field `log` records
  every expression the page is asked to evaluate, in order. With the log, the contracts can
  say which evaluations happen, not only what is returned.
- `Matches` is the declarative meaning of a match:
  - some html pattern tests positive on the markup; or
  - some script pattern tests positive on some script URI; or
  - some js expression evaluates to `Ok(true)`.

  `IsMatching` is the source's early-exit loop, proved to return exactly `Matches`.
- `Probes` states which expressions `isMatching` hands to the page. It is none at all when
  html or scripts have matched, or when there is no js rule. Otherwise it is the expressions
  in rule order, up to and including the first one that evaluates to true.
- The strategies are loops over the group. Their contracts relate the result to
  specification functions: `FirstMatch`, `MatchingNames` and `MatchMap`. They also give the
  exact log of evaluations.

## Model

| member | source | states |
|---|---|---|
| `Detectors.TestsAny` | src/detectors.js:78-82 | returns true iff some html pattern tests positive against the markup |
| `Detectors.TestsAnyUri` | src/detectors.js:84-90 | returns true iff some script pattern tests positive against some script URI (the full cross product) |
| `Detectors.Page.Evaluate` | src/detectors.js:95 | answers the page's outcome for the expression, a thrown error being `Failed`, and appends the expression to the page's log |
| `Detectors.IsMatching` | src/detectors.js:76-99 | result is true iff an html pattern matches the markup, or a script pattern matches a script URI, or a js expression evaluates to true; the page log grows by exactly `Probes`, and by nothing when html or scripts matched |
| `Detectors.ProbeTracePrefix` | src/detectors.js:93-97 | the evaluated expressions are a prefix of the js rule, each evaluated at most once, in rule order |
| `Detectors.ProbeTraceStops` | src/detectors.js:93-95 | when the first true expression is at position i, exactly the expressions 0..i are evaluated and none after it |
| `Detectors.ProbeTraceAll` | src/detectors.js:93-97 | when no expression evaluates to true, every expression is evaluated: one that throws or yields false does not abort the ones after it |
| `Detectors.ProbeTraceEndsTrue` | src/detectors.js:92-98 | the js rule has evidence iff the last evaluated expression evaluates to true |
| `Detectors.NoRuleNeverMatches` | src/detectors.js:76-99 | a detector with no html, script or js rule never matches and causes no evaluation |
| `Detectors.EmptyRulesNeverMatch` | src/detectors.js:78-98 | rules that are present but empty never match and cause no evaluation |
| `Detectors.ThrowingExpressionNoMatch` | src/detectors.js:94-96 | a js rule whose only expression throws is evaluated once and does not match (the error is swallowed) |
| `Detectors.HasVue` | src/detectors.js:14-16 | result equals whether the Vue detector matches, with the evaluations of that one `isMatching` call |
| `Detectors.FirstIndex` | src/detectors.js:19-24 | the position of the first matching entry: no earlier entry matches, and it is the group's length when nothing matches |
| `Detectors.FirstMatch` | src/detectors.js:18-25 | None iff no entry matches (so an empty group gives None); otherwise the name of an entry that matches while every earlier entry does not |
| `Detectors.FirstMatchEarliest` | src/detectors.js:19-23 | when entry i matches and no earlier one does, the answer is entry i's name and exactly i + 1 entries are examined |
| `Detectors.FirstMatchNone` | src/detectors.js:19-24 | when no entry matches, the answer is None after every entry is examined |
| `Detectors.ScanFirst` | src/detectors.js:19-24 | the scan returns `FirstMatch`; the page is asked only about entries up to and including the first match, in group order |
| `Detectors.GetFramework` | src/detectors.js:18-25 | the first framework in catalog order whose detector matches, or None; later frameworks cause no evaluation |
| `Detectors.GetUI` | src/detectors.js:27-34 | the first UI library in catalog order whose detector matches, or None; later ones cause no evaluation |
| `Detectors.MatchingNames` | src/detectors.js:39-45 | a name is in the result iff some entry with that name has a matching detector |
| `Detectors.MatchingNamesMonotone` | src/detectors.js:39-45 | a group containing every entry of another collects at least the other's names |
| `Detectors.MatchingNamesReorder` | src/detectors.js:36-48 | reordering a group's entries does not change the collected names |
| `Detectors.CollectMatching` | src/detectors.js:37-47 | the collected set is exactly `MatchingNames`; every entry's `isMatching` runs once, whatever the others give |
| `Detectors.GetPlugins` | src/detectors.js:36-48 | exactly the names of matching plugins, as a set |
| `Detectors.GetNuxtModules` | src/detectors.js:62-74 | exactly the names of matching Nuxt modules, as a set |
| `Detectors.MatchMap` | src/detectors.js:50-60 | the map's key set is exactly the group's names: total over the group, whatever matches |
| `Detectors.MatchMapValues` | src/detectors.js:53-57 | with distinct names (object keys), each name maps to whether its own detector matches |
| `Detectors.MapMatching` | src/detectors.js:51-59 | the built map is `MatchMap`; every entry's `isMatching` runs once |
| `Detectors.GetNuxtMeta` | src/detectors.js:50-60 | the Nuxt meta map is `MatchMap` of the meta group |
| `Detectors.ReclassifyAgrees` | src/detectors.js:14-74 | classifying the same page twice gives the same Vue verdict, framework, UI library, plugins, meta map and modules |
| `Detectors.EmptyGroupNeutral` | src/detectors.js:18-74 | an empty group gives no first match, an empty name set and an empty map |

## Left out

- Catalog loading by `require` of JSON files (src/detectors.js:3-12): the catalog is an immutable `Catalog` value passed in.
- `parsePatterns` and `asArray` (src/detectors.js:1): src/utils.js is not part of this model. A present rule is already the sequence of patterns or expressions they would yield.
- JavaScript `RegExp` semantics, including the `lastIndex` state of global regular expressions: `test` is a pure oracle.
- The live browser and the `Boolean(${js})` wrapping: the page answers each expression with a fixed `outcome`. A page whose answers change between calls is not modelled, and the log records the raw expression.
- `Page.Evaluate` always returns. In the source, a `page.evaluate` that never settles (src/detectors.js:95, no timeout) makes `isMatching` and the strategy waiting on it (src/detectors.js:20, 29, 41, 55, 67) wait forever.
- `Promise.all` concurrency in `getPlugins`, `getNuxtMeta` and `getNuxtModules`: the loops run sequentially. The results (a set, a total map) do not depend on order. The interleaving of their evaluations in the page log is not modelled; the log gives the sequential order.
- `Array.from(plugins)` ordering: `GetPlugins` and `GetNuxtModules` return a set, because the array order depends on completion order.
- A missing `page`, or missing `scripts`, in the context argument is not modelled. Both are always present here. In the source, a missing `page` throws inside the `try` and counts as no match. Missing `scripts` rejects `isMatching` only once a script rule with a pattern is reached after html has not matched (src/detectors.js:84-86). A detector with only html or js rules settles normally without `scripts`. The rejection propagates out of every strategy, through `Promise.all` for the collect and map ones.
- Duplicate names in a group cannot occur in a JavaScript object. `MatchMapValues` therefore assumes distinct names. `MatchMap` itself lets the last entry with a name win.
- MatchMap: is total over the group even for a meta key named exactly `__proto__`. In the source, `meta[key] = …` (src/detectors.js:55) with that key calls the prototype setter and creates no own key.
