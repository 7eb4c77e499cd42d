# Lighthouse: Lantern metric blending and the replay stringify extension, in Dafny

This project models two sequential components of Lighthouse and proves properties of them.

**Lantern metric template** (`lantern_metric.dfy`, module `LanternMetric`). A Lantern metric estimates one page-load metric without running the page. It takes the page's dependency graph and builds an optimistic and a pessimistic variant of it. It runs three simulations on them: optimistic strict, optimistic with flexible ordering, and pessimistic. It keeps the faster optimistic result, with ties going to the flexible one. It extracts an estimate from each result and blends the two through the metric's coefficients: `intercept * multiplier + optimistic * optimisticMs + pessimistic * pessimisticMs`. A positive intercept is damped by `min(1, optimisticMs / 1000)`. Only navigations can be estimated. A missing gather context counts as a navigation. The model also covers `getScriptUrls`, the set of script URLs in a graph.

- The graph is the sequence of nodes its traversal visits. Each node is a CPU task or a network record.
- The simulator is a datatype holding its round-trip time and an uninterpreted total function from (graph, options) to a result.
- The upstream artifacts (dependency graph, processed trace, processed navigation, load simulator) are functions that return a `Result`. Their failures propagate unchanged.
- A concrete metric is a `LanternMetricClass` record of optional overrides. `None` stands for the base-class member: the throwing `COEFFICIENTS`, `getOptimisticGraph` and `getPessimisticGraph`, the identity `getEstimateFromSimulation`, and the `getScaledCoefficients` that returns `COEFFICIENTS`.
- Arithmetic is over `real`.
- Ties between the strict and the flexible optimistic simulation go to the flexible one (`lantern-metric.js` line 128).
- `timing` has no lower bound, because the coefficients are arbitrary.

**Replay stringify extension** (`stringify_extension.dfy`, module `StringifyExtension`). `LighthouseStringifyExtension` turns a recorded user flow into a script that runs the flow under Lighthouse. Each navigation is bracketed by `startNavigation`/`endNavigation`. Each run of other user actions becomes one timespan. The private field `#isProcessingTimespan` records whether a timespan is open.

- The extension is a class with that boolean field.
- The output buffer is a `LineWriter` class whose `lines: seq<string>` field the methods append to.
- The code the Puppeteer base class emits for a call is one marker line per call, starting with `//`.
- The pure functions `StepLines`, `StepsLines` and `Script` specify what each call, a run of steps and a whole flow emit. `WellBracketed` and `TimespanOpen` state the bracketing invariant over a buffer.
- `StringifyFlow` drives a fresh extension over a flow, the way the tests call `stringify(flow, {extension})`. It is proved to produce `Script(flow)`.
- Neither `beforeAllSteps` nor `afterAllSteps` resets `#isProcessingTimespan` (lines 27-57 and 95-97). An extension reused for a second flow after one that ended inside a timespan starts with the flag set. Its first action then emits no `startTimespan`, and its first navigation emits an `endTimespan` that closes nothing (`StaleFlagBreaksBracketing`). The bracketing results hold for a fresh extension, which is how the tests use it.

`wrappers.dfy` holds the `Option` and `Result` datatypes both modules use.

## Model

| member | source | states |
|---|---|---|
| `LanternMetric.GetScriptUrls` | lighthouse-core/computed/metrics/lantern-metric.js:34-46 | the set the traversal builds is `ScriptUrls(graph, condition)`, whose membership the lemmas below characterise |
| `LanternMetric.ScriptUrlsMembership` | lighthouse-core/computed/metrics/lantern-metric.js:38-43 | a URL is in the result iff some non-CPU node of type Script with that URL passes the condition (when one is given); CPU nodes never contribute and duplicate URLs give one element |
| `LanternMetric.ScriptUrlsConditionMonotone` | lighthouse-core/computed/metrics/lantern-metric.js:41 | the result with a condition is a subset of the result without one |
| `LanternMetric.ScriptUrlsOrderIrrelevant` | lighthouse-core/computed/metrics/lantern-metric.js:36-45 | two traversals visiting the same nodes in any order give the same set |
| `LanternMetric.ScriptUrlsExample` | lighthouse-core/computed/metrics/lantern-metric.js:38-43 | CPU, script `a.js` twice, document `x.html` gives `{"a.js"}`; a condition rejecting `a.js` gives `{}` |
| `LanternMetric.Coefficients` | lighthouse-core/computed/metrics/lantern-metric.js:51-53 | `COEFFICIENTS` succeeds iff the metric defines them, and otherwise fails as unimplemented |
| `LanternMetric.GetScaledCoefficients` | lighthouse-core/computed/metrics/lantern-metric.js:64-66 | without an override the result is `COEFFICIENTS`; it fails only when neither is defined |
| `LanternMetric.DefaultCoefficientsIgnoreRtt` | lighthouse-core/computed/metrics/lantern-metric.js:64-66 | without an override the coefficients are the same for every round-trip time |
| `LanternMetric.GetOptimisticGraph` | lighthouse-core/computed/metrics/lantern-metric.js:73-75 | without an override it fails as unimplemented; with one, the override's graph or its own error is the result; success implies an override |
| `LanternMetric.GetPessimisticGraph` | lighthouse-core/computed/metrics/lantern-metric.js:82-84 | without an override it fails as unimplemented; with one, the override's graph or its own error is the result; success implies an override |
| `LanternMetric.GetEstimateFromSimulation` | lighthouse-core/computed/metrics/lantern-metric.js:91-93 | without an override the estimate is the simulation result itself |
| `LanternMetric.WithOptimistic` | lighthouse-core/computed/metrics/lantern-metric.js:127-135 | `{...extras, optimistic}` carries the given flag and the caller's other extras unchanged (none when the caller passed none) |
| `LanternMetric.SelectOptimisticSimulation` | lighthouse-core/computed/metrics/lantern-metric.js:127-130 | the chosen simulation is one of the two and has the smaller time; the strict one only when strictly faster, the flexible one on a tie |
| `LanternMetric.InterceptMultiplier` | lighthouse-core/computed/metrics/lantern-metric.js:138-140 | at most 1; exactly 1 for a non-positive intercept or an optimistic time of at least 1000 ms; otherwise 1000 times it is the optimistic time, and it is non-negative for non-negative times |
| `LanternMetric.BlendTiming` | lighthouse-core/computed/metrics/lantern-metric.js:141-144 | a positive intercept adds between nothing and its full value to the linear combination of the two estimates (for a non-negative optimistic estimate) |
| `LanternMetric.BlendIsLinearFit` | lighthouse-core/computed/metrics/lantern-metric.js:139-144 | for a non-positive intercept or an optimistic time of at least 1000 ms the timing is the undamped linear fit |
| `LanternMetric.BlendDampsIntercept` | lighthouse-core/computed/metrics/lantern-metric.js:139-144 | below 1000 ms a positive intercept enters scaled by optimistic time / 1000 |
| `LanternMetric.HalfSecondHalvesIntercept` | lighthouse-core/computed/metrics/lantern-metric.js:139-144 | at 500 ms the intercept contributes half of itself |
| `LanternMetric.BlendExample` | lighthouse-core/computed/metrics/lantern-metric.js:139-144 | 800 ms and 2000 ms with coefficients {300, 0.5, 0.3} blend to 1240 |
| `LanternMetric.EffectiveGatherContext` | lighthouse-core/computed/metrics/lantern-metric.js:103 | a missing gather context defaults to a navigation; a present one is used as it is |
| `LanternMetric.IsNavigation` | lighthouse-core/computed/metrics/lantern-metric.js:103-104 | the data is estimated exactly when it has no gather context or its gather mode is `navigation` |
| `LanternMetric.RemoveFirst` | lighthouse-core/computed/metrics/lantern-metric.js:108 | `replace('Lantern', '')` never lengthens the name and strips a leading `Lantern` |
| `LanternMetric.RemoveFirstAt` | lighthouse-core/computed/metrics/lantern-metric.js:108 | when the first occurrence of the pattern is at position `i`, the result is the name with exactly those characters cut out |
| `LanternMetric.RemoveFirstAbsent` | lighthouse-core/computed/metrics/lantern-metric.js:108 | a name without the pattern is left unchanged |
| `LanternMetric.MetricName` | lighthouse-core/computed/metrics/lantern-metric.js:108 | for a class name starting with `Lantern` the metric name is the rest of the class name; it is never longer than the class name |
| `LanternMetric.SimulationOptions` | lighthouse-core/computed/metrics/lantern-metric.js:117-124 | the label is the run's prefix (`optimistic`, `optimisticFlex`, `pessimistic`) followed by the metric name; `flexibleOrdering` is `true` for the flexible run and absent for the other two |
| `LanternMetric.SimulationLabelsDistinct` | lighthouse-core/computed/metrics/lantern-metric.js:117-124 | the three simulations of one metric carry three different labels |
| `LanternMetric.ResolveInputs` | lighthouse-core/computed/metrics/lantern-metric.js:109-112 | the requests run in source order and the first failure (graph, processed trace, processed navigation, load simulator) is the result unchanged; on success the graph and processed navigation are the requested ones, and the simulator is the one in the data when present, otherwise the loaded one |
| `LanternMetric.EstimateWithGraphs` | lighthouse-core/computed/metrics/lantern-metric.js:114-152 | succeeds iff both graph builders succeed and some coefficients are defined; the first failing builder's error (its unimplemented error, or the override's own) is the result, and it fails with `COEFFICIENTS unimplemented!` when the builders exist but no coefficients do; on success it returns the built graphs, and the timing is the blend of the returned estimates under the metric's coefficients for the simulator's RTT |
| `LanternMetric.ComputeMetricWithGraphs` | lighthouse-core/computed/metrics/lantern-metric.js:101-153 | a non-navigation is rejected whatever the collaborators do; for a navigation any upstream failure is the result unchanged, the graph request's first; success implies a navigation whose upstream requests all succeeded |
| `LanternMetric.Compute` | lighthouse-core/computed/metrics/lantern-metric.js:160-162 | `compute_` is `computeMetricWithGraphs` without extras |
| `LanternMetric.RejectionPrecedesUpstream` | lighthouse-core/computed/metrics/lantern-metric.js:103-112 | for a non-navigation the result does not depend on the upstream collaborators and is the navigation-only error |
| `LanternMetric.EstimatesFromSimulations` | lighthouse-core/computed/metrics/lantern-metric.js:118-135 | the optimistic estimate is extracted with `optimistic: true` from the chosen of the strict and flexible simulations of the optimistic graph; the pessimistic one with `optimistic: false` from the pessimistic simulation; both with the caller's extras |
| `LanternMetric.DefaultEstimatesAreSimulations` | lighthouse-core/computed/metrics/lantern-metric.js:127-135 | with the default extraction the optimistic time is the minimum of the two optimistic simulations, a tie yields the flexible one, and the pessimistic estimate is the pessimistic simulation |
| `LanternMetric.ComputeIsEstimateOverInputs` | lighthouse-core/computed/metrics/lantern-metric.js:109-152 | for a navigation whose inputs resolve, the result is the estimate over exactly those inputs |
| `StringifyExtension.SomeNavigationEvent` | lighthouse-core/fraggle-rock/replay/stringify-extension.js:17 | `some(event => event.type === 'navigation')` holds iff some asserted event is a navigation |
| `StringifyExtension.IsNavigationStep` | lighthouse-core/fraggle-rock/replay/stringify-extension.js:14-19 | a step is a navigation iff its type is `navigate` or one of its asserted events (if any) is a navigation |
| `StringifyExtension.IsMobile` | lighthouse-core/fraggle-rock/replay/stringify-extension.js:31-35 | a flow is desktop only if some `setViewport` step says it is not mobile |
| `StringifyExtension.IsMobileWithoutViewport` | lighthouse-core/fraggle-rock/replay/stringify-extension.js:31-35 | with no `setViewport` step the flow is mobile |
| `StringifyExtension.IsMobileIsLastViewport` | lighthouse-core/fraggle-rock/replay/stringify-extension.js:31-35 | otherwise `isMobile` is that of the last `setViewport` step |
| `StringifyExtension.ConfigLineIsUndefinedIffMobile` | lighthouse-core/fraggle-rock/replay/stringify-extension.js:47-52 | the config line is `const config = undefined;` exactly when the flow is mobile |
| `StringifyExtension.LighthouseStringifyExtension.constructor` | lighthouse-core/fraggle-rock/replay/stringify-extension.js:22 | a new extension has no timespan open |
| `StringifyExtension.LighthouseStringifyExtension.BeforeAllSteps` | lighthouse-core/fraggle-rock/replay/stringify-extension.js:27-57 | appends the `fs` import, the delegated code, the config context, the config chosen by the last viewport, the API import and `startFlow`; the flag is untouched and a consistent buffer stays consistent |
| `StringifyExtension.LighthouseStringifyExtension.StringifyStep` | lighthouse-core/fraggle-rock/replay/stringify-extension.js:62-88 | appends `StepLines(flag, step)` and sets the flag to `OpenAfterStep`; it keeps the flag equal to "the last timespan marker is a start" and the buffer well bracketed |
| `StringifyExtension.LighthouseStringifyExtension.AfterAllSteps` | lighthouse-core/fraggle-rock/replay/stringify-extension.js:93-101 | appends `endTimespan` if a timespan is open, then the report lines and the delegated code; a consistent buffer ends well bracketed with no timespan open |
| `StringifyExtension.ViewportStepIsDelegatedOnly` | lighthouse-core/fraggle-rock/replay/stringify-extension.js:65-68 | a `setViewport` step emits only the delegated code, no flow call, and leaves the flag unchanged |
| `StringifyExtension.NavigationIsBracketed` | lighthouse-core/fraggle-rock/replay/stringify-extension.js:72-87 | a navigation emits `endTimespan` only if one was open, then `startNavigation`, the step, `endNavigation`; afterwards no timespan is open |
| `StringifyExtension.ActionsShareOneTimespan` | lighthouse-core/fraggle-rock/replay/stringify-extension.js:78-81 | a run of user actions emits one `startTimespan`, and only if none was open, followed by their delegated code; the timespan stays open |
| `StringifyExtension.StepKeepsBracketing` | lighthouse-core/fraggle-rock/replay/stringify-extension.js:72-87 | one step keeps a buffer well bracketed and the flag equal to whether its last timespan marker is a start |
| `StringifyExtension.StepsKeepBracketing` | lighthouse-core/fraggle-rock/replay/stringify-extension.js:62-88 | the same across any sequence of steps |
| `StringifyExtension.AfterAllStepsCloses` | lighthouse-core/fraggle-rock/replay/stringify-extension.js:95-99 | after `afterAllSteps` no timespan is open and the buffer is still well bracketed |
| `StringifyExtension.ScriptIsWellBracketed` | lighthouse-core/fraggle-rock/replay/stringify-extension.js:27-101 | the whole script has alternating `startTimespan`/`endTimespan`, no `startNavigation` inside a timespan, and no timespan open at the end |
| `StringifyExtension.EveryTimespanEnds` | lighthouse-core/fraggle-rock/replay/stringify-extension.js:95-97 | in such a buffer every `startTimespan` has a later `endTimespan` |
| `StringifyExtension.NoNavigationInsideTimespan` | lighthouse-core/fraggle-rock/replay/stringify-extension.js:72-77 | in such a buffer no timespan is open where a `startNavigation` is emitted |
| `StringifyExtension.StaleFlagBreaksBracketing` | lighthouse-core/fraggle-rock/replay/stringify-extension.js:72-77 | with the flag set over a buffer that has no open timespan, as when an extension is reused after `afterAllSteps`, a navigation starts with an `endTimespan` that closes nothing, and the buffer is no longer well bracketed |
| `StringifyExtension.StringifySteps` | lighthouse-core/test/fraggle-rock/replay/stringify-extension-test.js:58-60 | calling `stringifyStep` on each step in turn appends the concatenation of the per-step lines (`StepsLines`) and leaves the timespan flag at `StepsOpen` of the steps, starting from whatever flag the extension had |
| `StringifyExtension.StringifyFlow` | lighthouse-core/test/fraggle-rock/replay/stringify-extension-test.js:58-60 | driving a fresh extension and buffer over a flow produces exactly `Script(flow)` |
| `StringifyExtension.ClickWithNavigationIsNavigation` | lighthouse-core/test/fraggle-rock/replay/stringify-extension-test.js:126-177 | a click asserting a navigation is bracketed as a navigation; no timespan is emitted or left open |
| `StringifyExtension.TrailingActionTimespanIsClosed` | lighthouse-core/test/fraggle-rock/replay/stringify-extension-test.js:23-67 | a click after a navigation opens a timespan, which `afterAllSteps` closes first |

## Left out

- Asynchrony: `await`, the promises and the order of suspension are not modelled. Each call is one atomic step.
- The memoization and `context` of the upstream requests are not modelled. `PageDependencyGraph`, `ProcessedTrace`, `ProcessedNavigation` and `LoadSimulator` are function parameters, because they are foreign code.
- The simulator's scheduling is left out. `simulate` is an uninterpreted total function, so a simulation that throws is not modelled.
- The internals of the dependency graph (edges, variant construction) are left out. The graph is only the sequence of nodes `traverse` visits.
- The concrete metric subclasses and their coefficient tables are not part of this model.
- Metric overrides of `getScaledCoefficients` and `getEstimateFromSimulation` are total functions. An override that throws (for instance one reading an unimplemented `COEFFICIENTS`) is not modelled.
- IEEE floating point is not modelled: times and coefficients are `real`, so NaN, infinities and rounding do not arise.
- The `data` fields other than `gatherContext`, `trace` and `simulator` are left out, because this code only forwards them.
- `JsonString`: `JSON.stringify` of the flow title only adds the quotes. Escaping is not modelled.
- The code the Puppeteer base class emits in `beforeAllSteps`, `stringifyStep` and `afterAllSteps` is one marker line per call. Its text and indentation are not modelled because the library is not part of this model.
- `Step` carries an `isMobile` flag on every step, read only for `setViewport` steps. The other step fields (selectors, offsets, URLs) are left out because the extension does not read them.
- The tests' snapshot comparisons, and the run of the generated script with `node`, are I/O and are not modelled.
