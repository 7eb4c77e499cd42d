/**
 * The Lantern metric template: the estimate of one page-load metric obtained by
 * simulating an optimistic and a pessimistic variant of the page's dependency
 * graph and blending their times through per-metric regression coefficients.
 *
 * The collaborators that build the dependency graph, process the trace and
 * provide the simulator are parameters of the model; the simulator is an
 * uninterpreted total function from a graph and simulation options to a result.
 */
module LanternMetric {
  import opened Wrappers

  // ---------------------------------------------------------------------------
  // Dependency graph (as far as this core inspects it)
  // ---------------------------------------------------------------------------

  /** The resource types a network record can carry. */
  datatype ResourceType =
    | XHR | Fetch | EventSource | Script | Stylesheet | Image | Media | Font
    | Document | TextTrack | WebSocket | Manifest | SignedExchange | Ping
    | Preflight | CSPViolationReport | Other

  datatype NetworkRecord = NetworkRecord(url: string, resourceType: ResourceType)

  /** A graph node is either a CPU task or a network request. */
  datatype Node =
    | CpuNode(id: string)
    | NetworkNode(id: string, record: NetworkRecord)

  /**
   * A dependency graph, seen through its traversal: every node exactly once,
   * in the order `traverse` visits them.
   */
  type DependencyGraph = seq<Node>

  // ---------------------------------------------------------------------------
  // getScriptUrls
  // ---------------------------------------------------------------------------

  /** Whether the traversal callback adds this node's URL to the set. */
  predicate Contributes(node: Node, condition: Option<Node -> bool>)
  {
    && node.NetworkNode?
    && node.record.resourceType == Script
    && (condition.None? || condition.value(node))
  }

  /** The URLs collected by a traversal of `graph`, node by node. */
  function ScriptUrls(graph: DependencyGraph, condition: Option<Node -> bool>): set<string>
  {
    if graph == [] then {}
    else
      var node := graph[|graph| - 1];
      ScriptUrls(graph[..|graph| - 1], condition)
        + (if Contributes(node, condition) then {node.record.url} else {})
  }

  /** `getScriptUrls`: a traversal that adds the URL of every matching script request. */
  method GetScriptUrls(graph: DependencyGraph, condition: Option<Node -> bool>)
    returns (scriptUrls: set<string>)
    ensures scriptUrls == ScriptUrls(graph, condition)
  {
    scriptUrls := {};
    for i := 0 to |graph|
      invariant scriptUrls == ScriptUrls(graph[..i], condition)
    {
      assert graph[..i + 1][..i] == graph[..i];
      var node := graph[i];
      if node.CpuNode? {
        continue;
      }
      if node.record.resourceType != Script {
        continue;
      }
      if condition.Some? && !condition.value(node) {
        continue;
      }
      scriptUrls := scriptUrls + {node.record.url};
    }
    assert graph[..|graph|] == graph;
  }

  /**
   * A URL is collected exactly when some non-CPU script node carrying it passes
   * the condition; CPU nodes never contribute and duplicates collapse.
   */
  lemma {:induction false} ScriptUrlsMembership(graph: DependencyGraph, condition: Option<Node -> bool>, url: string)
    ensures url in ScriptUrls(graph, condition) <==>
      exists k :: 0 <= k < |graph| && Contributes(graph[k], condition) && graph[k].record.url == url
  {
    if graph != [] {
      var prefix := graph[..|graph| - 1];
      ScriptUrlsMembership(prefix, condition, url);
      if url in ScriptUrls(prefix, condition) {
        var k :| 0 <= k < |prefix| && Contributes(prefix[k], condition) && prefix[k].record.url == url;
        assert graph[k] == prefix[k];
      }
      if exists k :: 0 <= k < |graph| && Contributes(graph[k], condition) && graph[k].record.url == url {
        var k :| 0 <= k < |graph| && Contributes(graph[k], condition) && graph[k].record.url == url;
        if k < |prefix| {
          assert prefix[k] == graph[k];
        }
      }
    }
  }

  /** Adding a condition can only remove URLs. */
  lemma {:induction false} ScriptUrlsConditionMonotone(graph: DependencyGraph, condition: Node -> bool)
    ensures ScriptUrls(graph, Some(condition)) <= ScriptUrls(graph, None)
  {
    if graph != [] {
      ScriptUrlsConditionMonotone(graph[..|graph| - 1], condition);
    }
  }

  /** The result is a set: the order in which the traversal visits nodes does not matter. */
  lemma ScriptUrlsOrderIrrelevant(graph: DependencyGraph, other: DependencyGraph, condition: Option<Node -> bool>)
    requires multiset(graph) == multiset(other)
    ensures ScriptUrls(graph, condition) == ScriptUrls(other, condition)
  {
    forall url | url in ScriptUrls(graph, condition)
      ensures url in ScriptUrls(other, condition)
    {
      SameMembersSameUrls(graph, other, condition, url);
    }
    forall url | url in ScriptUrls(other, condition)
      ensures url in ScriptUrls(graph, condition)
    {
      SameMembersSameUrls(other, graph, condition, url);
    }
  }

  lemma SameMembersSameUrls(graph: DependencyGraph, other: DependencyGraph, condition: Option<Node -> bool>, url: string)
    requires multiset(graph) == multiset(other)
    requires url in ScriptUrls(graph, condition)
    ensures url in ScriptUrls(other, condition)
  {
    ScriptUrlsMembership(graph, condition, url);
    ScriptUrlsMembership(other, condition, url);
    var k :| 0 <= k < |graph| && Contributes(graph[k], condition) && graph[k].record.url == url;
    assert graph[k] in multiset(other);
    var j :| 0 <= j < |other| && other[j] == graph[k];
  }

  /**
   * A CPU task, a script loaded twice and a document: only the script's URL, once;
   * and nothing under a condition that rejects that URL.
   */
  lemma ScriptUrlsExample(rejectsAJs: Node -> bool)
    requires forall node: Node :: node.NetworkNode? && node.record.url == "a.js" ==> !rejectsAJs(node)
    ensures
      var graph := [ CpuNode("0"), NetworkNode("1", NetworkRecord("a.js", Script)),
                     NetworkNode("2", NetworkRecord("a.js", Script)), NetworkNode("3", NetworkRecord("x.html", Document)) ];
      && ScriptUrls(graph, None) == {"a.js"}
      && ScriptUrls(graph, Some(rejectsAJs)) == {}
  {
    var graph := [ CpuNode("0"), NetworkNode("1", NetworkRecord("a.js", Script)),
                   NetworkNode("2", NetworkRecord("a.js", Script)), NetworkNode("3", NetworkRecord("x.html", Document)) ];
    var g1, g2, g3 := graph[..1], graph[..2], graph[..3];
    assert g1[..0] == [] && g2[..1] == g1 && g3[..2] == g2 && graph[..3] == g3;
    assert g1 == [CpuNode("0")];
    assert ScriptUrls(g1, Some(rejectsAJs)) == ScriptUrls(g1[..0], Some(rejectsAJs)) + {};
    assert ScriptUrls(g1, None) == {} && ScriptUrls(g1, Some(rejectsAJs)) == {};
    assert ScriptUrls(g2, None) == {"a.js"} && ScriptUrls(g2, Some(rejectsAJs)) == {};
    assert ScriptUrls(g3, None) == {"a.js"} && ScriptUrls(g3, Some(rejectsAJs)) == {};
  }

  // ---------------------------------------------------------------------------
  // Simulation and the per-metric extension points
  // ---------------------------------------------------------------------------

  /** The options of one simulation; `simulationLabel` is the source's `label`, a Dafny keyword. */
  datatype SimulateOptions = SimulateOptions(simulationLabel: string, flexibleOrdering: Option<bool>)

  /** A simulation result: its total time and the per-node timings it carries along. */
  datatype SimulationResult = SimulationResult(timeInMs: real, nodeTimings: map<string, real>)

  /** A load simulator: its configured round-trip time and its (deterministic) simulation. */
  datatype Simulator = Simulator(rtt: real, simulate: (DependencyGraph, SimulateOptions) -> SimulationResult)

  datatype MetricCoefficients = MetricCoefficients(intercept: real, optimistic: real, pessimistic: real)

  /** Navigation timing marks; this core only hands them to the graph builders. */
  datatype ProcessedNavigation = ProcessedNavigation(timestamps: map<string, real>)

  datatype Trace = Trace(traceEvents: seq<string>)

  datatype ProcessedTrace = ProcessedTrace(mainThreadEvents: seq<string>)

  /** The result of one Lantern metric computation. */
  datatype LanternMetricResult = LanternMetricResult(
    timing: real,
    optimisticEstimate: SimulationResult,
    pessimisticEstimate: SimulationResult,
    optimisticGraph: DependencyGraph,
    pessimisticGraph: DependencyGraph)

  /** The caller-supplied extras: everything of `Extras` except `optimistic`. */
  datatype SideInputs = SideInputs(
    fcpResult: Option<LanternMetricResult>,
    fmpResult: Option<LanternMetricResult>,
    interactiveResult: Option<LanternMetricResult>,
    speedline: Option<real>)

  const NoSideInputs := SideInputs(None, None, None, None)

  datatype Extras = Extras(optimistic: bool, side: SideInputs)

  /**
   * A concrete Lantern metric: its class name and its overrides of the static
   * members. `None` stands for the inherited base-class member. A graph builder
   * override may itself throw.
   */
  datatype LanternMetricClass = LanternMetricClass(
    name: string,
    coefficients: Option<MetricCoefficients>,
    scaledCoefficients: Option<real -> MetricCoefficients>,
    optimisticGraph: Option<(DependencyGraph, ProcessedNavigation) -> Result<DependencyGraph, MetricError>>,
    pessimisticGraph: Option<(DependencyGraph, ProcessedNavigation) -> Result<DependencyGraph, MetricError>>,
    estimateFromSimulation: Option<(SimulationResult, Extras) -> SimulationResult>)

  /**
   * The errors this core throws itself. The upstream artifacts and the graph
   * builder overrides may fail with any of them; their errors are not modelled
   * further.
   */
  datatype MetricError =
    | NotNavigation
    | CoefficientsUnimplemented
    | OptimisticGraphUnimplemented
    | PessimisticGraphUnimplemented

  /** `COEFFICIENTS`: the base class throws. */
  function Coefficients(metric: LanternMetricClass): (r: Result<MetricCoefficients, MetricError>)
    ensures r.Success? <==> metric.coefficients.Some?
    ensures r.Failure? ==> r.error == CoefficientsUnimplemented
  {
    match metric.coefficients
    case Some(c) => Success(c)
    case None => Failure(CoefficientsUnimplemented)
  }

  /** `getScaledCoefficients`: the base class returns `COEFFICIENTS` whatever the RTT. */
  function GetScaledCoefficients(metric: LanternMetricClass, rttMs: real): (r: Result<MetricCoefficients, MetricError>)
    ensures metric.scaledCoefficients.None? ==> r == Coefficients(metric)
    ensures r.Failure? ==> metric.scaledCoefficients.None? && metric.coefficients.None?
  {
    match metric.scaledCoefficients
    case Some(scale) => Success(scale(rttMs))
    case None => Coefficients(metric)
  }

  /** Without an override the coefficients do not depend on the round-trip time. */
  lemma DefaultCoefficientsIgnoreRtt(metric: LanternMetricClass, rtt1: real, rtt2: real)
    requires metric.scaledCoefficients.None?
    ensures GetScaledCoefficients(metric, rtt1) == GetScaledCoefficients(metric, rtt2)
  {
  }

  /** `getOptimisticGraph`: the base class throws; an override's result, or its throw, is the result. */
  function GetOptimisticGraph(metric: LanternMetricClass, graph: DependencyGraph, navigation: ProcessedNavigation)
    : (r: Result<DependencyGraph, MetricError>)
    ensures metric.optimisticGraph.None? ==> r == Failure(OptimisticGraphUnimplemented)
    ensures metric.optimisticGraph.Some? ==> r == metric.optimisticGraph.value(graph, navigation)
    ensures r.Success? ==> metric.optimisticGraph.Some?
  {
    match metric.optimisticGraph
    case Some(build) => build(graph, navigation)
    case None => Failure(OptimisticGraphUnimplemented)
  }

  /** `getPessimisticGraph`: the base class throws; an override's result, or its throw, is the result. */
  function GetPessimisticGraph(metric: LanternMetricClass, graph: DependencyGraph, navigation: ProcessedNavigation)
    : (r: Result<DependencyGraph, MetricError>)
    ensures metric.pessimisticGraph.None? ==> r == Failure(PessimisticGraphUnimplemented)
    ensures metric.pessimisticGraph.Some? ==> r == metric.pessimisticGraph.value(graph, navigation)
    ensures r.Success? ==> metric.pessimisticGraph.Some?
  {
    match metric.pessimisticGraph
    case Some(build) => build(graph, navigation)
    case None => Failure(PessimisticGraphUnimplemented)
  }

  /** `getEstimateFromSimulation`: the base class passes the simulation through. */
  function GetEstimateFromSimulation(metric: LanternMetricClass, simulation: SimulationResult, extras: Extras)
    : (r: SimulationResult)
    ensures metric.estimateFromSimulation.None? ==> r == simulation
  {
    match metric.estimateFromSimulation
    case Some(extract) => extract(simulation, extras)
    case None => simulation
  }

  /** `{...extras, optimistic}`: the caller's extras with the optimistic flag set. */
  function WithOptimistic(extras: Option<SideInputs>, optimistic: bool): (r: Extras)
    ensures r.optimistic == optimistic
    ensures extras.Some? ==> r.side == extras.value
    ensures extras.None? ==> r.side == NoSideInputs
  {
    Extras(optimistic, if extras.Some? then extras.value else NoSideInputs)
  }

  // ---------------------------------------------------------------------------
  // The blend
  // ---------------------------------------------------------------------------

  function Min(a: real, b: real): real
  {
    if a <= b then a else b
  }

  /**
   * The optimistic simulation kept: the strict one only when it is strictly
   * faster, so a tie goes to the flexible one.
   */
  function SelectOptimisticSimulation(strict: SimulationResult, flexible: SimulationResult): (r: SimulationResult)
    ensures r == strict || r == flexible
    ensures r.timeInMs == Min(strict.timeInMs, flexible.timeInMs)
    ensures r == strict <== strict.timeInMs < flexible.timeInMs
    ensures r == flexible <== flexible.timeInMs <= strict.timeInMs
  {
    if strict.timeInMs < flexible.timeInMs then strict else flexible
  }

  /** The damping of a positive intercept for estimates under one second. */
  function InterceptMultiplier(intercept: real, optimisticMs: real): (m: real)
    ensures m <= 1.0
    ensures intercept <= 0.0 ==> m == 1.0
    ensures intercept > 0.0 && optimisticMs >= 1000.0 ==> m == 1.0
    ensures intercept > 0.0 && optimisticMs < 1000.0 ==> m * 1000.0 == optimisticMs
    ensures intercept > 0.0 && optimisticMs >= 0.0 ==> m >= 0.0
  {
    if intercept > 0.0 then Min(1.0, optimisticMs / 1000.0) else 1.0
  }

  /**
   * The blended timing of an optimistic and a pessimistic estimate. A positive
   * intercept contributes between nothing and its full value.
   */
  function BlendTiming(c: MetricCoefficients, optimisticMs: real, pessimisticMs: real): (r: real)
    ensures c.intercept > 0.0 && optimisticMs >= 0.0 ==>
      c.optimistic * optimisticMs + c.pessimistic * pessimisticMs <= r
      <= c.intercept + c.optimistic * optimisticMs + c.pessimistic * pessimisticMs
  {
    var m := InterceptMultiplier(c.intercept, optimisticMs);
    ScaledWithin(c.intercept, m);
    c.intercept * m
      + c.optimistic * optimisticMs
      + c.pessimistic * pessimisticMs
  }

  /** Scaling a positive amount by a factor in [0, 1] keeps it between 0 and itself. */
  lemma ScaledWithin(amount: real, factor: real)
    ensures amount > 0.0 && 0.0 <= factor <= 1.0 ==> 0.0 <= amount * factor <= amount
  {
    if amount > 0.0 && 0.0 <= factor <= 1.0 {
      assert amount * (1.0 - factor) >= 0.0;
    }
  }

  /** At or above one second, and for a non-positive intercept, the blend is the plain linear fit. */
  lemma BlendIsLinearFit(c: MetricCoefficients, optimisticMs: real, pessimisticMs: real)
    requires c.intercept <= 0.0 || optimisticMs >= 1000.0
    ensures BlendTiming(c, optimisticMs, pessimisticMs)
      == c.intercept + c.optimistic * optimisticMs + c.pessimistic * pessimisticMs
  {
  }

  /** Below one second a positive intercept enters in proportion to the optimistic estimate. */
  lemma BlendDampsIntercept(c: MetricCoefficients, optimisticMs: real, pessimisticMs: real)
    requires c.intercept > 0.0 && optimisticMs < 1000.0
    ensures BlendTiming(c, optimisticMs, pessimisticMs)
      == c.intercept * (optimisticMs / 1000.0) + c.optimistic * optimisticMs + c.pessimistic * pessimisticMs
  {
    var m := InterceptMultiplier(c.intercept, optimisticMs);
    assert m == optimisticMs / 1000.0;
  }

  /** An optimistic estimate of 500 ms halves a positive intercept. */
  lemma HalfSecondHalvesIntercept(c: MetricCoefficients, pessimisticMs: real)
    requires c.intercept > 0.0
    ensures BlendTiming(c, 500.0, pessimisticMs)
      == c.intercept * 0.5 + c.optimistic * 500.0 + c.pessimistic * pessimisticMs
  {
    BlendDampsIntercept(c, 500.0, pessimisticMs);
  }

  /** 800 ms optimistic, 2000 ms pessimistic, coefficients {300, 0.5, 0.3}: 240 + 400 + 600. */
  lemma BlendExample()
    ensures BlendTiming(MetricCoefficients(300.0, 0.5, 0.3), 800.0, 2000.0) == 1240.0
  {
    BlendDampsIntercept(MetricCoefficients(300.0, 0.5, 0.3), 800.0, 2000.0);
  }

  // ---------------------------------------------------------------------------
  // computeMetricWithGraphs and compute_
  // ---------------------------------------------------------------------------

  datatype GatherContext = GatherContext(gatherMode: string)

  /** The inputs of a metric computation this core reads. */
  datatype MetricComputationData = MetricComputationData(
    gatherContext: Option<GatherContext>,
    trace: Trace,
    simulator: Option<Simulator>)

  /** The memoized upstream computed artifacts, each of which may fail. */
  datatype Upstream = Upstream(
    pageDependencyGraph: MetricComputationData -> Result<DependencyGraph, MetricError>,
    processedTrace: Trace -> Result<ProcessedTrace, MetricError>,
    processedNavigation: ProcessedTrace -> Result<ProcessedNavigation, MetricError>,
    loadSimulator: MetricComputationData -> Result<Simulator, MetricError>)

  /** The gather context, defaulting to a navigation when the data carries none. */
  function EffectiveGatherContext(data: MetricComputationData): (c: GatherContext)
    ensures data.gatherContext.None? ==> c.gatherMode == "navigation"
    ensures data.gatherContext.Some? ==> c == data.gatherContext.value
  {
    if data.gatherContext.Some? then data.gatherContext.value else GatherContext("navigation")
  }

  /** Only a navigation can be estimated; data without a gather context counts as one. */
  function IsNavigation(data: MetricComputationData): (r: bool)
    ensures r <==> data.gatherContext.None? || data.gatherContext.value.gatherMode == "navigation"
  {
    EffectiveGatherContext(data).gatherMode == "navigation"
  }

  /** `String.prototype.replace` with a string pattern: removes the first occurrence of `pattern`. */
  function RemoveFirst(s: string, pattern: string): (r: string)
    ensures |r| <= |s|
    ensures pattern <= s ==> r == s[|pattern|..]
    decreases |s|
  {
    if |s| < |pattern| then s
    else if s[..|pattern|] == pattern then s[|pattern|..]
    else [s[0]] + RemoveFirst(s[1..], pattern)
  }

  /** Whether `pattern` occurs in `s` at position `i`. */
  predicate OccursAt(s: string, pattern: string, i: nat)
  {
    i + |pattern| <= |s| && s[i..i + |pattern|] == pattern
  }

  /** A name in which the pattern does not occur is left as it is. */
  lemma {:induction false} RemoveFirstAbsent(s: string, pattern: string)
    requires forall i: nat :: !OccursAt(s, pattern, i)
    ensures RemoveFirst(s, pattern) == s
    decreases |s|
  {
    if |s| >= |pattern| {
      assert !OccursAt(s, pattern, 0);
      forall i: nat
        ensures !OccursAt(s[1..], pattern, i)
      {
        assert !OccursAt(s, pattern, i + 1);
        if i + |pattern| <= |s[1..]| {
          assert s[1..][i..i + |pattern|] == s[i + 1..i + 1 + |pattern|];
        }
      }
      RemoveFirstAbsent(s[1..], pattern);
      assert [s[0]] + s[1..] == s;
    }
  }

  /** Otherwise the first occurrence is cut out, wherever it is. */
  lemma {:induction false} RemoveFirstAt(s: string, pattern: string, i: nat)
    requires OccursAt(s, pattern, i)
    requires forall j: nat :: j < i ==> !OccursAt(s, pattern, j)
    ensures RemoveFirst(s, pattern) == s[..i] + s[i + |pattern|..]
    decreases i
  {
    if i > 0 {
      assert !OccursAt(s, pattern, 0);
      var rest := s[1..];
      assert rest[i - 1..i - 1 + |pattern|] == s[i..i + |pattern|];
      forall j: nat | j < i - 1
        ensures !OccursAt(rest, pattern, j)
      {
        assert !OccursAt(s, pattern, j + 1);
        assert rest[j..j + |pattern|] == s[j + 1..j + 1 + |pattern|];
      }
      RemoveFirstAt(rest, pattern, i - 1);
      assert rest[..i - 1] == s[1..i] && rest[i - 1 + |pattern|..] == s[i + |pattern|..];
      assert [s[0]] + s[1..i] == s[..i];
    }
  }

  /** The metric name used in simulation labels: the class name without "Lantern". */
  function MetricName(metric: LanternMetricClass): (r: string)
    ensures "Lantern" <= metric.name ==> r == metric.name[|"Lantern"|..]
    ensures |r| <= |metric.name|
  {
    RemoveFirst(metric.name, "Lantern")
  }

  /**
   * The options of one simulation: a label made of the run's prefix and the
   * metric name, and `flexibleOrdering: true` only for the flexible run (the
   * other two leave the field out).
   */
  function SimulationOptions(prefix: string, metricName: string, flexible: bool): (r: SimulateOptions)
    ensures |r.simulationLabel| == |prefix| + |metricName|
    ensures r.simulationLabel[..|prefix|] == prefix && r.simulationLabel[|prefix|..] == metricName
    ensures flexible ==> r.flexibleOrdering == Some(true)
    ensures !flexible ==> r.flexibleOrdering.None?
  {
    SimulateOptions(prefix + metricName, if flexible then Some(true) else None)
  }

  function OptimisticOptions(metricName: string): SimulateOptions
  {
    SimulationOptions("optimistic", metricName, false)
  }

  function OptimisticFlexOptions(metricName: string): SimulateOptions
  {
    SimulationOptions("optimisticFlex", metricName, true)
  }

  function PessimisticOptions(metricName: string): SimulateOptions
  {
    SimulationOptions("pessimistic", metricName, false)
  }

  /** The three simulations of one metric carry three different labels. */
  lemma SimulationLabelsDistinct(metricName: string)
    ensures OptimisticOptions(metricName).simulationLabel != OptimisticFlexOptions(metricName).simulationLabel
    ensures OptimisticOptions(metricName).simulationLabel != PessimisticOptions(metricName).simulationLabel
    ensures OptimisticFlexOptions(metricName).simulationLabel != PessimisticOptions(metricName).simulationLabel
  {
  }

  /** The upstream artifacts one computation needs. */
  datatype Inputs = Inputs(graph: DependencyGraph, processedNavigation: ProcessedNavigation, simulator: Simulator)

  /**
   * Requests the dependency graph, the processed trace and navigation, and the
   * simulator (the one in `data` when present), in that order; the first failure
   * is the result.
   */
  function ResolveInputs(data: MetricComputationData, upstream: Upstream): (r: Result<Inputs, MetricError>)
    ensures upstream.pageDependencyGraph(data).Failure? ==> r == Failure(upstream.pageDependencyGraph(data).error)
    ensures upstream.pageDependencyGraph(data).Success? && upstream.processedTrace(data.trace).Failure? ==>
      r == Failure(upstream.processedTrace(data.trace).error)
    ensures (upstream.pageDependencyGraph(data).Success? && upstream.processedTrace(data.trace).Success?
             && upstream.processedNavigation(upstream.processedTrace(data.trace).value).Failure?) ==>
      r == Failure(upstream.processedNavigation(upstream.processedTrace(data.trace).value).error)
    ensures (upstream.pageDependencyGraph(data).Success? && upstream.processedTrace(data.trace).Success?
             && upstream.processedNavigation(upstream.processedTrace(data.trace).value).Success?
             && data.simulator.None? && upstream.loadSimulator(data).Failure?) ==>
      r == Failure(upstream.loadSimulator(data).error)
    ensures r.Success? ==> upstream.pageDependencyGraph(data) == Success(r.value.graph)
    ensures r.Success? ==>
      && upstream.processedTrace(data.trace).Success?
      && r.value.processedNavigation == upstream.processedNavigation(upstream.processedTrace(data.trace).value).value
    ensures data.simulator.None? && r.Success? ==> upstream.loadSimulator(data).Success?
    ensures r.Success? ==>
      r.value.simulator == (if data.simulator.Some? then data.simulator.value else upstream.loadSimulator(data).value)
  {
    var graph :- upstream.pageDependencyGraph(data);
    var processedTrace :- upstream.processedTrace(data.trace);
    var processedNavigation :- upstream.processedNavigation(processedTrace);
    var simulator :- if data.simulator.Some? then Success(data.simulator.value) else upstream.loadSimulator(data);
    Success(Inputs(graph, processedNavigation, simulator))
  }

  /**
   * The synchronous part of `computeMetricWithGraphs`, once the upstream artifacts
   * are resolved: build both graphs, run the three simulations, pick and extract
   * the estimates, and blend them.
   */
  function EstimateWithGraphs(metric: LanternMetricClass, inputs: Inputs, extras: Option<SideInputs>)
    : (r: Result<LanternMetricResult, MetricError>)
    ensures r.Success? <==>
      && GetOptimisticGraph(metric, inputs.graph, inputs.processedNavigation).Success?
      && GetPessimisticGraph(metric, inputs.graph, inputs.processedNavigation).Success?
      && (metric.scaledCoefficients.Some? || metric.coefficients.Some?)
    ensures metric.optimisticGraph.None? ==> r == Failure(OptimisticGraphUnimplemented)
    ensures GetOptimisticGraph(metric, inputs.graph, inputs.processedNavigation).Failure? ==>
      r == Failure(GetOptimisticGraph(metric, inputs.graph, inputs.processedNavigation).error)
    ensures (GetOptimisticGraph(metric, inputs.graph, inputs.processedNavigation).Success?
             && GetPessimisticGraph(metric, inputs.graph, inputs.processedNavigation).Failure?) ==>
      r == Failure(GetPessimisticGraph(metric, inputs.graph, inputs.processedNavigation).error)
    ensures (GetOptimisticGraph(metric, inputs.graph, inputs.processedNavigation).Success?
             && metric.pessimisticGraph.None?) ==> r == Failure(PessimisticGraphUnimplemented)
    ensures (GetOptimisticGraph(metric, inputs.graph, inputs.processedNavigation).Success?
             && GetPessimisticGraph(metric, inputs.graph, inputs.processedNavigation).Success?
             && metric.scaledCoefficients.None? && metric.coefficients.None?) ==> r == Failure(CoefficientsUnimplemented)
    ensures r.Success? ==>
      && r.value.optimisticGraph == GetOptimisticGraph(metric, inputs.graph, inputs.processedNavigation).value
      && r.value.pessimisticGraph == GetPessimisticGraph(metric, inputs.graph, inputs.processedNavigation).value
      && GetScaledCoefficients(metric, inputs.simulator.rtt).Success?
      && r.value.timing == BlendTiming(GetScaledCoefficients(metric, inputs.simulator.rtt).value,
                                       r.value.optimisticEstimate.timeInMs, r.value.pessimisticEstimate.timeInMs)
  {
    var metricName := MetricName(metric);
    var graph, simulator := inputs.graph, inputs.simulator;
    var optimisticGraph :- GetOptimisticGraph(metric, graph, inputs.processedNavigation);
    var pessimisticGraph :- GetPessimisticGraph(metric, graph, inputs.processedNavigation);
    var optimisticSimulation := simulator.simulate(optimisticGraph, OptimisticOptions(metricName));
    var optimisticFlexSimulation := simulator.simulate(optimisticGraph, OptimisticFlexOptions(metricName));
    var pessimisticSimulation := simulator.simulate(pessimisticGraph, PessimisticOptions(metricName));
    var optimisticEstimate := GetEstimateFromSimulation(metric,
      SelectOptimisticSimulation(optimisticSimulation, optimisticFlexSimulation), WithOptimistic(extras, true));
    var pessimisticEstimate := GetEstimateFromSimulation(metric, pessimisticSimulation, WithOptimistic(extras, false));
    var coefficients :- GetScaledCoefficients(metric, simulator.rtt);
    var timing := BlendTiming(coefficients, optimisticEstimate.timeInMs, pessimisticEstimate.timeInMs);
    Success(LanternMetricResult(timing, optimisticEstimate, pessimisticEstimate, optimisticGraph, pessimisticGraph))
  }

  /** `computeMetricWithGraphs`: only navigations can be estimated, and that is checked first. */
  function ComputeMetricWithGraphs(metric: LanternMetricClass, data: MetricComputationData, upstream: Upstream,
                                   extras: Option<SideInputs>): (r: Result<LanternMetricResult, MetricError>)
    ensures !IsNavigation(data) ==> r == Failure(NotNavigation)
    ensures IsNavigation(data) && upstream.pageDependencyGraph(data).Failure? ==>
      r == Failure(upstream.pageDependencyGraph(data).error)
    ensures IsNavigation(data) && ResolveInputs(data, upstream).Failure? ==>
      r == Failure(ResolveInputs(data, upstream).error)
    ensures r.Success? ==> IsNavigation(data) && ResolveInputs(data, upstream).Success?
  {
    if !IsNavigation(data) then Failure(NotNavigation)
    else
      var inputs :- ResolveInputs(data, upstream);
      EstimateWithGraphs(metric, inputs, extras)
  }

  /** `compute_`: the computation without extras. */
  function Compute(metric: LanternMetricClass, data: MetricComputationData, upstream: Upstream)
    : (r: Result<LanternMetricResult, MetricError>)
    ensures r == ComputeMetricWithGraphs(metric, data, upstream, None)
  {
    ComputeMetricWithGraphs(metric, data, upstream, None)
  }

  /** A non-navigation is rejected whatever the upstream collaborators would have done. */
  lemma RejectionPrecedesUpstream(metric: LanternMetricClass, data: MetricComputationData,
                                  upstream1: Upstream, upstream2: Upstream, extras: Option<SideInputs>)
    requires !IsNavigation(data)
    ensures ComputeMetricWithGraphs(metric, data, upstream1, extras)
         == ComputeMetricWithGraphs(metric, data, upstream2, extras)
         == Failure(NotNavigation)
  {
  }

  /**
   * The optimistic estimate is extracted, with `optimistic: true`, from the faster
   * optimistic simulation (the flexible one on a tie); the pessimistic estimate,
   * with `optimistic: false`, from the pessimistic simulation; both with the
   * caller's extras unchanged.
   */
  lemma EstimatesFromSimulations(metric: LanternMetricClass, inputs: Inputs, extras: Option<SideInputs>)
    requires EstimateWithGraphs(metric, inputs, extras).Success?
    ensures
      var r := EstimateWithGraphs(metric, inputs, extras).value;
      var name := MetricName(metric);
      var strict := inputs.simulator.simulate(r.optimisticGraph, OptimisticOptions(name));
      var flexible := inputs.simulator.simulate(r.optimisticGraph, OptimisticFlexOptions(name));
      var pessimistic := inputs.simulator.simulate(r.pessimisticGraph, PessimisticOptions(name));
      && r.optimisticEstimate == GetEstimateFromSimulation(metric, SelectOptimisticSimulation(strict, flexible),
                                                           Extras(true, if extras.Some? then extras.value else NoSideInputs))
      && r.pessimisticEstimate == GetEstimateFromSimulation(metric, pessimistic,
                                                            Extras(false, if extras.Some? then extras.value else NoSideInputs))
  {
  }

  /**
   * With the default extraction, the optimistic estimate's time is the smaller of
   * the two optimistic simulations and the pessimistic estimate is the
   * pessimistic simulation itself.
   */
  lemma DefaultEstimatesAreSimulations(metric: LanternMetricClass, inputs: Inputs, extras: Option<SideInputs>)
    requires metric.estimateFromSimulation.None?
    requires EstimateWithGraphs(metric, inputs, extras).Success?
    ensures
      var r := EstimateWithGraphs(metric, inputs, extras).value;
      var name := MetricName(metric);
      var strict := inputs.simulator.simulate(r.optimisticGraph, OptimisticOptions(name));
      var flexible := inputs.simulator.simulate(r.optimisticGraph, OptimisticFlexOptions(name));
      && r.optimisticEstimate.timeInMs == Min(strict.timeInMs, flexible.timeInMs)
      && (strict.timeInMs == flexible.timeInMs ==> r.optimisticEstimate == flexible)
      && r.pessimisticEstimate == inputs.simulator.simulate(r.pessimisticGraph, PessimisticOptions(name))
  {
    EstimatesFromSimulations(metric, inputs, extras);
  }

  /** On success, the whole computation is the estimate over the resolved inputs. */
  lemma ComputeIsEstimateOverInputs(metric: LanternMetricClass, data: MetricComputationData, upstream: Upstream,
                                    extras: Option<SideInputs>)
    requires IsNavigation(data) && ResolveInputs(data, upstream).Success?
    ensures ComputeMetricWithGraphs(metric, data, upstream, extras)
         == EstimateWithGraphs(metric, ResolveInputs(data, upstream).value, extras)
  {
  }
}
