/**
 * The Lighthouse extension of the Puppeteer Replay stringifier: it turns a
 * recorded user flow into a script that runs the flow under Lighthouse, with each
 * navigation measured as a navigation and each run of other user actions
 * measured as one timespan.
 *
 * The code the Puppeteer base class emits for a call is represented by one
 * marker line per call. Every line the extension itself emits is a JavaScript
 * statement starting with `a`, `c` or `f`, and every marker starts with `/`,
 * so the two never coincide.
 */
module StringifyExtension {
  import opened Wrappers

  // ---------------------------------------------------------------------------
  // User flows
  // ---------------------------------------------------------------------------

  datatype AssertedEvent = AssertedEvent(eventType: string, url: string, title: string)

  /**
   * A recorded step: its `type`, the `isMobile` flag a `setViewport` step carries
   * (ignored by every other kind of step) and its optional asserted events.
   */
  datatype Step = Step(stepType: string, isMobile: bool, assertedEvents: Option<seq<AssertedEvent>>)

  datatype UserFlow = UserFlow(title: string, steps: seq<Step>)

  /** `events.some(event => event.type === 'navigation')`. */
  function SomeNavigationEvent(events: seq<AssertedEvent>): (r: bool)
    ensures r <==> exists i :: 0 <= i < |events| && events[i].eventType == "navigation"
  {
    if events == [] then false
    else events[0].eventType == "navigation" || SomeNavigationEvent(events[1..])
  }

  /** A step is a navigation when it navigates or asserts that a navigation happened. */
  function IsNavigationStep(step: Step): (r: bool)
    ensures r <==>
      || step.stepType == "navigate"
      || (step.assertedEvents.Some?
          && exists i :: 0 <= i < |step.assertedEvents.value| && step.assertedEvents.value[i].eventType == "navigation")
  {
    step.stepType == "navigate" || (step.assertedEvents.Some? && SomeNavigationEvent(step.assertedEvents.value))
  }

  /**
   * The `isMobile` of the last `setViewport` step; true when there is none, so a
   * desktop flow is always one some `setViewport` step asked for.
   */
  function IsMobile(steps: seq<Step>): (r: bool)
    ensures !r ==> exists k :: 0 <= k < |steps| && steps[k].stepType == "setViewport" && !steps[k].isMobile
  {
    if steps == [] then true
    else if steps[|steps| - 1].stepType == "setViewport" then steps[|steps| - 1].isMobile
    else IsMobile(steps[..|steps| - 1])
  }

  lemma {:induction false} IsMobileWithoutViewport(steps: seq<Step>)
    requires forall k :: 0 <= k < |steps| ==> steps[k].stepType != "setViewport"
    ensures IsMobile(steps)
  {
    if steps != [] {
      IsMobileWithoutViewport(steps[..|steps| - 1]);
    }
  }

  lemma {:induction false} IsMobileIsLastViewport(steps: seq<Step>, k: nat)
    requires k < |steps| && steps[k].stepType == "setViewport"
    requires forall j :: k < j < |steps| ==> steps[j].stepType != "setViewport"
    ensures IsMobile(steps) == steps[k].isMobile
  {
    if k < |steps| - 1 {
      IsMobileIsLastViewport(steps[..|steps| - 1], k);
    }
  }

  // ---------------------------------------------------------------------------
  // Emitted lines
  // ---------------------------------------------------------------------------

  /** A `const` declaration of the generated script. */
  function ConstDeclaration(name: string, value: string): string
  {
    "const " + name + " = " + value
  }

  /** A call of a method of the Lighthouse user flow, `await lhFlow.<method>();`. */
  function FlowCall(flowMethod: string): string
  {
    "await lhFlow." + flowMethod + "();"
  }

  const FsRequireLine := ConstDeclaration("fs", "require('fs');")
  const ConfigContextJson := "{\"settingsOverrides\":{\"screenEmulation\":{\"disabled\":true}}}"
  const ConfigContextLine := ConstDeclaration("configContext", ConfigContextJson)
  const MobileConfigLine := ConstDeclaration("config", "undefined;")
  const DesktopConfigLine :=
    ConstDeclaration("config", "(await import('lighthouse/lighthouse-core/config/desktop-config.js')).default;")
  const LhApiLine := ConstDeclaration("lhApi", "await import('lighthouse/lighthouse-core/fraggle-rock/api.js');")
  const StartTimespanLine := FlowCall("startTimespan")
  const EndTimespanLine := FlowCall("endTimespan")
  const StartNavigationLine := FlowCall("startNavigation")
  const EndNavigationLine := FlowCall("endNavigation")
  const GenerateReportLine := ConstDeclaration("lhFlowReport", "await lhFlow.generateReport();")
  /** Kept as two literals: the solver reads the first character off the short one. */
  const WriteReportLine := "fs." + "writeFileSync(__dirname + '/flow.report.html', lhFlowReport)"

  /** `JSON.stringify` of a title: the title in double quotes. */
  function JsonString(s: string): string
  {
    "\"" + s + "\""
  }

  function StartFlowLine(title: string): string
  {
    ConstDeclaration("lhFlow", "await lhApi.startFlow(page, {name: " + JsonString(title) + ", config, configContext});")
  }

  function ConfigLine(isMobile: bool): string
  {
    if isMobile then MobileConfigLine else DesktopConfigLine
  }

  /** The marker for the code the base class emits in `beforeAllSteps`. */
  function DelegatedBeforeAllSteps(flow: UserFlow): string
  {
    "// puppeteer beforeAllSteps: " + flow.title
  }

  /** The marker for the code the base class emits for one step. */
  function DelegatedStep(step: Step): string
  {
    "// puppeteer step: " + step.stepType
  }

  /** The marker for the code the base class emits in `afterAllSteps`. */
  const DelegatedAfterAllSteps := "// puppeteer afterAllSteps"

  /** The config line is `undefined` exactly for a mobile flow. */
  lemma ConfigLineIsUndefinedIffMobile(isMobile: bool)
    ensures ConfigLine(isMobile) == MobileConfigLine <==> isMobile
  {
    if !isMobile {
      assert |DesktopConfigLine| != |MobileConfigLine|;
    }
  }

  // ---------------------------------------------------------------------------
  // Timespan bracketing of a buffer
  // ---------------------------------------------------------------------------

  /** A line that opens or closes a measurement of the flow. */
  predicate IsFlowMarker(line: string)
  {
    line == StartTimespanLine || line == EndTimespanLine || line == StartNavigationLine
  }

  /** Whether the last timespan marker in `lines` is a `startTimespan`. */
  function TimespanOpen(lines: seq<string>): bool
  {
    if lines == [] then false
    else if lines[|lines| - 1] == StartTimespanLine then true
    else if lines[|lines| - 1] == EndTimespanLine then false
    else TimespanOpen(lines[..|lines| - 1])
  }

  /**
   * `startTimespan` and `endTimespan` strictly alternate, beginning with a start,
   * and no `startNavigation` appears while a timespan is open.
   */
  predicate WellBracketed(lines: seq<string>)
  {
    if lines == [] then true
    else
      var prefix, last := lines[..|lines| - 1], lines[|lines| - 1];
      && WellBracketed(prefix)
      && (last == StartTimespanLine ==> !TimespanOpen(prefix))
      && (last == EndTimespanLine ==> TimespanOpen(prefix))
      && (last == StartNavigationLine ==> !TimespanOpen(prefix))
  }

  lemma Snoc(lines: seq<string>, line: string)
    ensures (lines + [line])[..|lines|] == lines
    ensures (lines + [line])[|lines|] == line
  {
  }

  /** Appending lines that are not flow markers changes neither bracketing nor the open timespan. */
  lemma {:induction false} AppendNeutral(lines: seq<string>, more: seq<string>)
    requires forall k :: 0 <= k < |more| ==> !IsFlowMarker(more[k])
    ensures TimespanOpen(lines + more) == TimespanOpen(lines)
    ensures WellBracketed(lines + more) == WellBracketed(lines)
    decreases |more|
  {
    if more != [] {
      var init, last := more[..|more| - 1], more[|more| - 1];
      assert forall k :: 0 <= k < |init| ==> init[k] == more[k];
      AppendNeutral(lines, init);
      var grown := lines + init;
      assert lines + more == grown + [last];
      Snoc(grown, last);
      assert !IsFlowMarker(last);
      assert TimespanOpen(grown + [last]) == TimespanOpen(grown);
      assert WellBracketed(grown + [last]) == WellBracketed(grown);
    } else {
      assert lines + more == lines;
    }
  }

  /** Only the three flow calls are markers: declarations, other flow calls and delegated code are not. */
  lemma ConstDeclarationIsNeutral(name: string, value: string)
    ensures !IsFlowMarker(ConstDeclaration(name, value))
  {
    assert ConstDeclaration(name, value)[0] == 'c';
    FlowCallStartsWithAwait("startTimespan");
    FlowCallStartsWithAwait("endTimespan");
    FlowCallStartsWithAwait("startNavigation");
  }

  lemma FlowCallStartsWithAwait(flowMethod: string)
    ensures FlowCall(flowMethod)[0] == 'a'
  {
  }

  /** Different flow methods give different lines. */
  lemma FlowCallInjective(m1: string, m2: string)
    requires FlowCall(m1) == FlowCall(m2)
    ensures m1 == m2
  {
    var n := |"await lhFlow."|;
    assert FlowCall(m1)[n..n + |m1|] == m1;
    assert FlowCall(m2)[n..n + |m2|] == m2;
  }

  lemma EndNavigationIsNeutral()
    ensures !IsFlowMarker(EndNavigationLine)
  {
    if EndNavigationLine == StartTimespanLine {
      FlowCallInjective("endNavigation", "startTimespan");
    }
    if EndNavigationLine == EndTimespanLine {
      FlowCallInjective("endNavigation", "endTimespan");
    }
    if EndNavigationLine == StartNavigationLine {
      FlowCallInjective("endNavigation", "startNavigation");
    }
  }

  /** The delegated markers start with `/`, the flow markers with `a`. */
  lemma DelegatedBeforeAllStepsIsNeutral(flow: UserFlow)
    ensures !IsFlowMarker(DelegatedBeforeAllSteps(flow))
  {
    assert DelegatedBeforeAllSteps(flow)[0] == '/';
    FlowCallStartsWithAwait("startTimespan");
    FlowCallStartsWithAwait("endTimespan");
    FlowCallStartsWithAwait("startNavigation");
  }

  lemma DelegatedStepIsNeutral(step: Step)
    ensures !IsFlowMarker(DelegatedStep(step))
  {
    assert DelegatedStep(step)[0] == '/';
    FlowCallStartsWithAwait("startTimespan");
    FlowCallStartsWithAwait("endTimespan");
    FlowCallStartsWithAwait("startNavigation");
  }

  lemma DelegatedAfterAllStepsIsNeutral()
    ensures !IsFlowMarker(DelegatedAfterAllSteps)
  {
    assert DelegatedAfterAllSteps[0] == '/';
    FlowCallStartsWithAwait("startTimespan");
    FlowCallStartsWithAwait("endTimespan");
    FlowCallStartsWithAwait("startNavigation");
  }

  /** No line of `beforeAllSteps` is a flow marker. */
  lemma BeforeAllStepsLinesAreNeutral(flow: UserFlow)
    ensures forall k :: 0 <= k < |BeforeAllStepsLines(flow)| ==> !IsFlowMarker(BeforeAllStepsLines(flow)[k])
  {
    DelegatedBeforeAllStepsIsNeutral(flow);
    ConstDeclarationIsNeutral("fs", "require('fs');");
    ConstDeclarationIsNeutral("configContext", ConfigContextJson);
    ConstDeclarationIsNeutral("config", "undefined;");
    ConstDeclarationIsNeutral("config",
      "(await import('lighthouse/lighthouse-core/config/desktop-config.js')).default;");
    ConstDeclarationIsNeutral("lhApi", "await import('lighthouse/lighthouse-core/fraggle-rock/api.js');");
    ConstDeclarationIsNeutral("lhFlow",
      "await lhApi.startFlow(page, {name: " + JsonString(flow.title) + ", config, configContext});");
  }

  // ---------------------------------------------------------------------------
  // What each call emits
  // ---------------------------------------------------------------------------

  function BeforeAllStepsLines(flow: UserFlow): seq<string>
  {
    [ FsRequireLine, DelegatedBeforeAllSteps(flow), ConfigContextLine, ConfigLine(IsMobile(flow.steps)),
      LhApiLine, StartFlowLine(flow.title) ]
  }

  /** The lines `stringifyStep` emits for `step` when a timespan is (or is not) open. */
  function StepLines(open: bool, step: Step): seq<string>
  {
    if step.stepType == "setViewport" then [DelegatedStep(step)]
    else if IsNavigationStep(step) then
      (if open then [EndTimespanLine] else []) + [StartNavigationLine, DelegatedStep(step), EndNavigationLine]
    else
      (if open then [] else [StartTimespanLine]) + [DelegatedStep(step)]
  }

  /** Whether a timespan is open after `stringifyStep(step)`. */
  function OpenAfterStep(open: bool, step: Step): bool
  {
    if step.stepType == "setViewport" then open
    else !IsNavigationStep(step)
  }

  function AfterAllStepsLines(open: bool): seq<string>
  {
    (if open then [EndTimespanLine] else []) + [GenerateReportLine, WriteReportLine, DelegatedAfterAllSteps]
  }

  /** The lines emitted for a run of steps, starting with the given timespan state. */
  function StepsLines(open: bool, steps: seq<Step>): seq<string>
  {
    if steps == [] then []
    else
      var init := steps[..|steps| - 1];
      StepsLines(open, init) + StepLines(StepsOpen(open, init), steps[|steps| - 1])
  }

  function StepsOpen(open: bool, steps: seq<Step>): bool
  {
    if steps == [] then open
    else OpenAfterStep(StepsOpen(open, steps[..|steps| - 1]), steps[|steps| - 1])
  }

  /** The delegated marker lines of a run of steps. */
  function DelegatedSteps(steps: seq<Step>): seq<string>
  {
    if steps == [] then [] else DelegatedSteps(steps[..|steps| - 1]) + [DelegatedStep(steps[|steps| - 1])]
  }

  /** The whole script: `beforeAllSteps`, `stringifyStep` for each step, `afterAllSteps`. */
  function Script(flow: UserFlow): seq<string>
  {
    BeforeAllStepsLines(flow) + StepsLines(false, flow.steps) + AfterAllStepsLines(StepsOpen(false, flow.steps))
  }

  // ---------------------------------------------------------------------------
  // Bracketing properties
  // ---------------------------------------------------------------------------

  lemma FlowMarkersDistinct()
    ensures StartTimespanLine != EndTimespanLine
    ensures StartNavigationLine != StartTimespanLine && StartNavigationLine != EndTimespanLine
  {
    if StartTimespanLine == EndTimespanLine {
      FlowCallInjective("startTimespan", "endTimespan");
    }
    if StartNavigationLine == StartTimespanLine {
      FlowCallInjective("startNavigation", "startTimespan");
    }
    if StartNavigationLine == EndTimespanLine {
      FlowCallInjective("startNavigation", "endTimespan");
    }
  }

  /** Appending `endTimespan` to a buffer with an open timespan closes it. */
  lemma CloseTimespan(lines: seq<string>)
    requires WellBracketed(lines) && TimespanOpen(lines)
    ensures WellBracketed(lines + [EndTimespanLine]) && !TimespanOpen(lines + [EndTimespanLine])
  {
    FlowMarkersDistinct();
    Snoc(lines, EndTimespanLine);
  }

  /** Appending `startTimespan` to a buffer with no open timespan opens one. */
  lemma OpenTimespan(lines: seq<string>)
    requires WellBracketed(lines) && !TimespanOpen(lines)
    ensures WellBracketed(lines + [StartTimespanLine]) && TimespanOpen(lines + [StartTimespanLine])
  {
    FlowMarkersDistinct();
    Snoc(lines, StartTimespanLine);
  }

  /** Appending `startNavigation` to a buffer with no open timespan keeps it well bracketed. */
  lemma StartNavigation(lines: seq<string>)
    requires WellBracketed(lines) && !TimespanOpen(lines)
    ensures WellBracketed(lines + [StartNavigationLine]) && !TimespanOpen(lines + [StartNavigationLine])
  {
    FlowMarkersDistinct();
    Snoc(lines, StartNavigationLine);
  }

  /** A navigation's lines keep a buffer well bracketed and leave no timespan open. */
  lemma NavigationKeepsBracketing(lines: seq<string>, open: bool, delegated: string)
    requires WellBracketed(lines) && open == TimespanOpen(lines)
    requires !IsFlowMarker(delegated)
    ensures
      var emitted := (if open then [EndTimespanLine] else []) + [StartNavigationLine, delegated, EndNavigationLine];
      WellBracketed(lines + emitted) && !TimespanOpen(lines + emitted)
  {
    var closed := if open then lines + [EndTimespanLine] else lines;
    if open {
      CloseTimespan(lines);
    }
    StartNavigation(closed);
    var started := closed + [StartNavigationLine];
    EndNavigationIsNeutral();
    AppendNeutral(started, [delegated, EndNavigationLine]);
    assert lines + ((if open then [EndTimespanLine] else []) + [StartNavigationLine, delegated, EndNavigationLine])
        == started + [delegated, EndNavigationLine];
  }

  /** A user action's lines keep a buffer well bracketed and leave a timespan open. */
  lemma ActionKeepsBracketing(lines: seq<string>, open: bool, delegated: string)
    requires WellBracketed(lines) && open == TimespanOpen(lines)
    requires !IsFlowMarker(delegated)
    ensures
      var emitted := (if open then [] else [StartTimespanLine]) + [delegated];
      WellBracketed(lines + emitted) && TimespanOpen(lines + emitted)
  {
    var started := if open then lines else lines + [StartTimespanLine];
    if !open {
      OpenTimespan(lines);
    }
    AppendNeutral(started, [delegated]);
    assert lines + ((if open then [] else [StartTimespanLine]) + [delegated]) == started + [delegated];
  }

  /**
   * One `stringifyStep` keeps the buffer well bracketed and leaves the flag equal
   * to whether the last timespan marker is a start.
   */
  lemma StepKeepsBracketing(lines: seq<string>, open: bool, step: Step)
    requires WellBracketed(lines) && open == TimespanOpen(lines)
    ensures WellBracketed(lines + StepLines(open, step))
    ensures TimespanOpen(lines + StepLines(open, step)) == OpenAfterStep(open, step)
  {
    var delegated := DelegatedStep(step);
    DelegatedStepIsNeutral(step);
    if step.stepType == "setViewport" {
      AppendNeutral(lines, [delegated]);
    } else if IsNavigationStep(step) {
      NavigationKeepsBracketing(lines, open, delegated);
    } else {
      ActionKeepsBracketing(lines, open, delegated);
    }
  }

  /** Running one more step appends that step's lines. */
  lemma StepsSnoc(open: bool, steps: seq<Step>)
    requires steps != []
    ensures
      var init, last := steps[..|steps| - 1], steps[|steps| - 1];
      && StepsLines(open, steps) == StepsLines(open, init) + StepLines(StepsOpen(open, init), last)
      && StepsOpen(open, steps) == OpenAfterStep(StepsOpen(open, init), last)
  {
  }

  lemma Reassociate(lines: seq<string>, first: seq<string>, second: seq<string>)
    ensures lines + (first + second) == (lines + first) + second
  {
  }

  lemma {:induction false} StepsKeepBracketing(lines: seq<string>, open: bool, steps: seq<Step>)
    requires WellBracketed(lines) && open == TimespanOpen(lines)
    ensures WellBracketed(lines + StepsLines(open, steps))
    ensures TimespanOpen(lines + StepsLines(open, steps)) == StepsOpen(open, steps)
    decreases |steps|
  {
    if steps == [] {
      assert lines + [] == lines;
    } else {
      var init, last := steps[..|steps| - 1], steps[|steps| - 1];
      var openBefore := StepsOpen(open, init);
      StepsKeepBracketing(lines, open, init);
      StepKeepsBracketing(lines + StepsLines(open, init), openBefore, last);
      StepsSnoc(open, steps);
      Reassociate(lines, StepsLines(open, init), StepLines(openBefore, last));
    }
  }

  /** `afterAllSteps` closes an open timespan, so the finished buffer has none open. */
  lemma AfterAllStepsCloses(lines: seq<string>, open: bool)
    requires WellBracketed(lines) && open == TimespanOpen(lines)
    ensures WellBracketed(lines + AfterAllStepsLines(open))
    ensures !TimespanOpen(lines + AfterAllStepsLines(open))
  {
    var closed := if open then lines + [EndTimespanLine] else lines;
    if open {
      Snoc(lines, EndTimespanLine);
    }
    var tail := [GenerateReportLine, WriteReportLine, DelegatedAfterAllSteps];
    DelegatedAfterAllStepsIsNeutral();
    ConstDeclarationIsNeutral("lhFlowReport", "await lhFlow.generateReport();");
    assert WriteReportLine[0] == 'f';
    FlowCallStartsWithAwait("startTimespan");
    FlowCallStartsWithAwait("endTimespan");
    FlowCallStartsWithAwait("startNavigation");
    AppendNeutral(closed, tail);
    assert lines + AfterAllStepsLines(open) == closed + tail;
  }

  /** The whole script is well bracketed and ends with no timespan open. */
  lemma ScriptIsWellBracketed(flow: UserFlow)
    ensures WellBracketed(Script(flow))
    ensures !TimespanOpen(Script(flow))
  {
    var before := BeforeAllStepsLines(flow);
    BeforeAllStepsLinesAreNeutral(flow);
    AppendNeutral([], before);
    assert [] + before == before;
    StepsKeepBracketing(before, false, flow.steps);
    var body := before + StepsLines(false, flow.steps);
    AfterAllStepsCloses(body, StepsOpen(false, flow.steps));
  }

  /** In a well-bracketed buffer with no open timespan every `startTimespan` is closed later. */
  lemma {:induction false} EveryTimespanEnds(lines: seq<string>, i: nat)
    requires WellBracketed(lines) && !TimespanOpen(lines)
    requires i < |lines| && lines[i] == StartTimespanLine
    ensures exists j :: i < j < |lines| && lines[j] == EndTimespanLine
  {
    var prefix, last := lines[..|lines| - 1], lines[|lines| - 1];
    if i < |lines| - 1 {
      if TimespanOpen(prefix) {
        assert last == EndTimespanLine;
      } else {
        EveryTimespanEnds(prefix, i);
        var j :| i < j < |prefix| && prefix[j] == EndTimespanLine;
        assert lines[j] == prefix[j];
      }
    }
  }

  /** In a well-bracketed buffer no `startNavigation` is emitted while a timespan is open. */
  lemma {:induction false} NoNavigationInsideTimespan(lines: seq<string>, k: nat)
    requires WellBracketed(lines)
    requires k < |lines| && lines[k] == StartNavigationLine
    ensures !TimespanOpen(lines[..k])
  {
    var prefix := lines[..|lines| - 1];
    if k < |lines| - 1 {
      NoNavigationInsideTimespan(prefix, k);
      assert prefix[..k] == lines[..k];
    } else {
      assert lines[..k] == prefix;
    }
  }

  /** Consecutive user actions share one timespan, started only if none is open. */
  lemma {:induction false} ActionsShareOneTimespan(open: bool, steps: seq<Step>)
    requires steps != []
    requires forall k :: 0 <= k < |steps| ==> steps[k].stepType != "setViewport" && !IsNavigationStep(steps[k])
    ensures StepsLines(open, steps) == (if open then [] else [StartTimespanLine]) + DelegatedSteps(steps)
    ensures StepsOpen(open, steps)
  {
    var init, last := steps[..|steps| - 1], steps[|steps| - 1];
    if init == [] {
      assert StepsLines(open, steps) == StepsLines(open, []) + StepLines(open, last);
    } else {
      ActionsShareOneTimespan(open, init);
    }
  }

  /** A `setViewport` step emits only the delegated code and leaves the timespan state alone. */
  lemma ViewportStepIsDelegatedOnly(open: bool, step: Step)
    requires step.stepType == "setViewport"
    ensures StepLines(open, step) == [DelegatedStep(step)]
    ensures !IsFlowMarker(DelegatedStep(step)) && DelegatedStep(step) != EndNavigationLine
    ensures OpenAfterStep(open, step) == open
  {
    DelegatedStepIsNeutral(step);
    FlowCallStartsWithAwait("endNavigation");
  }

  /** A navigation closes any open timespan, is bracketed by start/end, and leaves none open. */
  lemma NavigationIsBracketed(open: bool, step: Step)
    requires step.stepType != "setViewport" && IsNavigationStep(step)
    ensures StepLines(open, step)
      == (if open then [EndTimespanLine] else []) + [StartNavigationLine, DelegatedStep(step), EndNavigationLine]
    ensures !OpenAfterStep(open, step)
  {
  }

  /** A buffer that is well bracketed has well-bracketed prefixes. */
  lemma {:induction false} WellBracketedPrefix(lines: seq<string>, more: seq<string>)
    requires WellBracketed(lines + more)
    ensures WellBracketed(lines)
    decreases |more|
  {
    if more == [] {
      assert lines + more == lines;
    } else {
      var init := more[..|more| - 1];
      assert (lines + more)[..|lines + more| - 1] == lines + init;
      WellBracketedPrefix(lines, init);
    }
  }

  /**
   * A flag left set over a buffer with no open timespan (an extension reused for
   * a second flow after `afterAllSteps`, which does not reset the flag) makes
   * the next navigation emit an `endTimespan` that closes nothing.
   */
  lemma StaleFlagBreaksBracketing(lines: seq<string>, step: Step)
    requires !TimespanOpen(lines)
    requires step.stepType != "setViewport" && IsNavigationStep(step)
    ensures StepLines(true, step)[0] == EndTimespanLine
    ensures !WellBracketed(lines + StepLines(true, step))
  {
    var closed := lines + [EndTimespanLine];
    Snoc(lines, EndTimespanLine);
    assert !WellBracketed(closed);
    var tail := [StartNavigationLine, DelegatedStep(step), EndNavigationLine];
    assert lines + StepLines(true, step) == closed + tail;
    if WellBracketed(closed + tail) {
      WellBracketedPrefix(closed, tail);
    }
  }

  /** The flow of the "multiple sequential navigations" test: a click that asserts a navigation is one. */
  lemma ClickWithNavigationIsNavigation()
    ensures
      var viewport := Step("setViewport", true, None);
      var navigate := Step("navigate", false,
        Some([AssertedEvent("navigation", "https://example.com", "")]));
      var click := Step("click", false,
        Some([AssertedEvent("navigation", "https://example.com/page", "")]));
      StepsLines(false, [viewport, navigate, click])
        == [ DelegatedStep(viewport),
             StartNavigationLine, DelegatedStep(navigate), EndNavigationLine,
             StartNavigationLine, DelegatedStep(click), EndNavigationLine ]
      && !StepsOpen(false, [viewport, navigate, click])
  {
    var viewport := Step("setViewport", true, None);
    var navigate := Step("navigate", false, Some([AssertedEvent("navigation", "https://example.com", "")]));
    var click := Step("click", false, Some([AssertedEvent("navigation", "https://example.com/page", "")]));
    assert IsNavigationStep(navigate) && IsNavigationStep(click);
    StepsSnoc(false, [viewport]);
    assert [viewport][..0] == [];
    assert StepsLines(false, [viewport]) == [DelegatedStep(viewport)] && !StepsOpen(false, [viewport]);
    StepsSnoc(false, [viewport, navigate]);
    assert [viewport, navigate][..1] == [viewport];
    var navigationLines := [StartNavigationLine, DelegatedStep(navigate), EndNavigationLine];
    assert StepLines(false, navigate) == navigationLines;
    assert StepsLines(false, [viewport, navigate]) == [DelegatedStep(viewport)] + navigationLines;
    assert !StepsOpen(false, [viewport, navigate]);
    StepsSnoc(false, [viewport, navigate, click]);
    assert [viewport, navigate, click][..2] == [viewport, navigate];
    assert StepLines(false, click) == [StartNavigationLine, DelegatedStep(click), EndNavigationLine];
  }

  /** The flow of the "handles ending timespan" test: the trailing click's timespan is closed at the end. */
  lemma TrailingActionTimespanIsClosed()
    ensures
      var viewport := Step("setViewport", true, None);
      var navigate := Step("navigate", false,
        Some([AssertedEvent("navigation", "https://example.com", "")]));
      var click := Step("click", false, None);
      var steps := [viewport, navigate, click];
      && StepsLines(false, steps)
        == [ DelegatedStep(viewport),
             StartNavigationLine, DelegatedStep(navigate), EndNavigationLine,
             StartTimespanLine, DelegatedStep(click) ]
      && StepsOpen(false, steps)
      && AfterAllStepsLines(StepsOpen(false, steps))[0] == EndTimespanLine
  {
    var viewport := Step("setViewport", true, None);
    var navigate := Step("navigate", false, Some([AssertedEvent("navigation", "https://example.com", "")]));
    var click := Step("click", false, None);
    assert IsNavigationStep(navigate) && !IsNavigationStep(click);
    StepsSnoc(false, [viewport]);
    assert [viewport][..0] == [];
    StepsSnoc(false, [viewport, navigate]);
    assert [viewport, navigate][..1] == [viewport];
    StepsSnoc(false, [viewport, navigate, click]);
    assert [viewport, navigate, click][..2] == [viewport, navigate];
  }

  // ---------------------------------------------------------------------------
  // The output buffer and the extension
  // ---------------------------------------------------------------------------

  /** The line writer the stringifier hands to every call. */
  class LineWriter {
    var lines: seq<string>

    constructor ()
      ensures lines == []
    {
      lines := [];
    }

    method AppendLine(line: string)
      modifies this
      ensures lines == old(lines) + [line]
    {
      lines := lines + [line];
    }
  }

  class LighthouseStringifyExtension {
    var isProcessingTimespan: bool

    /** The flag says whether the buffer's last timespan marker is a start, and the buffer is well bracketed. */
    ghost predicate Consistent(out: LineWriter)
      reads this, out
    {
      WellBracketed(out.lines) && isProcessingTimespan == TimespanOpen(out.lines)
    }

    constructor ()
      ensures !isProcessingTimespan
    {
      isProcessingTimespan := false;
    }

    method BeforeAllSteps(out: LineWriter, flow: UserFlow)
      modifies out
      ensures out.lines == old(out.lines) + BeforeAllStepsLines(flow)
      ensures old(Consistent(out)) ==> Consistent(out)
    {
      out.AppendLine(FsRequireLine);
      var isMobile := true;
      for i := 0 to |flow.steps|
        invariant out.lines == old(out.lines) + [FsRequireLine]
        invariant isMobile == IsMobile(flow.steps[..i])
      {
        assert flow.steps[..i + 1][..i] == flow.steps[..i];
        var step := flow.steps[i];
        if step.stepType != "setViewport" {
          continue;
        }
        isMobile := step.isMobile;
      }
      assert flow.steps[..|flow.steps|] == flow.steps;
      out.AppendLine(DelegatedBeforeAllSteps(flow));
      out.AppendLine(ConfigContextLine);
      if isMobile {
        out.AppendLine(MobileConfigLine);
      } else {
        out.AppendLine(DesktopConfigLine);
      }
      out.AppendLine(LhApiLine);
      out.AppendLine(StartFlowLine(flow.title));
      assert out.lines == old(out.lines) + BeforeAllStepsLines(flow);
      if old(Consistent(out)) {
        BeforeAllStepsLinesAreNeutral(flow);
        AppendNeutral(old(out.lines), BeforeAllStepsLines(flow));
      }
    }

    method StringifyStep(out: LineWriter, step: Step)
      modifies this, out
      ensures out.lines == old(out.lines) + StepLines(old(isProcessingTimespan), step)
      ensures isProcessingTimespan == OpenAfterStep(old(isProcessingTimespan), step)
      ensures old(Consistent(out)) ==> Consistent(out)
    {
      if step.stepType == "setViewport" {
        out.AppendLine(DelegatedStep(step));
      } else {
        var isNavigation := IsNavigationStep(step);
        if isNavigation {
          if isProcessingTimespan {
            out.AppendLine(EndTimespanLine);
            isProcessingTimespan := false;
          }
          out.AppendLine(StartNavigationLine);
        } else if !isProcessingTimespan {
          out.AppendLine(StartTimespanLine);
          isProcessingTimespan := true;
        }
        out.AppendLine(DelegatedStep(step));
        if isNavigation {
          out.AppendLine(EndNavigationLine);
        }
      }
      if old(Consistent(out)) {
        StepKeepsBracketing(old(out.lines), old(isProcessingTimespan), step);
      }
    }

    /** Closes an open timespan and writes the report; the flag itself is left as it is. */
    method AfterAllSteps(out: LineWriter)
      modifies out
      ensures out.lines == old(out.lines) + AfterAllStepsLines(isProcessingTimespan)
      ensures old(Consistent(out)) ==> WellBracketed(out.lines) && !TimespanOpen(out.lines)
    {
      if isProcessingTimespan {
        out.AppendLine(EndTimespanLine);
      }
      out.AppendLine(GenerateReportLine);
      out.AppendLine(WriteReportLine);
      out.AppendLine(DelegatedAfterAllSteps);
      if old(Consistent(out)) {
        AfterAllStepsCloses(old(out.lines), isProcessingTimespan);
      }
    }
  }

  /** The stringifier's loop: `stringifyStep` for each step in order. */
  method StringifySteps(extension: LighthouseStringifyExtension, out: LineWriter, steps: seq<Step>)
    modifies extension, out
    ensures out.lines == old(out.lines) + StepsLines(old(extension.isProcessingTimespan), steps)
    ensures extension.isProcessingTimespan == StepsOpen(old(extension.isProcessingTimespan), steps)
  {
    ghost var before, initiallyOpen := out.lines, extension.isProcessingTimespan;
    for i := 0 to |steps|
      invariant out.lines == before + StepsLines(initiallyOpen, steps[..i])
      invariant extension.isProcessingTimespan == StepsOpen(initiallyOpen, steps[..i])
    {
      ghost var done, open := StepsLines(initiallyOpen, steps[..i]), extension.isProcessingTimespan;
      extension.StringifyStep(out, steps[i]);
      StepsSnoc(initiallyOpen, steps[..i + 1]);
      assert steps[..i + 1][..i] == steps[..i];
      Reassociate(before, done, StepLines(open, steps[i]));
    }
    assert steps[..|steps|] == steps;
  }

  /** The stringifier driving a fresh extension over a flow, as `stringify(flow, {extension})` does. */
  method StringifyFlow(flow: UserFlow) returns (script: seq<string>)
    ensures script == Script(flow)
  {
    var out := new LineWriter();
    var extension := new LighthouseStringifyExtension();
    extension.BeforeAllSteps(out, flow);
    assert out.lines == BeforeAllStepsLines(flow);
    StringifySteps(extension, out, flow.steps);
    extension.AfterAllSteps(out);
    script := out.lines;
  }
}
