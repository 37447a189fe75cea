/**
 * The eager runner of `runner.js`: `describe` pushes a frame on
 * `describeStack`, runs its body at once and pops the frame; `it` runs the
 * hooks of every frame and its body at once and counts the test as a
 * success or records it as a failure. The console output is kept as a log
 * of lines; `color` is a parameter. The pure functions say what each call
 * does to the runner's state; the `Runner` class does it step by step.
 */
module EagerRunner {
  import opened Wrappers
  import opened JsValues
  import opened Expectations
  import opened Expect
  import opened Bodies

  /** `makeDescribe(name)` and the hooks `beforeEach`/`afterEach` added to it. */
  datatype Frame = Frame(name: string, befores: seq<Body>, afters: seq<Body>)

  /** The object `makeTest` returns: the test's name, its errors and the
      stack current when it was made. */
  datatype TestRecord = TestRecord(testName: Value, errors: seq<JsError>, describeStack: seq<Frame>)

  /** The statements of a test file or a describe body. */
  datatype Script = Script(cmds: seq<Cmd>)

  datatype Cmd =
    | Describe(name: string, body: Option<Script>)   // describe(name, body); None: body undefined
    | It(name: string, test: Option<Body>)            // it(name, body); None: body undefined
    | BeforeEach(hook: Body)
    | AfterEach(hook: Body)
    | Raise(error: JsError)                           // a throw in the body

  /** The runner's module-level state, and the console output so far. */
  datatype RunnerState = RunnerState(successes: nat, failures: seq<TestRecord>, describeStack: seq<Frame>, log: seq<string>)

  /** `arr.slice(0, -1)`, which is empty for an empty array. */
  function WithoutLast<T>(s: seq<T>): (r: seq<T>)
    ensures |s| > 0 ==> r == s[..|s| - 1]
    ensures |s| == 0 ==> r == []
  {
    if |s| == 0 then [] else s[..|s| - 1]
  }

  function Spaces(n: nat): (r: string)
    ensures |r| == n
    ensures forall k :: 0 <= k < n ==> r[k] == ' '
  {
    if n == 0 then "" else Spaces(n - 1) + " "
  }

  /** `indent(message)` at stack depth `depth`: exactly two spaces per
      frame, then the message. */
  function Indent(depth: nat, message: string): (r: string)
    ensures |r| == 2 * depth + |message|
    ensures forall k :: 0 <= k < 2 * depth ==> r[k] == ' '
    ensures r[2 * depth..] == message
  {
    Spaces(2 * depth) + message
  }

  /** `describeStack.flatMap(describe => describe.befores)`. */
  function FrameBefores(stack: seq<Frame>): seq<Body> {
    if stack == [] then [] else stack[0].befores + FrameBefores(stack[1..])
  }

  /** `describeStack.flatMap(describe => describe.afters)`. */
  function FrameAfters(stack: seq<Frame>): seq<Body> {
    if stack == [] then [] else stack[0].afters + FrameAfters(stack[1..])
  }

  /** The hooks of an inner frame run after those of the outer frames. */
  lemma {:induction false} FrameHooksOfPush(stack: seq<Frame>, f: Frame)
    ensures FrameBefores(stack + [f]) == FrameBefores(stack) + f.befores
    ensures FrameAfters(stack + [f]) == FrameAfters(stack) + f.afters
  {
    if stack == [] {
      assert stack + [f] == [f];
      assert [f][1..] == [];
    } else {
      assert (stack + [f])[1..] == stack[1..] + [f];
      FrameHooksOfPush(stack[1..], f);
    }
  }

  /** What `body()` runs: the body, or a TypeError for an undefined one. */
  function Called(body: Option<Body>): Body {
    match body
    case Some(b) => b
    case None => [Throw(NotAFunction)]
  }

  /** The errors `it` collects: its hooks and body run with the frames of
      `stack`, failures recorded along the way and the first exception. */
  function TestErrors(stack: seq<Frame>, body: Option<Body>, color: string -> string): seq<JsError> {
    Failures(Run(Plan(FrameBefores(stack), Called(body), FrameAfters(stack)), color))
  }

  /** `makeTest()` as the code calls it, without the name. */
  function MakeTestAsWritten(stack: seq<Frame>): (t: TestRecord)
    ensures t.testName == Undefined && t.errors == [] && t.describeStack == stack
  {
    TestRecord(Undefined, [], stack)
  }

  /** `makeTest(name)` as intended. */
  function MakeTest(name: string, stack: seq<Frame>): (t: TestRecord)
    ensures t.testName == Str(name) && t.errors == [] && t.describeStack == stack
  {
    TestRecord(Str(name), [], stack)
  }

  const PassMark := "<green>✓</green> "
  const FailMark := "<red>✗</red> "

  /** `it(name, body)`. */
  function ItStep(st: RunnerState, name: string, body: Option<Body>, color: string -> string): RunnerState {
    var errors := TestErrors(st.describeStack, body, color);
    if |errors| > 0 then
      st.(failures := st.failures + [MakeTest(name, st.describeStack).(errors := errors)],
          log := st.log + [Indent(|st.describeStack|, color(FailMark + name))])
    else
      st.(successes := st.successes + 1,
          log := st.log + [Indent(|st.describeStack|, color(PassMark + name))])
  }

  /** `currentDescribe()` is undefined on an empty stack. */
  const NoBefores := TypeError("Cannot read properties of undefined (reading 'befores')")
  const NoAfters := TypeError("Cannot read properties of undefined (reading 'afters')")

  /** `beforeEach(hook)`: the innermost frame is replaced by a copy with the
      hook appended to its befores. */
  function BeforeEachStep(st: RunnerState, hook: Body): (RunnerState, Option<JsError>) {
    if st.describeStack == [] then (st, Some(NoBefores))
    else
      var f := st.describeStack[|st.describeStack| - 1];
      (st.(describeStack := WithoutLast(st.describeStack) + [f.(befores := f.befores + [hook])]), None)
  }

  /** `afterEach(hook)`, likewise for the afters. */
  function AfterEachStep(st: RunnerState, hook: Body): (RunnerState, Option<JsError>) {
    if st.describeStack == [] then (st, Some(NoAfters))
    else
      var f := st.describeStack[|st.describeStack| - 1];
      (st.(describeStack := WithoutLast(st.describeStack) + [f.(afters := f.afters + [hook])]), None)
  }

  /** `describe(name, body)`: logs the name at the current depth, pushes a
      new frame and calls the body; the frame is popped only when the body
      returns, as there is no `finally`. */
  function DescribeStep(st: RunnerState, name: string, body: Option<Script>, color: string -> string): (r: (RunnerState, Option<JsError>))
    decreases body, 1
  {
    var pushed := st.(log := st.log + [Indent(|st.describeStack|, name)],
                      describeStack := st.describeStack + [Frame(name, [], [])]);
    match body
    case None => (pushed, Some(NotAFunction))
    case Some(s) =>
      var (r, err) := ScriptStep(pushed, s, 0, color);
      if err.Some? then (r, err) else (r.(describeStack := WithoutLast(r.describeStack)), None)
  }

  function CmdStep(st: RunnerState, cmd: Cmd, color: string -> string): (r: (RunnerState, Option<JsError>))
    decreases cmd, 2
  {
    match cmd
    case Describe(name, body) => DescribeStep(st, name, body, color)
    case It(name, body) => (ItStep(st, name, body, color), None)
    case BeforeEach(h) => BeforeEachStep(st, h)
    case AfterEach(h) => AfterEachStep(st, h)
    case Raise(e) => (st, Some(e))
  }

  /** The statements of `s` from index `i` on, up to the first throw. */
  function ScriptStep(st: RunnerState, s: Script, i: nat, color: string -> string): (r: (RunnerState, Option<JsError>))
    requires i <= |s.cmds|
    decreases s, 0, |s.cmds| - i
  {
    if i == |s.cmds| then (st, None)
    else
      var (st', err) := CmdStep(st, s.cmds[i], color);
      if err.Some? then (st', err) else ScriptStep(st', s, i + 1, color)
  }

  /** Each `it` does exactly one of two things: it counts a success when
      its hooks and body left no error, or it records the test, with its
      errors and the stack of the call, as a failure. Either way the stack
      is unchanged and one line is logged at the current depth. */
  lemma ItCountsOnce(st: RunnerState, name: string, body: Option<Body>, color: string -> string)
    ensures var r := ItStep(st, name, body, color);
            var errors := TestErrors(st.describeStack, body, color);
            && r.describeStack == st.describeStack
            && (errors == [] ==> r.successes == st.successes + 1 && r.failures == st.failures
                                 && r.log == st.log + [Indent(|st.describeStack|, color(PassMark + name))])
            && (errors != [] ==> r.successes == st.successes
                                 && r.failures == st.failures + [TestRecord(Str(name), errors, st.describeStack)]
                                 && r.log == st.log + [Indent(|st.describeStack|, color(FailMark + name))])
  {
  }

  /** A test passes exactly when no statement of its hooks and body, run
      outer frame first, records a failure or throws; the hooks and the
      body run in the order befores, body, afters, up to the first throw. */
  lemma ItPassesIffAllStepsPass(st: RunnerState, name: string, body: Option<Body>, color: string -> string)
    ensures var plan := Plan(FrameBefores(st.describeStack), Called(body), FrameAfters(st.describeStack));
            ItStep(st, name, body, color).successes == st.successes + 1
            <==> forall k :: 0 <= k < |plan| ==> StepEffect(plan[k], color) == NoEffect
    ensures TestErrors(st.describeStack, body, color)
            == Failures(Then(Run(Flatten(FrameBefores(st.describeStack)), color),
                             Then(Run(Called(body), color), Run(Flatten(FrameAfters(st.describeStack)), color))))
  {
    var plan := Plan(FrameBefores(st.describeStack), Called(body), FrameAfters(st.describeStack));
    BodyFailsIffSomeStepFails(plan, color);
    PlanEffect(FrameBefores(st.describeStack), Called(body), FrameAfters(st.describeStack), color);
  }

  /** A test without a body is always a failure; unless a before hook
      threw first, its errors hold the TypeError of calling undefined. */
  lemma BodilessTestFails(st: RunnerState, name: string, color: string -> string)
    ensures Run(Flatten(FrameBefores(st.describeStack)), color).thrown.None? ==>
              NotAFunction in TestErrors(st.describeStack, None, color)
    ensures ItStep(st, name, None, color).failures == st.failures + [TestRecord(Str(name), TestErrors(st.describeStack, None, color), st.describeStack)]
  {
    var eb := Run(Flatten(FrameBefores(st.describeStack)), color);
    var ey := Run([Throw(NotAFunction)], color);
    assert ey == Effect([], Some(NotAFunction));
    PlanEffect(FrameBefores(st.describeStack), [Throw(NotAFunction)], FrameAfters(st.describeStack), color);
    if eb.thrown.None? {
      var e := Run(Plan(FrameBefores(st.describeStack), [Throw(NotAFunction)], FrameAfters(st.describeStack)), color);
      assert e == Effect(eb.recorded, Some(NotAFunction));
      assert Failures(e)[|eb.recorded|] == NotAFunction;
    } else {
      var e := Run(Plan(FrameBefores(st.describeStack), [Throw(NotAFunction)], FrameAfters(st.describeStack)), color);
      assert e == eb;
      assert |Failures(e)| > 0;
    }
  }

  /** `beforeEach` and `afterEach` change only the innermost frame, adding
      the hook at the end of its list; outside any `describe` they throw
      and change nothing. */
  lemma HooksTouchInnermostFrameOnly(st: RunnerState, hook: Body)
    ensures st.describeStack == [] ==>
              BeforeEachStep(st, hook) == (st, Some(NoBefores)) && AfterEachStep(st, hook) == (st, Some(NoAfters))
    ensures st.describeStack != [] ==>
              var n := |st.describeStack|;
              var f := st.describeStack[n - 1];
              var b := BeforeEachStep(st, hook);
              var a := AfterEachStep(st, hook);
              && b.1.None? && a.1.None?
              && b.0 == st.(describeStack := b.0.describeStack) && a.0 == st.(describeStack := a.0.describeStack)
              && |b.0.describeStack| == n && |a.0.describeStack| == n
              && b.0.describeStack[..n - 1] == st.describeStack[..n - 1]
              && a.0.describeStack[..n - 1] == st.describeStack[..n - 1]
              && b.0.describeStack[n - 1] == Frame(f.name, f.befores + [hook], f.afters)
              && a.0.describeStack[n - 1] == Frame(f.name, f.befores, f.afters + [hook])
  {
    if st.describeStack != [] {
      var n := |st.describeStack|;
      assert (WithoutLast(st.describeStack) + [st.describeStack[n - 1]])[..n - 1] == st.describeStack[..n - 1];
    }
  }

  /** The stacks agree on every frame but the innermost. */
  predicate SameOuterFrames(a: seq<Frame>, b: seq<Frame>) {
    |a| == |b| && WithoutLast(a) == WithoutLast(b)
  }

  /** `describe` restores the stack it found when its body returns. */
  lemma {:induction false} DescribeRestoresStack(st: RunnerState, name: string, body: Option<Script>, color: string -> string)
    ensures DescribeStep(st, name, body, color).1.None? ==>
              DescribeStep(st, name, body, color).0.describeStack == st.describeStack
    decreases body, 1
  {
    match body
    case None =>
    case Some(s) =>
      var pushed := st.(log := st.log + [Indent(|st.describeStack|, name)],
                        describeStack := st.describeStack + [Frame(name, [], [])]);
      ScriptKeepsOuterFrames(pushed, s, 0, color);
      assert WithoutLast(pushed.describeStack) == st.describeStack;
  }

  lemma {:induction false} CmdKeepsOuterFrames(st: RunnerState, cmd: Cmd, color: string -> string)
    ensures CmdStep(st, cmd, color).1.None? ==>
              SameOuterFrames(st.describeStack, CmdStep(st, cmd, color).0.describeStack)
    decreases cmd, 2
  {
    match cmd
    case Describe(name, body) => DescribeRestoresStack(st, name, body, color);
    case It(_, _) =>
    case BeforeEach(h) =>
      if st.describeStack != [] {
        var n := |st.describeStack|;
        var r := BeforeEachStep(st, h).0.describeStack;
        assert WithoutLast(r) == (WithoutLast(st.describeStack) + [r[n - 1]])[..n - 1];
      }
    case AfterEach(h) =>
      if st.describeStack != [] {
        var n := |st.describeStack|;
        var r := AfterEachStep(st, h).0.describeStack;
        assert WithoutLast(r) == (WithoutLast(st.describeStack) + [r[n - 1]])[..n - 1];
      }
    case Raise(_) =>
  }

  lemma {:induction false} ScriptKeepsOuterFrames(st: RunnerState, s: Script, i: nat, color: string -> string)
    requires i <= |s.cmds|
    ensures ScriptStep(st, s, i, color).1.None? ==>
              SameOuterFrames(st.describeStack, ScriptStep(st, s, i, color).0.describeStack)
    decreases s, 0, |s.cmds| - i
  {
    if i < |s.cmds| {
      var (st', err) := CmdStep(st, s.cmds[i], color);
      CmdKeepsOuterFrames(st, s.cmds[i], color);
      if err.None? {
        ScriptKeepsOuterFrames(st', s, i + 1, color);
      }
    }
  }

  /** A `describe` whose body is undefined throws after pushing its frame,
      which stays on the stack. */
  lemma BodilessDescribeKeepsFrame(st: RunnerState, name: string, color: string -> string)
    ensures DescribeStep(st, name, None, color).1 == Some(NotAFunction)
    ensures DescribeStep(st, name, None, color).0.describeStack == st.describeStack + [Frame(name, [], [])]
  {
  }

  /** The `it` calls a body makes, nested describes included. */
  function ItsInCmd(c: Cmd): nat
    decreases c, 2
  {
    match c
    case It(_, _) => 1
    case Describe(_, body) => ItsInBody(body)
    case _ => 0
  }

  function ItsInBody(body: Option<Script>): nat
    decreases body, 1
  {
    match body
    case None => 0
    case Some(s) => ItsInScript(s, 0)
  }

  function ItsInScript(s: Script, i: nat): nat
    requires i <= |s.cmds|
    decreases s, 0, |s.cmds| - i
  {
    if i == |s.cmds| then 0 else ItsInCmd(s.cmds[i]) + ItsInScript(s, i + 1)
  }

  /** `r` follows `st`: successes only grow, failures are only appended
      to, and every failure appended has at least one error. */
  predicate Tallied(st: RunnerState, r: RunnerState) {
    st.successes <= r.successes
    && |st.failures| <= |r.failures| && r.failures[..|st.failures|] == st.failures
    && forall k :: |st.failures| <= k < |r.failures| ==> |r.failures[k].errors| > 0
  }

  lemma TalliedTransitive(a: RunnerState, b: RunnerState, c: RunnerState)
    requires Tallied(a, b) && Tallied(b, c)
    ensures Tallied(a, c)
  {
    assert c.failures[..|a.failures|] == c.failures[..|b.failures|][..|a.failures|];
    forall k | |a.failures| <= k < |c.failures|
      ensures |c.failures[k].errors| > 0
    {
      if k < |b.failures| {
        assert c.failures[k] == c.failures[..|b.failures|][k];
      }
    }
  }

  /** The number of tests run so far. */
  function Counted(st: RunnerState): nat {
    st.successes + |st.failures|
  }

  /** Running a body records every test it runs exactly once, as a success
      or as a failure with errors; when it returns, the tally grew by the
      number of its `it` calls. */
  lemma {:induction false} DescribeTally(st: RunnerState, name: string, body: Option<Script>, color: string -> string)
    ensures Tallied(st, DescribeStep(st, name, body, color).0)
    ensures DescribeStep(st, name, body, color).1.None? ==>
              Counted(DescribeStep(st, name, body, color).0) == Counted(st) + ItsInBody(body)
    decreases body, 1
  {
    var pushed := st.(log := st.log + [Indent(|st.describeStack|, name)],
                      describeStack := st.describeStack + [Frame(name, [], [])]);
    assert st.failures[..|st.failures|] == st.failures;
    match body
    case None =>
    case Some(s) =>
      ScriptTally(pushed, s, 0, color);
  }

  lemma {:induction false} CmdTally(st: RunnerState, cmd: Cmd, color: string -> string)
    ensures Tallied(st, CmdStep(st, cmd, color).0)
    ensures CmdStep(st, cmd, color).1.None? ==> Counted(CmdStep(st, cmd, color).0) == Counted(st) + ItsInCmd(cmd)
    decreases cmd, 2
  {
    assert st.failures[..|st.failures|] == st.failures;
    match cmd
    case Describe(name, body) => DescribeTally(st, name, body, color);
    case It(name, body) =>
      var r := ItStep(st, name, body, color);
      assert r.failures[..|st.failures|] == st.failures;
    case BeforeEach(_) =>
    case AfterEach(_) =>
    case Raise(_) =>
  }

  lemma {:induction false} ScriptTally(st: RunnerState, s: Script, i: nat, color: string -> string)
    requires i <= |s.cmds|
    ensures Tallied(st, ScriptStep(st, s, i, color).0)
    ensures ScriptStep(st, s, i, color).1.None? ==>
              Counted(ScriptStep(st, s, i, color).0) == Counted(st) + ItsInScript(s, i)
    decreases s, 0, |s.cmds| - i
  {
    if i == |s.cmds| {
      assert st.failures[..|st.failures|] == st.failures;
    } else {
      var (st', err) := CmdStep(st, s.cmds[i], color);
      CmdTally(st, s.cmds[i], color);
      if err.None? {
        ScriptTally(st', s, i + 1, color);
        TalliedTransitive(st, st', ScriptStep(st', s, i + 1, color).0);
      }
    }
  }

  /** `[a, b, c].join(sep)`. */
  function Join(parts: seq<string>, sep: string): string {
    if parts == [] then ""
    else if |parts| == 1 then parts[0]
    else Join(parts[..|parts| - 1], sep) + sep + parts[|parts| - 1]
  }

  function BoldNames(stack: seq<Frame>): (r: seq<string>)
    ensures |r| == |stack|
    ensures forall k :: 0 <= k < |stack| ==> r[k] == Bold(stack[k].name)
  {
    if stack == [] then [] else BoldNames(stack[..|stack| - 1]) + [Bold(stack[|stack| - 1].name)]
  }

  /** `fullTestDescription(test)`: the frame names and then the test name,
      each in bold, joined by an arrow. */
  function FullTestDescription(t: TestRecord): string {
    Join(BoldNames(t.describeStack) + [Bold(Display(t.testName))], " → ")
  }

  /** What precedes the test's own name in its description. */
  function DescriptionPrefix(stack: seq<Frame>): string {
    if stack == [] then "" else Join(BoldNames(stack), " → ") + " → "
  }

  /** The description is the bold frame names, outermost first, then the
      bold test name. */
  lemma DescriptionEndsWithTestName(t: TestRecord)
    ensures FullTestDescription(t) == DescriptionPrefix(t.describeStack) + Bold(Display(t.testName))
  {
    var names := BoldNames(t.describeStack);
    var parts := names + [Bold(Display(t.testName))];
    assert parts[..|parts| - 1] == names;
  }

  /** As written, `makeTest()` drops the name, so every failing test's
      description ends in a bold "undefined" and two tests of the same
      group with different names get the same description. */
  lemma AsWrittenDescriptionLosesName(stack: seq<Frame>, errors1: seq<JsError>, errors2: seq<JsError>)
    ensures FullTestDescription(MakeTestAsWritten(stack).(errors := errors1))
            == DescriptionPrefix(stack) + Bold("undefined")
    ensures FullTestDescription(MakeTestAsWritten(stack).(errors := errors1))
            == FullTestDescription(MakeTestAsWritten(stack).(errors := errors2))
  {
    DescriptionEndsWithTestName(MakeTestAsWritten(stack).(errors := errors1));
    DescriptionEndsWithTestName(MakeTestAsWritten(stack).(errors := errors2));
  }

  /** With the name passed, the description ends in the test's own name. */
  lemma DescriptionNamesTheTest(name: string, stack: seq<Frame>, errors: seq<JsError>)
    ensures FullTestDescription(MakeTest(name, stack).(errors := errors)) == DescriptionPrefix(stack) + Bold(name)
  {
    DescriptionEndsWithTestName(MakeTest(name, stack).(errors := errors));
  }

  /** `exitCodes`. */
  const ExitOk := 0
  const ExitFailures := 1
  const ExitCannotAccessFile := 2

  /** The exit code of a single run. */
  function ExitCode(failures: seq<TestRecord>): (c: int)
    ensures c == ExitFailures <==> |failures| > 0
    ensures c == ExitOk <==> |failures| == 0
  {
    if |failures| > 0 then ExitFailures else ExitOk
  }

  /** From a fresh runner, a file that runs to the end exits with 0
      exactly when all of its tests passed. */
  lemma ExitOkIffAllPassed(s: Script, color: string -> string)
    ensures var (r, err) := ScriptStep(RunnerState(0, [], [], []), s, 0, color);
            err.None? ==> (ExitCode(r.failures) == ExitOk <==> r.successes == ItsInScript(s, 0))
  {
    ScriptTally(RunnerState(0, [], [], []), s, 0, color);
  }

  /** The `try` of `it`: a fresh current test collects the failures of the
      hooks and the body run with the frames of `stack`, and the exception
      that stopped them. */
  method CollectErrors(stack: seq<Frame>, body: Option<Body>, color: string -> string) returns (errors: seq<JsError>)
    ensures errors == TestErrors(stack, body, color)
  {
    var current := new CurrentTest([]);
    RunGuarded(current, FrameBefores(stack), Called(body), FrameAfters(stack), color);
    errors := current.errors;
  }

  /** The runner's module-level variables and the console. */
  class Runner {
    var successes: nat
    var failures: seq<TestRecord>
    var describeStack: seq<Frame>
    var log: seq<string>
    const color: string -> string

    function State(): RunnerState
      reads this
    {
      RunnerState(successes, failures, describeStack, log)
    }

    constructor(color: string -> string)
      ensures State() == RunnerState(0, [], [], [])
      ensures this.color == color
    {
      successes := 0;
      failures := [];
      describeStack := [];
      log := [];
      this.color := color;
    }

    /** `it(name, body)`: the errors collect in the current test while the
        hooks and the body run. */
    method It(name: string, body: Option<Body>)
      modifies this
      ensures State() == ItStep(old(State()), name, body, color)
    {
      var test := MakeTest(name, describeStack);
      var errors := CollectErrors(describeStack, body, color);
      if |errors| > 0 {
        log := log + [Indent(|describeStack|, color(FailMark + name))];
        failures := failures + [test.(errors := errors)];
      } else {
        successes := successes + 1;
        log := log + [Indent(|describeStack|, color(PassMark + name))];
      }
    }

    method BeforeEach(hook: Body) returns (thrown: Option<JsError>)
      modifies this
      ensures (State(), thrown) == BeforeEachStep(old(State()), hook)
    {
      if describeStack == [] {
        return Some(NoBefores);
      }
      var f := describeStack[|describeStack| - 1];
      describeStack := WithoutLast(describeStack) + [f.(befores := f.befores + [hook])];
      thrown := None;
    }

    method AfterEach(hook: Body) returns (thrown: Option<JsError>)
      modifies this
      ensures (State(), thrown) == AfterEachStep(old(State()), hook)
    {
      if describeStack == [] {
        return Some(NoAfters);
      }
      var f := describeStack[|describeStack| - 1];
      describeStack := WithoutLast(describeStack) + [f.(afters := f.afters + [hook])];
      thrown := None;
    }

    /** `describe(name, body)`; returns the exception that escapes. */
    method Describe(name: string, body: Option<Script>) returns (thrown: Option<JsError>)
      modifies this
      ensures (State(), thrown) == DescribeStep(old(State()), name, body, color)
      decreases body, 1
    {
      log := log + [Indent(|describeStack|, name)];
      describeStack := describeStack + [Frame(name, [], [])];
      match body {
        case None =>
          return Some(NotAFunction);
        case Some(s) =>
          thrown := RunScript(s);
          if thrown.Some? {
            return;
          }
      }
      describeStack := WithoutLast(describeStack);
    }

    method Exec(cmd: Cmd) returns (thrown: Option<JsError>)
      modifies this
      ensures (State(), thrown) == CmdStep(old(State()), cmd, color)
      decreases cmd, 2
    {
      thrown := None;
      match cmd {
        case Describe(name, body) => thrown := Describe(name, body);
        case It(name, body) => It(name, body);
        case BeforeEach(h) => thrown := BeforeEach(h);
        case AfterEach(h) => thrown := AfterEach(h);
        case Raise(e) => thrown := Some(e);
      }
    }

    /** Runs a file or a describe body statement by statement; the first
        exception stops it and is returned. */
    method RunScript(s: Script) returns (thrown: Option<JsError>)
      modifies this
      ensures (State(), thrown) == ScriptStep(old(State()), s, 0, color)
      decreases s, 0
    {
      var i := 0;
      while i < |s.cmds|
        invariant 0 <= i <= |s.cmds|
        invariant ScriptStep(old(State()), s, 0, color) == ScriptStep(State(), s, i, color)
      {
        thrown := Exec(s.cmds[i]);
        if thrown.Some? {
          return;
        }
        i := i + 1;
      }
      thrown := None;
    }

    /** The exit code `buildSingleRunner` ends the process with. */
    method ExitCodeOfRun() returns (code: int)
      ensures code == ExitCode(failures)
      ensures code == ExitFailures <==> |failures| > 0
    {
      code := if |failures| > 0 then ExitFailures else ExitOk;
    }
  }
}
