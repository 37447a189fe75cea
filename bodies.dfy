/**
 * Test bodies and hooks. A user function is modelled by the statements
 * that matter to the framework: `expect` calls, whose failures may be
 * recorded on the current test, and throws. Calling it runs the
 * statements in order until the first exception escapes.
 */
module Bodies {
  import opened Wrappers
  import opened JsValues
  import opened Expect

  datatype Step =
    | ExpectStep(actual: Value, matcher: string, args: seq<Value>)  // expect(actual)[matcher](...args)
    | Throw(error: JsError)                                          // throw error

  /** The statements of a body or hook function. */
  type Body = seq<Step>

  /** What running some statements did: the expectation failures recorded
      on the current test and the exception that escaped, if any. */
  datatype Effect = Effect(recorded: seq<JsError>, thrown: Option<JsError>)

  const NoEffect := Effect([], None)

  /** The TypeError of calling a value that is not a function (undefined,
      or an options object) in place of a body. */
  const NotAFunction := TypeError("body is not a function")

  /** One statement. */
  function StepEffect(s: Step, color: string -> string): (e: Effect)
    ensures |e.recorded| <= 1
    ensures e.thrown.Some? ==> e.recorded == []
    ensures forall x :: x in e.recorded ==> x.ExpectationError?
    ensures s.Throw? ==> e.thrown == Some(s.error)
  {
    match s
    case Throw(err) => Effect([], Some(err))
    case ExpectStep(actual, matcher, args) =>
      match Route(CallMatcher(matcher, actual, args, color))
      case Passed => NoEffect
      case Recorded(err) => Effect([err], None)
      case Rethrown(err) => Effect([], Some(err))
  }

  /** The meaning of statements on a test run with colour function `color`. */
  function Semantics(color: string -> string): Step -> Effect {
    s => StepEffect(s, color)
  }

  /** The effects of the statements, one per statement. */
  function Effects(steps: Body, f: Step -> Effect): (es: seq<Effect>)
    ensures |es| == |steps|
    ensures forall k :: 0 <= k < |steps| ==> es[k] == f(steps[k])
  {
    if steps == [] then [] else [f(steps[0])] + Effects(steps[1..], f)
  }

  lemma EffectsAppend(a: Body, b: Body, f: Step -> Effect)
    ensures Effects(a + b, f) == Effects(a, f) + Effects(b, f)
  {
    assert forall k :: 0 <= k < |a| ==> (a + b)[k] == a[k];
    assert forall k :: |a| <= k < |a| + |b| ==> (a + b)[k] == b[k - |a|];
  }

  /** Sequential composition: the second part runs only when the first
      did not throw. */
  function Then(a: Effect, b: Effect): Effect {
    if a.thrown.Some? then a else Effect(a.recorded + b.recorded, b.thrown)
  }

  /** Effects in order, up to and including the first that throws. */
  function Sequence(es: seq<Effect>): (e: Effect)
    ensures es == [] ==> e == NoEffect
  {
    if es == [] then NoEffect else Then(es[0], Sequence(es[1..]))
  }

  /** Running statements until the first exception. */
  function Run(steps: Body, color: string -> string): Effect {
    Sequence(Effects(steps, Semantics(color)))
  }

  lemma ThenAssociative(a: Effect, b: Effect, c: Effect)
    ensures Then(Then(a, b), c) == Then(a, Then(b, c))
  {
  }

  lemma {:induction false} SequenceAppend(a: seq<Effect>, b: seq<Effect>)
    ensures Sequence(a + b) == Then(Sequence(a), Sequence(b))
  {
    if a == [] {
      assert a + b == b;
    } else {
      assert (a + b)[1..] == a[1..] + b;
      SequenceAppend(a[1..], b);
      ThenAssociative(a[0], Sequence(a[1..]), Sequence(b));
    }
  }

  /** Running two pieces one after the other is running them joined. */
  lemma RunAppend(a: Body, b: Body, color: string -> string)
    ensures Run(a + b, color) == Then(Run(a, color), Run(b, color))
  {
    EffectsAppend(a, b, Semantics(color));
    SequenceAppend(Effects(a, Semantics(color)), Effects(b, Semantics(color)));
  }

  /** Without an exception every effect takes part, in order. */
  lemma {:induction false} SequenceWithoutThrow(es: seq<Effect>)
    requires forall k :: 0 <= k < |es| ==> es[k].thrown.None?
    ensures Sequence(es).thrown.None?
    ensures Sequence(es) == Effect(RecordedOf(es), None)
  {
    if es != [] {
      SequenceWithoutThrow(es[1..]);
    }
  }

  /** All recorded failures of some effects, in order. */
  function RecordedOf(es: seq<Effect>): seq<JsError> {
    if es == [] then [] else es[0].recorded + RecordedOf(es[1..])
  }

  /** The effect of the first throwing statement ends the run: everything
      before it took part, nothing after it did. */
  lemma {:induction false} SequenceStopsAtThrow(es: seq<Effect>, k: nat)
    requires k < |es| && es[k].thrown.Some?
    requires forall j :: 0 <= j < k ==> es[j].thrown.None?
    ensures Sequence(es) == Effect(RecordedOf(es[..k]) + es[k].recorded, es[k].thrown)
  {
    if k == 0 {
      assert es[..0] == [];
    } else {
      assert es[1..][..k - 1] == es[1..k];
      SequenceStopsAtThrow(es[1..], k - 1);
      assert es[..k] == [es[0]] + es[1..k];
    }
  }

  /** The errors a test ends up with from one guarded run: the recorded
      expectation failures, then the exception that stopped it, if any. */
  function Failures(e: Effect): (errs: seq<JsError>)
    ensures |errs| == |e.recorded| + (if e.thrown.Some? then 1 else 0)
    ensures errs[..|e.recorded|] == e.recorded
  {
    e.recorded + (match e.thrown case Some(x) => [x] case None => [])
  }

  /** A guarded run leaves no error exactly when every effect is empty. */
  lemma {:induction false} NoFailuresIffAllPass(es: seq<Effect>)
    ensures Failures(Sequence(es)) == [] <==> forall k :: 0 <= k < |es| ==> es[k] == NoEffect
  {
    if es != [] {
      NoFailuresIffAllPass(es[1..]);
      if es[0] == NoEffect {
        assert forall k :: 0 <= k < |es[1..]| ==> es[1..][k] == es[k + 1];
      }
    }
  }

  /** For a body: it fails exactly when one of its statements records a
      failure or throws. */
  lemma BodyFailsIffSomeStepFails(steps: Body, color: string -> string)
    ensures Failures(Run(steps, color)) != [] <==>
            exists k :: 0 <= k < |steps| && StepEffect(steps[k], color) != NoEffect
  {
    NoFailuresIffAllPass(Effects(steps, Semantics(color)));
  }

  /** `fnArray.flatMap(...)` over hook lists: the statements of all hooks,
      first hook first. */
  function Flatten(hooks: seq<Body>): (r: Body)
    ensures hooks == [] ==> r == []
  {
    if hooks == [] then [] else hooks[0] + Flatten(hooks[1..])
  }

  lemma {:induction false} FlattenAppend(a: seq<Body>, b: seq<Body>)
    ensures Flatten(a + b) == Flatten(a) + Flatten(b)
  {
    if a != [] {
      assert (a + b)[1..] == a[1..] + b;
      FlattenAppend(a[1..], b);
    } else {
      assert a + b == b;
    }
  }

  /** Runs one statement on the current test. */
  method ExecStep(t: CurrentTest, s: Step, color: string -> string) returns (thrown: Option<JsError>)
    modifies t
    ensures t.errors == old(t.errors) + StepEffect(s, color).recorded
    ensures thrown == StepEffect(s, color).thrown
  {
    match s
    case Throw(err) =>
      thrown := Some(err);
    case ExpectStep(actual, matcher, args) =>
      thrown := t.Expect(actual, matcher, args, color);
  }

  /** Running a prefix of statements one statement further. */
  lemma RunSnoc(steps: Body, i: nat, color: string -> string)
    requires i < |steps|
    ensures Run(steps[..i + 1], color) == Then(Run(steps[..i], color), StepEffect(steps[i], color))
  {
    assert steps[..i + 1] == steps[..i] + [steps[i]];
    RunAppend(steps[..i], [steps[i]], color);
    assert Run([steps[i]], color) == Then(StepEffect(steps[i], color), NoEffect);
  }

  /** Once a prefix has thrown, nothing after it runs. */
  lemma RunStopsAfter(steps: Body, i: nat, color: string -> string)
    requires i <= |steps| && Run(steps[..i], color).thrown.Some?
    ensures Run(steps, color) == Run(steps[..i], color)
  {
    assert steps == steps[..i] + steps[i..];
    RunAppend(steps[..i], steps[i..], color);
  }

  /** Flattening a prefix of hooks one hook further. */
  lemma FlattenSnoc(hooks: seq<Body>, i: nat)
    requires i < |hooks|
    ensures Flatten(hooks[..i + 1]) == Flatten(hooks[..i]) + hooks[i]
  {
    assert hooks[..i + 1] == hooks[..i] + [hooks[i]];
    FlattenAppend(hooks[..i], [hooks[i]]);
    assert Flatten([hooks[i]]) == hooks[i] + Flatten([]);
  }

  /** The statements of some hooks are those of a prefix, then the rest. */
  lemma FlattenSplit(hooks: seq<Body>, i: nat)
    requires i <= |hooks|
    ensures Flatten(hooks) == Flatten(hooks[..i]) + Flatten(hooks[i..])
  {
    assert hooks == hooks[..i] + hooks[i..];
    FlattenAppend(hooks[..i], hooks[i..]);
  }

  /** Running a prefix of hooks one hook further. */
  lemma RunHooksSnoc(hooks: seq<Body>, i: nat, color: string -> string)
    requires i < |hooks|
    ensures Run(Flatten(hooks[..i + 1]), color) == Then(Run(Flatten(hooks[..i]), color), Run(hooks[i], color))
  {
    FlattenSnoc(hooks, i);
    RunAppend(Flatten(hooks[..i]), hooks[i], color);
  }

  /** Once a prefix of hooks has thrown, no later hook runs. */
  lemma RunHooksStopsAfter(hooks: seq<Body>, i: nat, color: string -> string)
    requires i <= |hooks| && Run(Flatten(hooks[..i]), color).thrown.Some?
    ensures Run(Flatten(hooks), color) == Run(Flatten(hooks[..i]), color)
  {
    FlattenSplit(hooks, i);
    RunAppend(Flatten(hooks[..i]), Flatten(hooks[i..]), color);
  }

  /** Appending is associative (given to the solver explicitly, so that
      the stateful proofs need not rediscover it element by element). */
  lemma AppendAssociative<T>(a: seq<T>, b: seq<T>, c: seq<T>)
    ensures (a + b) + c == a + (b + c)
  {
  }

  /** Calls a body or hook function: its statements in order, stopping at
      the first exception, which is returned. */
  method CallBody(t: CurrentTest, body: Body, color: string -> string) returns (thrown: Option<JsError>)
    modifies t
    ensures t.errors == old(t.errors) + Run(body, color).recorded
    ensures thrown == Run(body, color).thrown
  {
    var i := 0;
    while i < |body|
      invariant 0 <= i <= |body|
      invariant Run(body[..i], color).thrown.None?
      invariant t.errors == old(t.errors) + Run(body[..i], color).recorded
    {
      RunSnoc(body, i, color);
      AppendAssociative(old(t.errors), Run(body[..i], color).recorded, StepEffect(body[i], color).recorded);
      thrown := ExecStep(t, body[i], color);
      if thrown.Some? {
        RunStopsAfter(body, i + 1, color);
        return;
      }
      i := i + 1;
    }
    assert body[..i] == body;
    thrown := None;
  }

  /** `invokeAll`: calls every hook in order; an exception from one hook
      stops the rest and is returned. */
  method InvokeAll(t: CurrentTest, hooks: seq<Body>, color: string -> string) returns (thrown: Option<JsError>)
    modifies t
    ensures t.errors == old(t.errors) + Run(Flatten(hooks), color).recorded
    ensures thrown == Run(Flatten(hooks), color).thrown
  {
    var i := 0;
    while i < |hooks|
      invariant 0 <= i <= |hooks|
      invariant Run(Flatten(hooks[..i]), color).thrown.None?
      invariant t.errors == old(t.errors) + Run(Flatten(hooks[..i]), color).recorded
    {
      RunHooksSnoc(hooks, i, color);
      AppendAssociative(old(t.errors), Run(Flatten(hooks[..i]), color).recorded, Run(hooks[i], color).recorded);
      thrown := CallBody(t, hooks[i], color);
      if thrown.Some? {
        RunHooksStopsAfter(hooks, i + 1, color);
        return;
      }
      i := i + 1;
    }
    assert hooks[..i] == hooks;
    thrown := None;
  }

  /** What a test runs: the before hooks, the body, the after hooks. */
  function Plan(befores: seq<Body>, body: Body, afters: seq<Body>): Body {
    Flatten(befores) + body + Flatten(afters)
  }

  /** The effect of a test's plan, part by part: the body runs only if no
      before hook threw, the after hooks only if the body did not throw
      either. */
  lemma PlanEffect(befores: seq<Body>, body: Body, afters: seq<Body>, color: string -> string)
    ensures Run(Plan(befores, body, afters), color)
            == Then(Run(Flatten(befores), color), Then(Run(body, color), Run(Flatten(afters), color)))
  {
    RunAppend(Flatten(befores), body, color);
    RunAppend(Flatten(befores) + body, Flatten(afters), color);
    ThenAssociative(Run(Flatten(befores), color), Run(body, color), Run(Flatten(afters), color));
  }

  /** The errors of a guarded run of two parts: those of the first part
      alone if it threw, otherwise its recorded failures followed by the
      errors of the second part. */
  lemma FailuresThen(a: Effect, b: Effect)
    ensures Failures(Then(a, b)) == if a.thrown.Some? then Failures(a) else a.recorded + Failures(b)
  {
  }

  /** The body and then the after hooks of a test, inside its `try`. */
  method RunBodyAndAfters(t: CurrentTest, body: Body, afters: seq<Body>, color: string -> string)
    modifies t
    ensures t.errors == old(t.errors) + Failures(Then(Run(body, color), Run(Flatten(afters), color)))
  {
    ghost var ey := Run(body, color);
    ghost var ea := Run(Flatten(afters), color);
    FailuresThen(ey, ea);
    var thrown := CallBody(t, body, color);
    if thrown.Some? {
      t.errors := t.errors + [thrown.value];
      AppendAssociative(old(t.errors), ey.recorded, [thrown.value]);
      return;
    }
    thrown := InvokeAll(t, afters, color);
    AppendAssociative(old(t.errors), ey.recorded, ea.recorded);
    if thrown.Some? {
      t.errors := t.errors + [thrown.value];
      AppendAssociative(old(t.errors), ey.recorded + ea.recorded, [thrown.value]);
      AppendAssociative(ey.recorded, ea.recorded, [thrown.value]);
    }
  }

  /** The `try { befores; body; afters } catch (e) { errors.push(e) }` of
      a test: the errors recorded on the way and the exception that
      stopped it are appended to the test's errors. */
  method RunGuarded(t: CurrentTest, befores: seq<Body>, body: Body, afters: seq<Body>, color: string -> string)
    modifies t
    ensures t.errors == old(t.errors) + Failures(Run(Plan(befores, body, afters), color))
  {
    ghost var eb := Run(Flatten(befores), color);
    ghost var rest := Then(Run(body, color), Run(Flatten(afters), color));
    PlanEffect(befores, body, afters, color);
    FailuresThen(eb, rest);
    var thrown := InvokeAll(t, befores, color);
    if thrown.Some? {
      t.errors := t.errors + [thrown.value];
      AppendAssociative(old(t.errors), eb.recorded, [thrown.value]);
      return;
    }
    RunBodyAndAfters(t, body, afters, color);
    AppendAssociative(old(t.errors), eb.recorded, Failures(rest));
  }
}
