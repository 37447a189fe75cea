/**
 * Running a built tree: `runBlock` visits groups and tests depth first,
 * keeping the groups entered so far on `describeStack`; a test runs the
 * before hooks of every group on the stack, outermost first, then its
 * body, then the after hooks; the lifecycle events go to `dispatch`,
 * modelled as an event list. The pure functions say what a visit does;
 * the `Engine` class does it step by step. Tests are values here: a visit
 * returns the updated test instead of changing it in place.
 */
module Execution {
  import opened Wrappers
  import opened JsValues
  import opened Expect
  import opened Bodies
  import opened BlockTree

  /** What `dispatch` receives; the stack and nodes are the ones current
      at the time of the call. */
  datatype Event =
    | BeginningDescribe(stack: seq<Node>, group: Node)
    | SkippingDescribe(stack: seq<Node>, group: Node)
    | SkippingTest(test: Node)
    | FinishedTest(test: Node)

  /** `describeStack.flatMap(describe => describe.befores)`: the hooks of
      every group on the stack, and no others. */
  function BeforesOf(stack: seq<GroupNode>): (r: seq<Body>)
    ensures forall h :: h in r <==> exists k :: 0 <= k < |stack| && h in stack[k].befores
  {
    if stack == [] then [] else
      assert forall k :: 1 <= k < |stack| ==> stack[k] == stack[1..][k - 1];
      stack[0].befores + BeforesOf(stack[1..])
  }

  /** `describeStack.flatMap(describe => describe.afters)`: the hooks of
      every group on the stack, and no others. */
  function AftersOf(stack: seq<GroupNode>): (r: seq<Body>)
    ensures forall h :: h in r <==> exists k :: 0 <= k < |stack| && h in stack[k].afters
  {
    if stack == [] then [] else
      assert forall k :: 1 <= k < |stack| ==> stack[k] == stack[1..][k - 1];
      stack[0].afters + AftersOf(stack[1..])
  }

  /** Entering a group puts its hooks after those of the enclosing groups:
      hooks run outermost group first, for the afters as for the befores. */
  lemma {:induction false} HooksOfPush(stack: seq<GroupNode>, g: GroupNode)
    ensures BeforesOf(stack + [g]) == BeforesOf(stack) + g.befores
    ensures AftersOf(stack + [g]) == AftersOf(stack) + g.afters
  {
    if stack == [] {
      assert stack + [g] == [g];
      assert [g][1..] == [];
    } else {
      assert (stack + [g])[1..] == stack[1..] + [g];
      HooksOfPush(stack[1..], g);
    }
  }

  /** `test.skip || !test.body` is false: the test's body is run. */
  predicate Runnable(t: Node)
    requires t.Test?
  {
    !t.skip && !t.body.Missing?
  }

  /** `runIt(test)` with the stack `stack`: the test gets a copy of the
      stack; a runnable one gets the failures of its guarded run appended
      to its errors. `wrap` is `buildSharedExampleTest`. */
  function TestRun(stack: seq<GroupNode>, t: Node, wrap: Node -> Body, color: string -> string): (r: (Node, seq<Event>))
    requires t.Test?
    ensures r.0.Test?
  {
    var s := t.(describeStack := stack);
    if !Runnable(t) then (s, [SkippingTest(s)])
    else
      var d := s.(errors := s.errors + Failures(Run(Plan(BeforesOf(stack), wrap(s), AftersOf(stack)), color)));
      (d, [FinishedTest(d)])
  }

  /** `runBlock(block)`: the updated node and the events of the visit. */
  function BlockRun(stack: seq<GroupNode>, n: Node, wrap: Node -> Body, color: string -> string): (r: (Node, seq<Event>))
    ensures r.0.Test? == n.Test?
    decreases n, 2
  {
    if n.Test? then TestRun(stack, n, wrap, color) else DescribeRun(stack, n, wrap, color)
  }

  /** `runDescribe(describe)`. */
  function DescribeRun(stack: seq<GroupNode>, g: GroupNode, wrap: Node -> Body, color: string -> string): (r: (GroupNode, seq<Event>))
    ensures r.0 == g.(children := r.0.children) && |r.0.children| == |g.children|
    ensures r.1 != [] && r.1[0] == (if g.skip then SkippingDescribe(stack, g) else BeginningDescribe(stack, g))
    ensures g.skip ==> r == (g, [SkippingDescribe(stack, g)])
    decreases g, 1
  {
    if g.skip then (g, [SkippingDescribe(stack, g)])
    else
      var (cs, evs) := ChildrenRun(stack + [g], g.children, wrap, color);
      (g.(children := cs), [BeginningDescribe(stack, g)] + evs)
  }

  /** The children visited in order with the same stack. */
  function ChildrenRun(stack: seq<GroupNode>, cs: seq<Node>, wrap: Node -> Body, color: string -> string): (r: (seq<Node>, seq<Event>))
    ensures |r.0| == |cs|
    decreases cs, 0
  {
    if cs == [] then ([], [])
    else
      var (ns, evs) := ChildrenRun(stack, cs[..|cs| - 1], wrap, color);
      var (n, ev) := BlockRun(stack, cs[|cs| - 1], wrap, color);
      (ns + [n], evs + ev)
  }

  /** A skipped or bodiless test is only reported: its errors stay as they
      were, so none of its hooks ran. A runnable test is reported once,
      as finished, with the failures of its before hooks, body and after
      hooks, in that order, up to the first exception. */
  lemma TestRunEvents(stack: seq<GroupNode>, t: Node, wrap: Node -> Body, color: string -> string)
    requires t.Test?
    ensures var (d, evs) := TestRun(stack, t, wrap, color);
            && d == t.(describeStack := stack, errors := d.errors)
            && (!Runnable(t) ==> d.errors == t.errors && evs == [SkippingTest(d)])
            && (Runnable(t) ==>
                  evs == [FinishedTest(d)]
                  && d.errors == t.errors + Failures(Then(Run(Flatten(BeforesOf(stack)), color),
                                                         Then(Run(wrap(t.(describeStack := stack)), color),
                                                              Run(Flatten(AftersOf(stack)), color)))))
  {
    PlanEffect(BeforesOf(stack), wrap(t.(describeStack := stack)), AftersOf(stack), color);
  }

  /** Is `e` the report of a test that ended with errors? */
  predicate FailedEvent(e: Event) {
    e.FinishedTest? && e.test.Test? && |e.test.errors| > 0
  }

  predicate SomeFailedEvent(evs: seq<Event>) {
    exists k :: 0 <= k < |evs| && FailedEvent(evs[k])
  }

  lemma SomeFailedEventAppend(a: seq<Event>, b: seq<Event>)
    ensures SomeFailedEvent(a + b) <==> SomeFailedEvent(a) || SomeFailedEvent(b)
  {
    if SomeFailedEvent(a + b) {
      var k :| 0 <= k < |a + b| && FailedEvent((a + b)[k]);
      if k >= |a| {
        assert b[k - |a|] == (a + b)[k];
      }
    }
    if SomeFailedEvent(a) {
      var k :| 0 <= k < |a| && FailedEvent(a[k]);
      assert (a + b)[k] == a[k];
    }
    if SomeFailedEvent(b) {
      var k :| 0 <= k < |b| && FailedEvent(b[k]);
      assert (a + b)[|a| + k] == b[k];
    }
  }

  predicate SomeFailed(ns: seq<Node>) {
    exists i :: 0 <= i < |ns| && AnyFailed(ns[i])
  }

  lemma SomeFailedAppend(a: seq<Node>, n: Node)
    ensures SomeFailed(a + [n]) <==> SomeFailed(a) || AnyFailed(n)
  {
    if SomeFailed(a + [n]) {
      var i :| 0 <= i < |a + [n]| && AnyFailed((a + [n])[i]);
      if i < |a| {
        assert a[i] == (a + [n])[i];
      }
    }
    if SomeFailed(a) {
      var i :| 0 <= i < |a| && AnyFailed(a[i]);
      assert (a + [n])[i] == a[i];
    }
    assert (a + [n])[|a|] == n;
  }

  /** On a clean tree `anyFailed` of the result agrees with the events:
      some test failed exactly when a `finishedTest` event reported a test
      with errors. */
  lemma {:induction false} BlockRunFailedIffFailedEvent(stack: seq<GroupNode>, n: Node, wrap: Node -> Body, color: string -> string)
    requires Clean(n)
    ensures AnyFailed(BlockRun(stack, n, wrap, color).0) <==> SomeFailedEvent(BlockRun(stack, n, wrap, color).1)
    decreases n, 2
  {
    if n.Test? {
      var (d, evs) := TestRun(stack, n, wrap, color);
      assert evs[0] in evs;
    } else if n.skip {
      CleanHasNotFailed(n);
    } else {
      var (cs, evs) := ChildrenRun(stack + [n], n.children, wrap, color);
      ChildrenRunFailedIffFailedEvent(stack + [n], n.children, wrap, color);
      SomeFailedEventAppend([BeginningDescribe(stack, n)], evs);
      assert !FailedEvent(BeginningDescribe(stack, n));
    }
  }

  lemma {:induction false} ChildrenRunFailedIffFailedEvent(stack: seq<GroupNode>, cs: seq<Node>, wrap: Node -> Body, color: string -> string)
    requires forall i :: 0 <= i < |cs| ==> Clean(cs[i])
    ensures SomeFailed(ChildrenRun(stack, cs, wrap, color).0) <==> SomeFailedEvent(ChildrenRun(stack, cs, wrap, color).1)
    decreases cs, 0
  {
    if cs != [] {
      var front := cs[..|cs| - 1];
      var (ns, evs) := ChildrenRun(stack, front, wrap, color);
      var (n, ev) := BlockRun(stack, cs[|cs| - 1], wrap, color);
      assert forall i :: 0 <= i < |front| ==> front[i] == cs[i];
      ChildrenRunFailedIffFailedEvent(stack, front, wrap, color);
      BlockRunFailedIffFailedEvent(stack, cs[|cs| - 1], wrap, color);
      SomeFailedAppend(ns, n);
      SomeFailedEventAppend(evs, ev);
    }
  }

  /** The nodes a depth-first walk visits: every test, every group whose
      parent is visited, but nothing below a skipped group. */
  function Visits(n: Node): nat
    decreases n, 1
  {
    match n
    case Test(_, _, _, _, _, _, _, _) => 1
    case Group(_, _, _, _, _, _, children) => if n.skip then 1 else 1 + VisitsOf(children)
  }

  function VisitsOf(cs: seq<Node>): nat
    decreases cs, 0
  {
    if cs == [] then 0 else Visits(cs[0]) + VisitsOf(cs[1..])
  }

  lemma {:induction false} VisitsOfAppend(a: seq<Node>, n: Node)
    ensures VisitsOf(a + [n]) == VisitsOf(a) + Visits(n)
  {
    if a == [] {
      assert a + [n] == [n];
      assert [n][1..] == [];
    } else {
      assert (a + [n])[1..] == a[1..] + [n];
      VisitsOfAppend(a[1..], n);
    }
  }

  /** Every visit dispatches exactly one event. */
  lemma {:induction false} OneEventPerVisit(stack: seq<GroupNode>, n: Node, wrap: Node -> Body, color: string -> string)
    ensures |BlockRun(stack, n, wrap, color).1| == Visits(n)
    decreases n, 2
  {
    if n.Group? && !n.skip {
      ChildrenOneEventPerVisit(stack + [n], n.children, wrap, color);
    }
  }

  lemma {:induction false} ChildrenOneEventPerVisit(stack: seq<GroupNode>, cs: seq<Node>, wrap: Node -> Body, color: string -> string)
    ensures |ChildrenRun(stack, cs, wrap, color).1| == VisitsOf(cs)
    decreases cs, 0
  {
    if cs != [] {
      var front := cs[..|cs| - 1];
      assert cs == front + [cs[|cs| - 1]];
      ChildrenOneEventPerVisit(stack, front, wrap, color);
      OneEventPerVisit(stack, cs[|cs| - 1], wrap, color);
      VisitsOfAppend(front, cs[|cs| - 1]);
    }
  }

  /** A run changes nothing but the tests' errors, which it only extends,
      and their `describeStack`; groups keep their data and their
      children, in order. */
  predicate Evolves(a: Node, b: Node)
    decreases a
  {
    match a
    case Test(_, _, _, _, _, _, _, _) =>
      b.Test? && b == a.(errors := b.errors, describeStack := b.describeStack)
      && |a.errors| <= |b.errors| && b.errors[..|a.errors|] == a.errors
    case Group(_, _, _, _, _, _, children) =>
      b.Group? && b == a.(children := b.children) && |b.children| == |children|
      && forall i :: 0 <= i < |children| ==> Evolves(children[i], b.children[i])
  }

  lemma {:induction false} EvolvesReflexive(n: Node)
    ensures Evolves(n, n)
    decreases n
  {
    match n
    case Test(_, _, _, _, _, _, errors, _) =>
      assert errors[..|errors|] == errors;
    case Group(_, _, _, _, _, _, children) =>
      forall i | 0 <= i < |children|
        ensures Evolves(children[i], children[i])
      {
        EvolvesReflexive(children[i]);
      }
  }

  lemma {:induction false} BlockRunEvolves(stack: seq<GroupNode>, n: Node, wrap: Node -> Body, color: string -> string)
    ensures Evolves(n, BlockRun(stack, n, wrap, color).0)
    decreases n, 2
  {
    if n.Test? {
      var d := TestRun(stack, n, wrap, color).0;
      assert d.errors[..|n.errors|] == n.errors;
    } else if !n.skip {
      var cs := ChildrenRun(stack + [n], n.children, wrap, color).0;
      ChildrenRunEvolves(stack + [n], n.children, wrap, color);
    } else {
      EvolvesReflexive(n);
    }
  }

  lemma {:induction false} ChildrenRunEvolves(stack: seq<GroupNode>, cs: seq<Node>, wrap: Node -> Body, color: string -> string)
    ensures forall i :: 0 <= i < |cs| ==> Evolves(cs[i], ChildrenRun(stack, cs, wrap, color).0[i])
    decreases cs, 0
  {
    if cs != [] {
      var front := cs[..|cs| - 1];
      var (ns, evs) := ChildrenRun(stack, front, wrap, color);
      var (n, ev) := BlockRun(stack, cs[|cs| - 1], wrap, color);
      ChildrenRunEvolves(stack, front, wrap, color);
      BlockRunEvolves(stack, cs[|cs| - 1], wrap, color);
      assert forall i :: 0 <= i < |front| ==> front[i] == cs[i] && (ns + [n])[i] == ns[i];
    }
  }

  /** The engine's module-level state: the stack of groups entered and the
      events dispatched so far. */
  class Engine {
    var describeStack: seq<GroupNode>
    var events: seq<Event>
    /** `buildSharedExampleTest`, which gives the function a test runs. */
    const wrap: Node -> Body
    const color: string -> string

    constructor(wrap: Node -> Body, color: string -> string)
      ensures describeStack == [] && events == []
      ensures this.wrap == wrap && this.color == color
    {
      describeStack := [];
      events := [];
      this.wrap := wrap;
      this.color := color;
    }

    /** `runIt(test)`; the test's errors live in the current test while
        its hooks and body run. */
    method RunIt(test: Node) returns (done: Node)
      requires test.Test?
      modifies this
      ensures describeStack == old(describeStack)
      ensures done == TestRun(old(describeStack), test, wrap, color).0
      ensures events == old(events) + TestRun(old(describeStack), test, wrap, color).1
    {
      var t := test.(describeStack := describeStack);
      if t.skip || t.body.Missing? {
        events := events + [SkippingTest(t)];
        return t;
      }
      var body := wrap(t);
      var current := new CurrentTest(t.errors);
      RunGuarded(current, BeforesOf(describeStack), body, AftersOf(describeStack), color);
      done := t.(errors := current.errors);
      events := events + [FinishedTest(done)];
    }

    /** `runDescribe(describe)`: a skipped group is only reported; any
        other one is reported, pushed, its children run in order, and
        popped again. */
    method RunDescribe(g: GroupNode) returns (done: GroupNode)
      modifies this
      ensures describeStack == old(describeStack)
      ensures done == DescribeRun(old(describeStack), g, wrap, color).0
      ensures events == old(events) + DescribeRun(old(describeStack), g, wrap, color).1
      decreases g, 1
    {
      if g.skip {
        events := events + [SkippingDescribe(describeStack, g)];
        return g;
      }
      events := events + [BeginningDescribe(describeStack, g)];
      ghost var stack := describeStack;
      ghost var begun := events;
      describeStack := describeStack + [g];
      var cs: seq<Node> := [];
      var i := 0;
      while i < |g.children|
        invariant 0 <= i <= |g.children|
        invariant describeStack == stack + [g]
        invariant cs == ChildrenRun(stack + [g], g.children[..i], wrap, color).0
        invariant events == begun + ChildrenRun(stack + [g], g.children[..i], wrap, color).1
      {
        assert g.children[..i + 1][..i] == g.children[..i];
        AppendAssociative(begun, ChildrenRun(stack + [g], g.children[..i], wrap, color).1,
                          BlockRun(stack + [g], g.children[i], wrap, color).1);
        var c := RunBlock(g.children[i]);
        cs := cs + [c];
        i := i + 1;
      }
      assert g.children[..i] == g.children;
      AppendAssociative(old(events), [BeginningDescribe(stack, g)], ChildrenRun(stack + [g], g.children, wrap, color).1);
      describeStack := describeStack[..|describeStack| - 1];
      assert describeStack == stack;
      done := g.(children := cs);
    }

    /** `runBlock(block)`: `isIt` picks the visit. */
    method RunBlock(n: Node) returns (done: Node)
      modifies this
      ensures describeStack == old(describeStack)
      ensures done == BlockRun(old(describeStack), n, wrap, color).0
      ensures events == old(events) + BlockRun(old(describeStack), n, wrap, color).1
      decreases n, 2
    {
      if n.Test? {
        done := RunIt(n);
      } else {
        done := RunDescribe(n);
      }
    }

    /** `runParsedBlocks`: the three filters are applied to the built
        tree, the filtered root's children are run (the root itself is
        never visited, so its own hooks never run), and `anyFailed` of the
        run tree is the verdict. */
    method RunParsedBlocks(root: GroupNode, focusedOnly: GroupNode -> GroupNode,
                           taggedOnly: GroupNode -> GroupNode, randomizeBlocks: GroupNode -> GroupNode)
      returns (failed: bool, ran: GroupNode)
      modifies this
      ensures describeStack == old(describeStack)
      ensures var filtered := randomizeBlocks(taggedOnly(focusedOnly(root)));
              var r := ChildrenRun(old(describeStack), filtered.children, wrap, color);
              && ran == filtered.(children := r.0)
              && events == old(events) + r.1
      ensures failed == AnyFailed(ran)
    {
      var filtered := focusedOnly(root);
      filtered := taggedOnly(filtered);
      filtered := randomizeBlocks(filtered);
      ghost var start := events;
      var cs: seq<Node> := [];
      var i := 0;
      while i < |filtered.children|
        invariant 0 <= i <= |filtered.children|
        invariant describeStack == old(describeStack)
        invariant cs == ChildrenRun(old(describeStack), filtered.children[..i], wrap, color).0
        invariant events == start + ChildrenRun(old(describeStack), filtered.children[..i], wrap, color).1
      {
        assert filtered.children[..i + 1][..i] == filtered.children[..i];
        AppendAssociative(start, ChildrenRun(old(describeStack), filtered.children[..i], wrap, color).1,
                          BlockRun(old(describeStack), filtered.children[i], wrap, color).1);
        var c := RunBlock(filtered.children[i]);
        cs := cs + [c];
        i := i + 1;
      }
      assert filtered.children[..i] == filtered.children;
      ran := filtered.(children := cs);
      failed := AnyFailed(ran);
    }
  }

  /** The verdict of `runParsedBlocks` on a clean filtered tree: true
      exactly when a `finishedTest` event reported a test with errors. */
  lemma ParsedBlocksFailedIffFailedEvent(stack: seq<GroupNode>, filtered: GroupNode, wrap: Node -> Body, color: string -> string)
    requires Clean(filtered)
    ensures var r := ChildrenRun(stack, filtered.children, wrap, color);
            AnyFailed(filtered.(children := r.0)) <==> SomeFailedEvent(r.1)
  {
    ChildrenRunFailedIffFailedEvent(stack, filtered.children, wrap, color);
  }
}
