/**
 * Building the tree: `describe`, `it`, `beforeEach` and `afterEach`
 * replace the current group, the one whose body is being run. The pure
 * functions say what a statement or a body does to the current group; the
 * `Builder` class does it step by step on its `current` field.
 */
module TreeBuilder {
  import opened Wrappers
  import opened JsValues
  import opened Bodies
  import opened BlockTree

  /** The statements of a function passed to `describe` (or of a test
      file at top level) that build the tree. */
  datatype Script = Script(cmds: seq<Cmd>)

  datatype Cmd =
    | Describe(name: string, ext: Ext, groupArgs: seq<Arg<Script>>)  // describe / describe.only / describe.skip
    | It(name: string, ext: Ext, testArgs: seq<Arg<Body>>)           // it / it.only / it.skip
    | BeforeEach(hook: Body)
    | AfterEach(hook: Body)
    | Raise(error: JsError)                                     // a throw in the describe body

  /* Sizes of statements and bodies, the measure by which building a
     nested body terminates. */

  function CmdSize(c: Cmd): (r: nat)
    ensures r >= 1
    ensures c.Describe? ==> forall a :: a in c.groupArgs ==> r > ArgSize(a)
  {
    match c
    case Describe(_, _, args) => 1 + ArgsSize(args)
    case _ => 1
  }

  function ArgsSize(args: seq<Arg<Script>>): (r: nat)
    ensures forall a :: a in args ==> r >= ArgSize(a)
  {
    if args == [] then 0 else ArgSize(args[0]) + ArgsSize(args[1..])
  }

  function ArgSize(a: Arg<Script>): nat {
    match a
    case Function(s) => 1 + ScriptSize(s)
    case _ => 0
  }

  function ScriptSize(s: Script): (r: nat)
    ensures forall c :: c in s.cmds ==> r > CmdSize(c)
  {
    1 + CmdsSize(s.cmds)
  }

  function CmdsSize(cs: seq<Cmd>): (r: nat)
    ensures forall c :: c in cs ==> r >= CmdSize(c)
  {
    if cs == [] then 0 else CmdSize(cs[0]) + CmdsSize(cs[1..])
  }

  function AppendChild(g: GroupNode, c: Node): (r: GroupNode)
    ensures r.children == g.children + [c]
  {
    g.(children := g.children + [c])
  }

  /** The group `parseDescribe` opens: `skip` is whether the body is
      undefined, unless the options say otherwise. */
  function Opened(name: string, body: Arg<Script>, options: Opts): (c: GroupNode)
    ensures c.name == name && c.children == [] && c.befores == [] && c.afters == []
    ensures c.skip == options.skip.GetOr(body.Missing?)
    ensures c.focus == options.focus.GetOr(false)
  {
    MakeDescribe(name, Merge(NoOpts.(skip := Some(body.Missing?)), options))
  }

  /** `parseDescribe(name, body, options)` run on the current group `g`:
      the new group becomes current while its body runs, then the parent
      comes back with the finished group appended. When the body throws,
      the exception escapes and no parent comes back. */
  function BuildDescribe(g: GroupNode, name: string, body: Arg<Script>, options: Opts): (r: (GroupNode, Option<JsError>))
    decreases ArgSize(body), 1
  {
    var child := Opened(name, body, options);
    match body
    case Missing => (AppendChild(g, child), None)
    case Object(_) => (child, Some(NotAFunction))
    case Function(s) =>
      var (c, err) := BuildAll(child, s, 0);
      if err.Some? then (c, err) else (AppendChild(g, c), None)
  }

  /** One statement run on the current group `g`. */
  function BuildCmd(g: GroupNode, cmd: Cmd): (r: (GroupNode, Option<JsError>))
    ensures cmd.It? ==> r == (AppendChild(g, MakeTest(cmd.name, Call(cmd.ext, cmd.testArgs).0, Call(cmd.ext, cmd.testArgs).1)), None)
    ensures cmd.BeforeEach? ==> r == (g.(befores := g.befores + [cmd.hook]), None)
    ensures cmd.AfterEach? ==> r == (g.(afters := g.afters + [cmd.hook]), None)
    ensures cmd.Raise? ==> r == (g, Some(cmd.error))
    decreases CmdSize(cmd), 2
  {
    match cmd
    case Describe(name, ext, args) =>
      var (body, opts) := Call(ext, args);
      BuildDescribe(g, name, body, opts)
    case It(name, ext, args) =>
      var (body, opts) := Call(ext, args);
      (AppendChild(g, MakeTest(name, body, opts)), None)
    case BeforeEach(h) => (g.(befores := g.befores + [h]), None)
    case AfterEach(h) => (g.(afters := g.afters + [h]), None)
    case Raise(e) => (g, Some(e))
  }

  /** The statements of `s` from index `i` on, up to the first throw. */
  function BuildAll(g: GroupNode, s: Script, i: nat): (r: (GroupNode, Option<JsError>))
    requires i <= |s.cmds|
    decreases ScriptSize(s), 0, |s.cmds| - i
  {
    if i == |s.cmds| then (g, None)
    else
      var (g', err) := BuildCmd(g, s.cmds[i]);
      if err.Some? then (g', err) else BuildAll(g', s, i + 1)
  }

  /** `parseDescribe` returns the parent with exactly the finished group
      appended at the end of its children and its other fields unchanged;
      that group has the given name and its `skip` and `focus` flags come
      from the options, `skip` defaulting to whether the body is absent. */
  lemma DescribeAppendsChild(g: GroupNode, name: string, body: Arg<Script>, options: Opts)
    requires BuildDescribe(g, name, body, options).1.None?
    ensures var r := BuildDescribe(g, name, body, options).0;
            |r.children| == |g.children| + 1
            && r == g.(children := g.children + [r.children[|g.children|]])
            && r.children[|g.children|].Group?
            && r.children[|g.children|].name == name
            && r.children[|g.children|].skip == options.skip.GetOr(body.Missing?)
            && r.children[|g.children|].focus == options.focus.GetOr(false)
    decreases ArgSize(body), 1
  {
    var child := Opened(name, body, options);
    match body
    case Missing =>
    case Object(_) =>
    case Function(s) =>
      var (c, err) := BuildAll(child, s, 0);
      BuildAllExtends(child, s, 0);
  }

  /** A `describe` without a body runs nothing: it appends an empty group,
      skipped unless the options say otherwise. */
  lemma BodilessDescribeIsSkipped(g: GroupNode, name: string, options: Opts)
    ensures BuildDescribe(g, name, Missing, options)
            == (AppendChild(g, Opened(name, Missing, options)), None)
    ensures Opened(name, Missing, options).skip == options.skip.GetOr(true)
  {
  }

  /** An options object in the body's place throws after the new group
      became current: the current group is then that new, empty group. */
  lemma ObjectBodyThrows(g: GroupNode, name: string, o: Opts, options: Opts)
    ensures BuildDescribe(g, name, Object(o), options).1 == Some(NotAFunction)
    ensures BuildDescribe(g, name, Object(o), options).0 == Opened(name, Object(o), options)
  {
  }

  /** The parent's data is kept and only appended to. */
  predicate Extends(g: GroupNode, r: GroupNode) {
    r.name == g.name && r.skip == g.skip && r.focus == g.focus && r.tags == g.tags
    && |g.befores| <= |r.befores| && r.befores[..|g.befores|] == g.befores
    && |g.afters| <= |r.afters| && r.afters[..|g.afters|] == g.afters
    && |g.children| <= |r.children| && r.children[..|g.children|] == g.children
  }

  lemma ExtendsTransitive(a: GroupNode, b: GroupNode, c: GroupNode)
    requires Extends(a, b) && Extends(b, c)
    ensures Extends(a, c)
  {
    assert c.befores[..|a.befores|] == c.befores[..|b.befores|][..|a.befores|];
    assert c.afters[..|a.afters|] == c.afters[..|b.afters|][..|a.afters|];
    assert c.children[..|a.children|] == c.children[..|b.children|][..|a.children|];
  }

  /** The number of statements in `cmds` that add a child. */
  function BlockCount(cmds: seq<Cmd>): nat {
    if cmds == [] then 0
    else (if cmds[0].Describe? || cmds[0].It? then 1 else 0) + BlockCount(cmds[1..])
  }

  /** A body that completes keeps everything the group had and adds one
      child per `describe` and `it` it ran, in order after the existing
      ones. */
  lemma {:induction false} BuildAllExtends(g: GroupNode, s: Script, i: nat)
    requires i <= |s.cmds|
    requires BuildAll(g, s, i).1.None?
    ensures Extends(g, BuildAll(g, s, i).0)
    ensures |BuildAll(g, s, i).0.children| == |g.children| + BlockCount(s.cmds[i..])
    decreases ScriptSize(s), 0, |s.cmds| - i
  {
    if i < |s.cmds| {
      var (g', err) := BuildCmd(g, s.cmds[i]);
      var cmd := s.cmds[i];
      assert s.cmds[i..][1..] == s.cmds[i + 1..];
      if cmd.Describe? {
        var (body, opts) := Call(cmd.ext, cmd.groupArgs);
        assert cmd in s.cmds && ArgSize(body) < CmdSize(cmd);
        DescribeAppendsChild(g, cmd.name, body, opts);
      }
      assert Extends(g, g');
      assert |g'.children| == |g.children| + (if cmd.Describe? || cmd.It? then 1 else 0);
      BuildAllExtends(g', s, i + 1);
      ExtendsTransitive(g, g', BuildAll(g', s, i + 1).0);
    }
  }

  lemma AppendChildClean(g: GroupNode, c: Node)
    requires Clean(g) && Clean(c)
    ensures Clean(AppendChild(g, c))
  {
    var r := AppendChild(g, c);
    assert forall i :: 0 <= i < |g.children| ==> r.children[i] == g.children[i];
    assert r.children[|g.children|] == c;
  }

  /** Every tree the builder makes, complete or cut short by a throw, has
      no errors on any test: `makeTest` always starts from an empty list. */
  lemma {:induction false} DescribeKeepsClean(g: GroupNode, name: string, body: Arg<Script>, options: Opts)
    requires Clean(g)
    ensures Clean(BuildDescribe(g, name, body, options).0)
    decreases ArgSize(body), 1
  {
    var child := Opened(name, body, options);
    assert Clean(child);
    match body
    case Missing => AppendChildClean(g, child);
    case Object(_) =>
    case Function(s) =>
      var (c, err) := BuildAll(child, s, 0);
      BuildAllKeepsClean(child, s, 0);
      if err.None? {
        AppendChildClean(g, c);
      }
  }

  lemma {:induction false} BuildAllKeepsClean(g: GroupNode, s: Script, i: nat)
    requires i <= |s.cmds|
    requires Clean(g)
    ensures Clean(BuildAll(g, s, i).0)
    decreases ScriptSize(s), 0, |s.cmds| - i
  {
    if i < |s.cmds| {
      var cmd := s.cmds[i];
      var (g', err) := BuildCmd(g, cmd);
      match cmd {
        case Describe(name, ext, args) =>
          var (body, opts) := Call(ext, args);
          assert cmd in s.cmds && ArgSize(body) < CmdSize(cmd);
          DescribeKeepsClean(g, name, body, opts);
        case It(name, ext, args) =>
          var (body, opts) := Call(ext, args);
          AppendChildClean(g, MakeTest(name, body, opts));
        case BeforeEach(_) =>
        case AfterEach(_) =>
        case Raise(_) =>
      }
      if err.None? {
        BuildAllKeepsClean(g', s, i + 1);
      }
    }
  }

  /** The current group of a test file, replaced by every statement. */
  class Builder {
    var current: GroupNode

    /** The root group a file starts from. */
    constructor()
      ensures current == MakeDescribe("root", NoOpts)
    {
      current := MakeDescribe("root", NoOpts);
    }

    method ParseDescribe(name: string, body: Arg<Script>, options: Opts) returns (thrown: Option<JsError>)
      modifies this
      ensures (current, thrown) == BuildDescribe(old(current), name, body, options)
      decreases ArgSize(body), 1
    {
      var parent := current;
      current := Opened(name, body, options);
      match body {
        case Missing =>
        case Object(_) =>
          thrown := Some(NotAFunction);
          return;
        case Function(s) =>
          thrown := RunBody(s);
          if thrown.Some? {
            return;
          }
      }
      current := AppendChild(parent, current);
      thrown := None;
    }

    method ParseIt(name: string, body: Arg<Body>, options: Opts)
      modifies this
      ensures current == AppendChild(old(current), MakeTest(name, body, options))
    {
      current := current.(children := current.children + [MakeTest(name, body, options)]);
    }

    method BeforeEach(hook: Body)
      modifies this
      ensures current == old(current).(befores := old(current).befores + [hook])
    {
      current := current.(befores := current.befores + [hook]);
    }

    method AfterEach(hook: Body)
      modifies this
      ensures current == old(current).(afters := old(current).afters + [hook])
    {
      current := current.(afters := current.afters + [hook]);
    }

    /** One statement of a describe body or test file. */
    method Exec(cmd: Cmd) returns (thrown: Option<JsError>)
      modifies this
      ensures (current, thrown) == BuildCmd(old(current), cmd)
      decreases CmdSize(cmd), 2
    {
      thrown := None;
      match cmd {
        case Describe(name, ext, args) =>
          var (body, opts) := Call(ext, args);
          thrown := ParseDescribe(name, body, opts);
        case It(name, ext, args) =>
          var (body, opts) := Call(ext, args);
          ParseIt(name, body, opts);
        case BeforeEach(h) => BeforeEach(h);
        case AfterEach(h) => AfterEach(h);
        case Raise(e) => thrown := Some(e);
      }
    }

    /** Runs a describe body (or a test file) statement by statement; the
        first exception stops it and is returned. */
    method RunBody(s: Script) returns (thrown: Option<JsError>)
      modifies this
      ensures (current, thrown) == BuildAll(old(current), s, 0)
      decreases ScriptSize(s), 0
    {
      var i := 0;
      while i < |s.cmds|
        invariant 0 <= i <= |s.cmds|
        invariant BuildAll(old(current), s, 0) == BuildAll(current, s, i)
      {
        thrown := Exec(s.cmds[i]);
        if thrown.Some? {
          return;
        }
        i := i + 1;
      }
      thrown := None;
    }
  }
}
