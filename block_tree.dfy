/**
 * The tree a test file builds: groups made by `describe`, tests made by
 * `it`, the options objects they take, the argument sniffing of
 * `describe`/`it` and their `.only`/`.skip` variants, and `anyFailed`.
 */
module BlockTree {
  import opened Wrappers
  import opened JsValues
  import opened Bodies

  /** The keys of an options object the framework reads; None is an
      absent key. */
  datatype Opts = Opts(
    skip: Option<bool>,
    focus: Option<bool>,
    tags: Option<seq<string>>,
    name: Option<string>,
    timeoutError: Option<nat>,  // what matters of a TestTimeoutError: its delay in milliseconds
    errors: Option<seq<JsError>>)

  const NoOpts := Opts(None, None, None, None, None, None)

  /** `{ ...a, ...b }`: a key present in `b` wins. */
  function Merge(a: Opts, b: Opts): Opts {
    Opts(
      if b.skip.Some? then b.skip else a.skip,
      if b.focus.Some? then b.focus else a.focus,
      if b.tags.Some? then b.tags else a.tags,
      if b.name.Some? then b.name else a.name,
      if b.timeoutError.Some? then b.timeoutError else a.timeoutError,
      if b.errors.Some? then b.errors else a.errors)
  }

  /** Spreading is associative and the empty object is neutral, so a
      chain of spreads is the spread of the chain. */
  lemma MergeMonoid(a: Opts, b: Opts, c: Opts)
    ensures Merge(Merge(a, b), c) == Merge(a, Merge(b, c))
    ensures Merge(NoOpts, a) == a && Merge(a, NoOpts) == a
  {
  }

  /** An argument of `describe` or `it`: absent, a function, or an
      options object. */
  datatype Arg<B> = Missing | Function(body: B) | Object(opts: Opts)

  /** `{ ...x }` of an argument: a function and undefined add no keys. */
  function Spread<B>(a: Arg<B>): (o: Opts)
    ensures !a.Object? ==> o == NoOpts
  {
    match a
    case Object(o) => o
    case _ => NoOpts
  }

  /** Argument `i` of a call; a missing one is undefined. */
  function ArgAt<B>(args: seq<Arg<B>>, i: nat): (a: Arg<B>)
    ensures i < |args| ==> a == args[i]
    ensures i >= |args| ==> a == Missing
  {
    if i < |args| then args[i] else Missing
  }

  /** `describeWithOpts` and `itWithOpts`: when the first argument after
      the name is a function it is the body and the next two are spread
      as options; otherwise the first is the user's options and the second
      the body. Returns the body and the merged options. */
  function WithOpts<B>(a1: Arg<B>, a2: Arg<B>, a3: Arg<B>): (r: (Arg<B>, Opts))
    ensures a1.Function? ==> r.0 == a1 && r.1 == Merge(Spread(a2), Spread(a3))
    ensures !a1.Function? ==> r.0 == a2 && r.1 == Merge(Spread(a1), Spread(a3))
  {
    if a1.Function? then (a1, Merge(Spread(a2), Spread(a3)))
    else (a2, Merge(Spread(a1), Spread(a3)))
  }

  /** Which variant was called: `describe`/`it`, `.only` or `.skip`. */
  datatype Ext = Plain | Only | Skip

  /** The options an extension adds. */
  function ExtOpts(ext: Ext): (o: Opts)
    ensures ext == Only ==> o.focus == Some(true)
    ensures ext == Skip ==> o.skip == Some(true)
  {
    match ext
    case Plain => NoOpts
    case Only => NoOpts.(focus := Some(true))
    case Skip => NoOpts.(skip := Some(true))
  }

  /** The three arguments after the name that the variant passes on, as
      the code has it: the plain form passes the user's first two and an
      empty object; an extension appends its options after however many
      arguments the user gave. */
  function ForwardedAsWritten<B>(ext: Ext, args: seq<Arg<B>>): (r: (Arg<B>, Arg<B>, Arg<B>))
    ensures ext == Plain ==> r == Forwarded(ext, args)
    ensures ext != Plain && |args| < 3 ==> [r.0, r.1, r.2][|args|] == Object(ExtOpts(ext))
    ensures ext != Plain && |args| >= 3 ==> r.2 == args[2]
  {
    if ext == Plain then (ArgAt(args, 0), ArgAt(args, 1), Object(NoOpts))
    else
      var full := args + [Object(ExtOpts(ext))];
      (ArgAt(full, 0), ArgAt(full, 1), ArgAt(full, 2))
  }

  /** As intended: the extension's options always arrive in the last
      slot, where they are spread last. */
  function Forwarded<B>(ext: Ext, args: seq<Arg<B>>): (r: (Arg<B>, Arg<B>, Arg<B>))
    ensures r.0 == ArgAt(args, 0) && r.1 == ArgAt(args, 1) && r.2 == Object(ExtOpts(ext))
  {
    (ArgAt(args, 0), ArgAt(args, 1), Object(ExtOpts(ext)))
  }

  /** The body and options a call resolves to, as written. */
  function CallAsWritten<B>(ext: Ext, args: seq<Arg<B>>): (r: (Arg<B>, Opts))
    ensures r.0 == Missing || r.0 in args || r.0 == Object(ExtOpts(ext))
  {
    var f := ForwardedAsWritten(ext, args);
    WithOpts(f.0, f.1, f.2)
  }

  /** The body and options a call resolves to, as intended. */
  function Call<B>(ext: Ext, args: seq<Arg<B>>): (r: (Arg<B>, Opts))
    ensures r.0 == Missing || r.0 in args
  {
    var f := Forwarded(ext, args);
    WithOpts(f.0, f.1, f.2)
  }

  /** Extension options win over any user options, for every argument
      shape: `.only` always focuses and `.skip` always skips. */
  lemma ExtensionWins<B>(ext: Ext, args: seq<Arg<B>>)
    ensures ext == Only ==> Call(ext, args).1.focus == Some(true)
    ensures ext == Skip ==> Call(ext, args).1.skip == Some(true)
  {
  }

  /** The two documented shapes, `(body)` and `(options, body)`, and no
      arguments at all resolve the same as written and as intended. */
  lemma {:induction false} AsWrittenAgreesOnDocumentedShapes<B>(ext: Ext, opts: Opts, body: B)
    ensures CallAsWritten<B>(ext, []) == Call<B>(ext, [])
    ensures CallAsWritten(ext, [Function(body)]) == Call(ext, [Function(body)])
    ensures CallAsWritten(ext, [Object(opts), Function(body)]) == Call(ext, [Object(opts), Function(body)])
  {
    MergeMonoid(opts, NoOpts, NoOpts);
    MergeMonoid(NoOpts, ExtOpts(ext), NoOpts);
  }

  /** `.skip(name, options)` without a body, as written: the extension's
      options take the body's place, so the call resolves to a body that is
      an object and the user's options only, which do not skip. */
  lemma SkipWithOptionsAsWritten<B>(opts: Opts)
    requires opts.skip.None?
    ensures CallAsWritten<B>(Skip, [Object(opts)]) == (Object(ExtOpts(Skip)), opts)
    ensures CallAsWritten<B>(Skip, [Object(opts)]).1.skip.None?
  {
    MergeMonoid(opts, NoOpts, NoOpts);
  }

  /** A node of the tree. `isIt` tells them apart by the `body` key, which
      only tests have, even when its value is undefined. */
  datatype Node =
    | Group(name: string, skip: bool, focus: bool, tags: Option<seq<string>>,
            befores: seq<Body>, afters: seq<Body>, children: seq<Node>)
    | Test(name: string, body: Arg<Body>, skip: bool, focus: bool, tags: Option<seq<string>>,
           timeoutError: nat, errors: seq<JsError>, describeStack: seq<Node>)

  type GroupNode = n: Node | n.Group? witness Group("", false, false, None, [], [], [])

  /** `makeDescribe(name, options)`: the options' keys, then the name and
      empty hook and child lists, which override any such keys. */
  function MakeDescribe(name: string, options: Opts): (g: GroupNode)
    ensures g.name == name && g.befores == [] && g.afters == [] && g.children == []
    ensures g.skip == options.skip.GetOr(false) && g.focus == options.focus.GetOr(false) && g.tags == options.tags
  {
    Group(name, options.skip.GetOr(false), options.focus.GetOr(false), options.tags, [], [], [])
  }

  /** The default timeout of a test, in milliseconds. */
  const DefaultTimeoutMillis: nat := 5000

  /** `makeTest(name, body, options)`: the options' keys override the name,
      then the errors list and the timeout are reset whatever the options
      said. */
  function MakeTest(name: string, body: Arg<Body>, options: Opts): (t: Node)
    ensures t.Test? && t.body == body && t.errors == [] && t.timeoutError == DefaultTimeoutMillis
    ensures t.name == options.name.GetOr(name)
    ensures t.skip == options.skip.GetOr(false) && t.focus == options.focus.GetOr(false)
  {
    Test(options.name.GetOr(name), body, options.skip.GetOr(false), options.focus.GetOr(false),
         options.tags, DefaultTimeoutMillis, [], [])
  }

  /** Options cannot preset a test's errors or timeout. */
  lemma MakeTestIgnoresErrorsAndTimeout(name: string, body: Arg<Body>, options: Opts,
                                        errors: Option<seq<JsError>>, timeout: Option<nat>)
    ensures MakeTest(name, body, options.(errors := errors, timeoutError := timeout))
            == MakeTest(name, body, options)
  {
  }

  /** `anyFailed`: a test failed when it holds errors, a group when one of
      its children did. */
  predicate AnyFailed(n: Node)
    decreases n
  {
    match n
    case Test(_, _, _, _, _, _, errors, _) => |errors| > 0
    case Group(_, _, _, _, _, _, children) => exists i :: 0 <= i < |children| && AnyFailed(children[i])
  }

  /** The tests of a tree, left to right. */
  function Leaves(n: Node): (r: seq<Node>)
    ensures forall t :: t in r ==> t.Test?
    decreases n, 1
  {
    match n
    case Test(_, _, _, _, _, _, _, _) => [n]
    case Group(_, _, _, _, _, _, children) => LeavesOf(children)
  }

  function LeavesOf(ns: seq<Node>): (r: seq<Node>)
    ensures forall t :: t in r ==> t.Test?
    decreases ns, 0
  {
    if ns == [] then [] else Leaves(ns[0]) + LeavesOf(ns[1..])
  }

  /** `anyFailed` folds over the tests only: it holds exactly when some
      test of the tree has errors; the groups' own data plays no part. */
  lemma {:induction false} AnyFailedIffFailedLeaf(n: Node)
    ensures AnyFailed(n) <==> exists t :: t in Leaves(n) && |t.errors| > 0
    decreases n, 1
  {
    match n
    case Test(_, _, _, _, _, _, _, _) =>
    case Group(_, _, _, _, _, _, children) => AnyFailedOfIffFailedLeaf(children);
  }

  lemma {:induction false} AnyFailedOfIffFailedLeaf(ns: seq<Node>)
    ensures (exists i :: 0 <= i < |ns| && AnyFailed(ns[i])) <==> exists t :: t in LeavesOf(ns) && |t.errors| > 0
    decreases ns, 0
  {
    if ns != [] {
      AnyFailedIffFailedLeaf(ns[0]);
      AnyFailedOfIffFailedLeaf(ns[1..]);
      var l := LeavesOf(ns);
      assert l == Leaves(ns[0]) + LeavesOf(ns[1..]);
      if exists i :: 0 <= i < |ns| && AnyFailed(ns[i]) {
        var i :| 0 <= i < |ns| && AnyFailed(ns[i]);
        if i > 0 {
          assert ns[1..][i - 1] == ns[i];
        }
      }
      if exists i :: 0 <= i < |ns[1..]| && AnyFailed(ns[1..][i]) {
        var i :| 0 <= i < |ns[1..]| && AnyFailed(ns[1..][i]);
        assert ns[i + 1] == ns[1..][i];
      }
    }
  }

  /** No test of the tree holds an error yet, as for every tree `it`
      builds. */
  predicate Clean(n: Node)
    decreases n
  {
    match n
    case Test(_, _, _, _, _, _, errors, _) => errors == []
    case Group(_, _, _, _, _, _, children) => forall i :: 0 <= i < |children| ==> Clean(children[i])
  }

  lemma {:induction false} CleanHasNotFailed(n: Node)
    requires Clean(n)
    ensures !AnyFailed(n)
    decreases n
  {
    match n
    case Test(_, _, _, _, _, _, _, _) =>
    case Group(_, _, _, _, _, _, children) =>
      forall i | 0 <= i < |children|
        ensures !AnyFailed(children[i])
      {
        CleanHasNotFailed(children[i]);
      }
  }
}
