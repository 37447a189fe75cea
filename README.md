# concise-test, modelled in Dafny

A model of the core of the `concise-test` JavaScript test framework, with
proofs about it. The model covers:

- the block-tree builder of `src/testContext.js`: `describe`, `it`,
  `beforeEach`, `afterEach`, the `.only`/`.skip` variants and their
  argument handling;
- its synchronous execution engine: `runDescribe`, `runIt`, `runBlock`,
  `anyFailed` and `runParsedBlocks`;
- the earlier eager runner of `src/runner.js`;
- the four matchers of `src/matchers.js` and the `expect` dispatch of
  `src/expect.js`;
- the failure message the `ExpectationError` constructor builds in
  `src/ExpectationError.js`.

Modules, one per file:

- `Wrappers` (`wrappers.dfy`): `Option`.
- `JsValues` (`js_values.dfy`): the JavaScript values that the matchers
  observe, and their operations:
  - truthiness;
  - `===`;
  - `.length` and `.message`;
  - template-literal stringification.
- `Expectations` (`expectations.dfy`): the `replace` chain of the
  `ExpectationError` constructor. `ReplaceFirst` puts the replacement in
  literally; `ReplaceFirstAsWritten` applies the `$`-pattern expansion of
  `String.prototype.replace`.
- `Matchers` (`matchers.dfy`): `toBeDefined`, `toBe`, `toHaveLength` and
  `toThrow`. A matcher call returns normally or raises.
- `Expect` (`expect.dfy`): the matcher handler. The class
  `CurrentTest` holds the errors of the test that is running. An
  `ExpectationError` is appended to them; any other exception is
  rethrown.
- `Bodies` (`bodies.dfy`): test bodies and hooks, as lists of
  `expect` calls and throws. It also holds `invokeAll` and the guarded
  run of hooks and body.
- `BlockTree` (`block_tree.dfy`): groups and tests, options, the argument
  sniffing of `describe`/`it` and their variants, `makeDescribe`,
  `makeTest` and `anyFailed`.
- `TreeBuilder` (`tree_builder.dfy`): the class `Builder` holds the
  current group (`currentDescribe`). The functions `BuildDescribe`,
  `BuildCmd` and `BuildAll` give each method's specification.
- `Execution` (`execution.dfy`): the class `Engine` holds
  `describeStack` and the dispatched events. The functions `TestRun`,
  `DescribeRun`, `BlockRun` and `ChildrenRun` give each method's
  specification.
- `EagerRunner` (`eager_runner.dfy`): the class `Runner` holds
  `successes`, `failures`, `describeStack` and the console log. The
  functions `ItStep`, `DescribeStep`, `CmdStep` and `ScriptStep` give each
  method's specification.

Some things are not part of the model and appear only as parameters:

- the colour function `color`;
- the three tree filters `focusedOnly`, `taggedOnly` and
  `randomizeBlocks`;
- `buildSharedExampleTest`, the function that gives the body a test runs.

`dispatch` is modelled as appending to an event list.

In two places the model follows the code rather than the documented
design:

- A `describe` whose body throws does not restore the enclosing group. The
  exception escapes with the new group still current.
- The hooks of the root group never run, because the root is never pushed
  on `describeStack`. This includes hooks from a `beforeEach` or
  `afterEach` at the top level of a file.

In four further places the code is evidently wrong; "## Findings" lists
them. For each, the model holds the code as written and a corrected
version, and the operations built on top use the corrected version:

- `toThrow` fails on a source that returns;
- `describe.skip`/`it.skip` with options and no body skip;
- the eager runner records a failing test's name;
- values are inserted literally into a failure message.

"## Left out" names each member this affects.

## Model

| member | source | states |
|---|---|---|
| JsValues.FalsyValues | src/matchers.js:4 | a value is falsy exactly when it is undefined, null, false, 0 or the empty string |
| JsValues.StrictEqualsByKind | src/matchers.js:10 | `===`: a primitive equals exactly the same primitive; an object equals exactly an object of its kind with the same reference |
| JsValues.StrictEqualsIsEquivalence | src/matchers.js:10 | `===` is reflexive, symmetric and transitive on the modelled values |
| JsValues.Length | src/matchers.js:29 | `.length` throws a TypeError exactly on null and undefined; an array gives its element count, a string between its character count and twice that |
| JsValues.Utf16LengthOfBmp | src/matchers.js:29 | a string's `.length` is its character count exactly when no character lies outside the Basic Multilingual Plane |
| JsValues.Utf16LengthAppend | src/matchers.js:29 | string lengths add up over concatenation |
| JsValues.DisplayNumberReadsBack | src/ExpectationError.js:9-11 | `${n}` of an integer is its sign and decimal digits, which read back as the number |
| JsValues.Message | src/matchers.js:20 | `.message` throws exactly on null and undefined; an error object gives its message |
| JsValues.DecimalRoundTrip | src/ExpectationError.js:9-11 | the decimal digits a non-negative integer prints as, inside a message, read back as that integer |
| Expectations.IndexOf | src/ExpectationError.js:9-11 | finds the first occurrence of the placeholder, with none before it; None means it does not occur |
| Expectations.ReplaceFirstAt | src/ExpectationError.js:9 | only the first occurrence is replaced |
| Expectations.ReplaceFirstAbsent | src/ExpectationError.js:9-11 | without the placeholder the text is unchanged |
| Expectations.SecondOccurrenceKept | src/ExpectationError.js:9-11 | a second, later placeholder survives, shifted by the length change |
| Expectations.ExpectationMessage | src/ExpectationError.js:8 | the message is "Expected " followed by `color` of the template after the chain (`Substitute`) |
| Expectations.ErrorMessage | src/matchers.js:20 | an ExpectationError's `message` is the constructed message; other exceptions carry their own |
| Expectations.NoPlaceholderUnchanged | src/ExpectationError.js:8-11 | a template without placeholders reaches `color` unchanged |
| Expectations.AbsentFieldPrintsUndefined | src/ExpectationError.js:7-11 | at each of the three steps, an absent field's placeholder, wherever it first occurs, becomes a bold "undefined" and nothing else changes |
| Expectations.InsertedPlaceholderIsConsumed | src/ExpectationError.js:9-11 | one concrete witness: placeholder text inside an inserted value is replaced by a later step of the chain |
| Expectations.ReplaceFirstAsWrittenAt | src/ExpectationError.js:9-11 | as written, the first occurrence is replaced by the `$`-expansion of the replacement |
| Expectations.ExpansionWithoutDollarIsLiteral | src/ExpectationError.js:9-11 | a replacement without "$" expands to itself |
| Expectations.AsWrittenAgreesWithoutDollar | src/ExpectationError.js:9-11 | if no inserted value contains "$", the chain as written (`SubstituteAsWritten`) equals the literal one (`Substitute`) |
| Expectations.DollarAmpersandEchoesPattern | src/ExpectationError.js:9 | an inserted "$&" shows the placeholder it replaced, as written, and differs from the literal insertion |
| Matchers.ToBeDefined | src/matchers.js:3-7 | raises exactly when the value is falsy, with the value as `actual` |
| Matchers.ToBe | src/matchers.js:9-13 | raises exactly when `actual !== expected`, always an ExpectationError |
| Matchers.ToHaveLength | src/matchers.js:28-33 | TypeError on null/undefined; otherwise raises exactly when the length `!==` expected, reporting the length |
| Matchers.CaughtAsWritten | src/matchers.js:16-19 | the catch receives the source's own exception or, when it returned, the "did not throw" error |
| Matchers.CheckMessage | src/matchers.js:20-24 | raises exactly when `expected` is truthy and the caught message differs from `expected.message` |
| Matchers.ToThrowAsWritten | src/matchers.js:15-26 | as written, `toThrow` fails exactly when `expected` is truthy and the caught error's message differs from `expected.message`, with the mismatch error |
| Matchers.ToThrowAsWrittenNeverFailsWithoutExpected | src/matchers.js:15-26 | as written, a falsy `expected` never fails, even when the source returns |
| Matchers.ToThrowAsWrittenPassesSilentSource | src/matchers.js:15-26 | as written, a source that returns passes if `expected` carries the "did not throw" message |
| Matchers.ToThrow | src/matchers.js:15-26 | corrected: a source that returns fails; a thrown error fails exactly on a message mismatch |
| Matchers.ToThrowAgreesWhenSourceThrows | src/matchers.js:15-26 | corrected and as written agree whenever the source throws |
| Matchers.MatchersRaiseOnlyExpectationErrors | src/matchers.js:3-33 | among the modelled exceptions (Error objects only), all failures are ExpectationErrors except `toHaveLength` on null/undefined, exactly |
| Expect.CallMatcher | src/expect.js:7 | dispatches by name with `actual` first; an unknown name raises a TypeError |
| Expect.Route | src/expect.js:8-13 | normal return passes; an ExpectationError is recorded; anything else is rethrown unchanged |
| Expect.RethrownExactly | src/expect.js:7-13 | among the modelled exceptions (Error objects only), an `expect` call escapes exactly for an unknown matcher or `toHaveLength` on null/undefined, always with a TypeError |
| Expect.CurrentTest.Expect | src/expect.js:5-15 | errors unchanged on a pass, the error appended on a recorded failure, nothing appended when rethrowing |
| Bodies.StepEffect | src/expect.js:6-13 | one statement records at most one ExpectationError, or throws and records nothing |
| Bodies.RunAppend | src/testContext.js:196 | running two pieces in a row equals running them joined |
| Bodies.SequenceWithoutThrow | src/testContext.js:167-170 | without an exception every statement's failures are collected, in order |
| Bodies.SequenceStopsAtThrow | src/testContext.js:167-173 | the first exception ends the run: what came before took part, nothing after it did |
| Bodies.Failures | src/testContext.js:171-173 | a test's errors are the recorded failures, then the exception that stopped it |
| Bodies.NoFailuresIffAllPass | src/testContext.js:167-173 | a guarded run leaves no error exactly when each statement has no effect |
| Bodies.BodyFailsIffSomeStepFails | src/testContext.js:167-173 | a body fails exactly when one of its statements records or throws |
| Bodies.FlattenAppend | src/testContext.js:198-202 | `flatMap` of joined hook lists is the join of the two flattenings |
| Bodies.ExecStep | src/expect.js:6-13 | one statement appends its recorded failure and returns its exception |
| Bodies.CallBody | src/testContext.js:149-151 | calling a body runs its statements until the first exception |
| Bodies.InvokeAll | src/testContext.js:196 | `invokeAll` runs the hooks in order; one hook's exception stops the rest |
| Bodies.PlanEffect | src/testContext.js:167-171 | befores, then the body only if no before threw, then the afters only if nothing threw |
| Bodies.FailuresThen | src/testContext.js:167-173 | a guarded run of two parts: the first alone if it threw, otherwise its recorded failures and then the errors of the second |
| Bodies.RunBodyAndAfters | src/testContext.js:169-170 | inside the `try`, the after hooks run only when the body did not throw, and what they throw ends the run |
| Bodies.RunGuarded | src/testContext.js:167-173 | the try/catch appends the recorded failures and then the exception to the errors |
| BlockTree.MergeMonoid | src/testContext.js:47-56 | spreading is associative and the empty object is neutral |
| BlockTree.Spread | src/testContext.js:49-50 | spreading a function or undefined adds no keys |
| BlockTree.WithOpts | src/testContext.js:42-74 | a function first is the body, with the next two spread; otherwise the first is the options and the second the body |
| BlockTree.ExtOpts | src/testContext.js:106-110 | `.only` adds `focus: true`, `.skip` adds `skip: true` |
| BlockTree.ForwardedAsWritten | src/testContext.js:99-104 | as written, the plain form forwards the first two arguments and `{}`; an extension given fewer than three arguments puts its options in the slot right after them |
| BlockTree.Forwarded | src/testContext.js:99-104 | corrected: the extension's options always arrive last |
| BlockTree.CallAsWritten | src/testContext.js:76-104 | as written, the body a call resolves to is an argument, undefined, or the extension's own options |
| BlockTree.Call | src/testContext.js:76-104 | corrected: the body a call resolves to is one of the arguments or undefined |
| BlockTree.ExtensionWins | src/testContext.js:99-110 | for every argument shape `.only` focuses and `.skip` skips |
| BlockTree.AsWrittenAgreesOnDocumentedShapes | src/testContext.js:99-104 | `()`, `(body)` and `(options, body)` resolve the same as written and corrected |
| BlockTree.SkipWithOptionsAsWritten | src/testContext.js:99-104 | as written, `.skip(name, options)` takes the extension's options as the body and does not skip |
| BlockTree.MakeDescribe | src/testContext.js:17-23 | a new group has the name, empty hooks and children, and its flags from the options |
| BlockTree.MakeTest | src/testContext.js:79-85 | a new test has the body, no errors, a 5000 ms timeout, and the name unless the options give one |
| BlockTree.MakeTestIgnoresErrorsAndTimeout | src/testContext.js:79-85 | options cannot preset a test's errors or timeout |
| BlockTree.AnyFailedIffFailedLeaf | src/testContext.js:207-213 | `anyFailed` (`AnyFailed`) holds exactly when some test of the tree has errors |
| BlockTree.AnyFailedOfIffFailedLeaf | src/testContext.js:211 | `some(anyFailed)` over children holds exactly when some test below has errors |
| BlockTree.CleanHasNotFailed | src/testContext.js:207-213 | a tree without errors has not failed |
| TreeBuilder.Opened | src/testContext.js:29-32 | the new group skips when the body is undefined unless the options say otherwise |
| TreeBuilder.AppendChild | src/testContext.js:36-39 | the children gain the child at the end |
| TreeBuilder.BuildCmd | src/testContext.js:87-124 | `it` appends one test; `beforeEach`/`afterEach` append the hook; a throw escapes |
| TreeBuilder.DescribeAppendsChild | src/testContext.js:36-39 | after `parseDescribe` (`BuildDescribe`) returns, the parent gets exactly the finished group appended, other fields unchanged |
| TreeBuilder.BodilessDescribeIsSkipped | src/testContext.js:27-35 | a bodiless describe runs nothing and is skipped unless the options say otherwise |
| TreeBuilder.ObjectBodyThrows | src/testContext.js:33-34 | an options object in the body's place throws with the new, empty group current |
| TreeBuilder.BuildAllExtends | src/testContext.js:27-40 | a completed body (`BuildAll`) keeps the group's data and adds one child per `describe`/`it`, after the existing ones |
| TreeBuilder.DescribeKeepsClean | src/testContext.js:79-85 | building a describe creates no test with errors |
| TreeBuilder.BuildAllKeepsClean | src/testContext.js:79-94 | every built tree, even one cut short by a throw, has no errors |
| TreeBuilder.Builder.constructor | src/testContext.js:25 | building starts from the root group |
| TreeBuilder.Builder.ParseDescribe | src/testContext.js:27-40 | `parseDescribe` does what `BuildDescribe` specifies |
| TreeBuilder.Builder.ParseIt | src/testContext.js:87-94 | `parseIt` appends the test |
| TreeBuilder.Builder.BeforeEach | src/testContext.js:112-117 | appends the hook to the befores |
| TreeBuilder.Builder.AfterEach | src/testContext.js:119-124 | appends the hook to the afters |
| TreeBuilder.Builder.Exec | src/testContext.js:76-124 | one statement does what `BuildCmd` specifies |
| TreeBuilder.Builder.RunBody | src/testContext.js:33-35 | a body runs statement by statement up to the first throw, as `BuildAll` specifies |
| Execution.BeforesOf | src/testContext.js:198-199 | the befores run for a test are the befores of the groups on the stack, and no others |
| Execution.AftersOf | src/testContext.js:201-202 | the afters run for a test are the afters of the groups on the stack, and no others |
| Execution.HooksOfPush | src/testContext.js:198-202 | an inner group's hooks come after the outer groups' hooks, for befores and afters alike |
| Execution.TestRun | src/testContext.js:159-176 | a visited test is still a test |
| Execution.BlockRun | src/testContext.js:204-205 | `isIt` chooses the visit; the kind of node is kept |
| Execution.DescribeRun | src/testContext.js:133-144 | a visit keeps the group's own data and child count, and its first event announces the group as beginning or, when skipped, as skipping; a skipped group comes back unchanged with that one event and no child visited |
| Execution.ChildrenRun | src/testContext.js:140-142 | one updated node per child |
| Execution.TestRunEvents | src/testContext.js:159-176 | a skipped or bodiless test gets one `skippingTest` and no hook runs; a runnable one gets one `finishedTest`, with befores, body and afters as errors |
| Execution.BlockRunFailedIffFailedEvent | src/testContext.js:207-213 | on a clean tree, `anyFailed` of the result holds exactly when a `finishedTest` reported errors |
| Execution.ChildrenRunFailedIffFailedEvent | src/testContext.js:140-142 | the same over a list of children |
| Execution.OneEventPerVisit | src/testContext.js:133-144 | each visit dispatches exactly one event; a skipped group's children are not visited |
| Execution.ChildrenOneEventPerVisit | src/testContext.js:140-142 | the same over a list of children |
| Execution.BlockRunEvolves | src/testContext.js:159-176 | a run changes only the tests' errors, which only grow, and their `describeStack` |
| Execution.ChildrenRunEvolves | src/testContext.js:140-142 | the same child by child |
| Execution.Engine.constructor | src/testContext.js:129 | the stack starts empty |
| Execution.Engine.RunIt | src/testContext.js:159-176 | `runIt` does what `TestRun` specifies and leaves the stack as it was |
| Execution.Engine.RunDescribe | src/testContext.js:133-144 | `runDescribe` does what `DescribeRun` specifies and restores the stack |
| Execution.Engine.RunBlock | src/testContext.js:204-205 | `runBlock` does what `BlockRun` specifies and restores the stack |
| Execution.Engine.RunParsedBlocks | src/testContext.js:215-223 | the filtered root's children run in order; the verdict is `anyFailed` of the run tree |
| Execution.ParsedBlocksFailedIffFailedEvent | src/testContext.js:215-223 | on a clean filtered tree the verdict is true exactly when a `finishedTest` reported errors |
| EagerRunner.WithoutLast | src/runner.js:168 | drops the last element, and is empty for an empty list |
| EagerRunner.Indent | src/runner.js:118-119 | exactly two spaces per frame, then the message |
| EagerRunner.FrameHooksOfPush | src/runner.js:123-127 | an inner frame's hooks run after the outer frames' hooks |
| EagerRunner.MakeTestAsWritten | src/runner.js:129-130 | as written, the record's `testName` is undefined; it captures the current stack |
| EagerRunner.MakeTest | src/runner.js:129-130 | corrected: the record carries the test's name |
| EagerRunner.CollectErrors | src/runner.js:134-140 | the `try` of `it` collects exactly the errors `TestErrors` gives: recorded failures of befores, body and afters, then the exception |
| EagerRunner.ItCountsOnce | src/runner.js:141-147 | `it` (`ItStep`) either counts one success or appends one failure with its errors and stack; one line logged at the current depth |
| EagerRunner.ItPassesIffAllStepsPass | src/runner.js:132-140 | a test passes exactly when every statement of befores, body and afters has no effect; they run in that order |
| EagerRunner.BodilessTestFails | src/runner.js:136 | `it` without a body always fails; unless a before hook threw, its errors hold the TypeError |
| EagerRunner.HooksTouchInnermostFrameOnly | src/runner.js:179-198 | for `beforeEach`/`afterEach` (`BeforeEachStep`, `AfterEachStep`), only the innermost frame changes, gaining the hook at its end; with no frame a TypeError is thrown and nothing changes |
| EagerRunner.DescribeRestoresStack | src/runner.js:172-177 | a `describe` (`DescribeStep`) whose body returns leaves the stack as it found it |
| EagerRunner.CmdKeepsOuterFrames | src/runner.js:184-198 | a statement that returns keeps the depth and every frame but the innermost |
| EagerRunner.ScriptKeepsOuterFrames | src/runner.js:175 | the same for a whole body |
| EagerRunner.BodilessDescribeKeepsFrame | src/runner.js:174-175 | a bodiless `describe` throws after pushing its frame, which is not popped |
| EagerRunner.DescribeTally | src/runner.js:141-147 | failures are only appended, each with errors; a returning body counts each of its tests once |
| EagerRunner.CmdTally | src/runner.js:132-148 | the same for one statement |
| EagerRunner.ScriptTally | src/runner.js:132-148 | the same for a body |
| EagerRunner.BoldNames | src/runner.js:152 | every frame name is wrapped in bold, in order |
| EagerRunner.DescriptionEndsWithTestName | src/runner.js:150-153 | the description (`FullTestDescription`) is the bold frame names joined by an arrow, then the bold test name |
| EagerRunner.AsWrittenDescriptionLosesName | src/runner.js:129-133 | as written, the description ends in a bold "undefined" whatever the test |
| EagerRunner.DescriptionNamesTheTest | src/runner.js:150-153 | corrected: the description ends in the test's own name |
| EagerRunner.ExitCode | src/runner.js:88-91 | the exit code is 1 exactly when there are failures, else 0 |
| EagerRunner.ExitOkIffAllPassed | src/runner.js:88-91 | from a fresh runner, a file that runs to the end exits 0 exactly when all its tests passed |
| EagerRunner.Runner.constructor | src/runner.js:8-11 | no successes, failures or frames |
| EagerRunner.Runner.It | src/runner.js:132-148 | `it` does what `ItStep` specifies |
| EagerRunner.Runner.BeforeEach | src/runner.js:194-195 | does what `BeforeEachStep` specifies |
| EagerRunner.Runner.AfterEach | src/runner.js:197-198 | does what `AfterEachStep` specifies |
| EagerRunner.Runner.Describe | src/runner.js:172-177 | push, body, pop, with no pop when the body throws |
| EagerRunner.Runner.Exec | src/runner.js:172-198 | one statement does what `CmdStep` specifies |
| EagerRunner.Runner.RunScript | src/runner.js:175 | a body runs statement by statement up to the first throw |
| EagerRunner.Runner.ExitCodeOfRun | src/runner.js:88-91 | the exit code of the failures so far |

## Left out

- File discovery, argument parsing, watching, dynamic `import` and `process.exit` (src/runner.js:19-116); `printFailure`/`printFailures` and the reporter (console output). These are all I/O. Only the exit-code choice is modelled.
- Asynchrony and timeouts: `runBodyAndWait`'s race with the timeout, `timeoutPromise`, `it.timesOutAfter` and `TestTimeoutError` are not part of this model. Bodies are synchronous, and a test's `timeoutError` is only its stored delay in milliseconds.
- `focusedOnly`, `taggedOnly`, `randomizeBlocks`, `dispatch`, `color` and `buildSharedExampleTest` are not part of this model. The first three are function parameters of `RunParsedBlocks`; `color` and `buildSharedExampleTest` (`wrap`) are parameters; `dispatch` appends to an event list.
- Shared examples (`it.behavesLike`, `describe.shared`) are not modelled: their registry is not part of this model.
- Tests are values: `runIt`'s in-place update of `errors` and `describeStack` is modelled by returning the updated test. Events and stacks hold snapshots, so a later change to a test is not visible through an earlier event, unlike a JavaScript reference.
- Tests below a skipped group are never visited, so they never get a `describeStack`. In the model that field starts empty rather than absent.
- Options objects hold only the keys the framework reads: skip, focus, tags, name and, from `makeTest`, errors and timeoutError. A `body` or other key spread over a test or group is not modelled.
- Arguments of `describe`/`it` are functions, options objects or undefined; other values are not modelled.
- Bodies and hooks are lists of `expect` calls and throws. They cannot call `describe`, `it` or the hook functions while running. `expect` outside a running test (with `currentTest` unset or stale) is not modelled.
- Hooks are assumed to be functions, both in `runner.js` and for `beforeEach`/`afterEach` in `src/testContext.js` (lines 112-124), which store any value that `invokeAll` (line 196) later calls. Calling a non-function hook, which throws a TypeError, is not modelled.
- Values: numbers are integers (no fractions, NaN, -0 or infinities); objects other than arrays, functions and `new Error(message)` objects are not modelled. Engine error messages use V8's wording.
- JsValues.StrictEquals: numbers are exact, unbounded integers, whereas JavaScript numbers are doubles. Beyond 2^53 two different integers can be the same number (`2 ** 53 === 2 ** 53 + 1` is true), and the model calls them different.
- JsValues.NumberToString: prints every integer in full decimal. JavaScript uses exponent notation from 10^21 on (`${10 ** 21}` is "1e+21").
- Matchers.MatchersRaiseOnlyExpectationErrors: an exception is always an Error object (`JsError`); JavaScript code can throw any value. With `throw undefined` or `throw null` in a `toThrow` source and a truthy `expected`, reading `actual.message` at src/matchers.js:20 raises a TypeError, which the lemma's "exactly" does not cover. A function value only returns or throws, so a `toThrow` source that itself calls `expect` and records a failure cannot be expressed either.
- Expect.RethrownExactly: rests on the same two restrictions as Matchers.MatchersRaiseOnlyExpectationErrors. An `expect(...).toThrow(expected)` on a source that throws null or undefined also escapes, with that TypeError, and the model does not have that case.
- Expect.CallMatcher: dispatches `toThrow` to the corrected Matchers.ToThrow, so a source that returns fails. The code as written (Matchers.ToThrowAsWritten) passes it whenever `expected` is falsy. The two agree whenever the source throws (Matchers.ToThrowAgreesWhenSourceThrows). Everything that runs `expect` calls (Expect, Bodies, Execution, EagerRunner) inherits this.
- Expectations.ExpectationMessage: inserts the values literally (`Substitute`). The code expands "$" patterns in them (`SubstituteAsWritten`). The two agree whenever no inserted value contains "$" (Expectations.AsWrittenAgreesWithoutDollar). Expectations.ErrorMessage and the message comparison of `toThrow` inherit this.
- TreeBuilder.BuildCmd: resolves the arguments of `describe`/`it` with the corrected BlockTree.Call. The code as written (BlockTree.CallAsWritten) puts the extension's options in the body's place for `.skip(name, options)` and `.only(name, options)`: such a `describe.skip` throws a TypeError, and such an `it.skip` gives a test that is not skipped and whose body is the extension's options object, which throws a TypeError if called. The two agree on `()`, `(body)` and `(options, body)` (BlockTree.AsWrittenAgreesOnDocumentedShapes).
- TreeBuilder.Builder.Exec: inherits the corrected argument resolution of TreeBuilder.BuildCmd, and so do TreeBuilder.Builder.ParseDescribe and TreeBuilder.Builder.RunBody.
- EagerRunner.ItCountsOnce: a failure record carries the test's name (the corrected EagerRunner.MakeTest). The code calls `makeTest()` and records `testName` as undefined (EagerRunner.MakeTestAsWritten). Nothing else about the record differs.
- EagerRunner.BodilessTestFails: the failure record carries the test's name, as for EagerRunner.ItCountsOnce.
- EagerRunner.Runner.It: records the test's name, as `ItStep` does; see EagerRunner.ItCountsOnce.
- EagerRunner.ExitOkIffAllPassed: assumes the test files have run before the exit code is chosen. At src/runner.js:74-77 the callback given to `Promise.all` calls `import` without returning its promise, so `runOnce` does not wait for the files, and the exit code at src/runner.js:88-91 may be chosen before their tests run. File loading is I/O and not part of this model.
- The Proxy of `expect` is a name-indexed dispatch over the four exported matchers.
- Execution.BlockRunFailedIffFailedEvent: requires a tree without errors. Every built tree satisfies this (TreeBuilder.BuildAllKeepsClean), but the filters are opaque, so `RunParsedBlocks` does not carry it through.
- EagerRunner.DescribeTally: the exact count holds only when the body returns; for a body that throws midway it states only that failures are appended, each with errors.

## Findings

| source | as written | input that shows it | evidently intended | confidence | as-written member | corrected member |
|---|---|---|---|---|---|---|
| src/matchers.js:15-26 | the "did not throw" error raised inside the `try` is caught by its own `catch` | `expect(() => {}).toThrow()` passes | a source that returns fails with "to throw exception but it did not" | high, not executed | Matchers.ToThrowAsWrittenNeverFailsWithoutExpected | Matchers.ToThrow |
| src/runner.js:129-133 | `it` calls `makeTest()` without the name | a failing `it("adds", …)` inside `describe("math", …)` is described as "math → undefined" | the record carries the test's name | high, not executed | EagerRunner.AsWrittenDescriptionLosesName | EagerRunner.DescriptionNamesTheTest |
| src/testContext.js:99-104 | an extension appends its options after however many arguments the caller gave | `describe.skip("d", { tags: [] })` puts the skip options in the body's place, so the group is not skipped and calling the object throws | the extension's options are always the last, spread argument | medium, not executed | BlockTree.SkipWithOptionsAsWritten | BlockTree.ExtensionWins |
| src/ExpectationError.js:9-11 | `replace` with a string replacement expands `$&`, `` $` ``, `$'` and `$$` | `expect("$&").toBe("x")` reports "Expected <bold><actual></bold> to be <bold>x</bold>" | the value is inserted literally | medium, not executed | Expectations.DollarAmpersandEchoesPattern | Expectations.AsWrittenAgreesWithoutDollar |
