/**
 * `expect(actual).name(...args)`: the matcher named `name` is called with
 * `actual` first and the caller's arguments after it. An ExpectationError
 * it raises is appended to the current test's errors and the call returns
 * normally; any other exception is passed on. The current test is an
 * explicit object rather than an ambient global.
 */
module Expect {
  import opened Wrappers
  import opened JsValues
  import opened Matchers

  /** Argument `i` of a call; a missing argument is undefined. */
  function ArgAt(args: seq<Value>, i: nat): Value {
    if i < |args| then args[i] else Undefined
  }

  /** The names the matchers module exports. */
  predicate IsMatcher(name: string) {
    name == "toBeDefined" || name == "toBe" || name == "toThrow" || name == "toHaveLength"
  }

  /** The TypeError raised when `matchers[name]` is undefined. */
  const NotAMatcher := TypeError("matchers[name] is not a function")

  /** `matchers[name](actual, ...args)`. */
  function CallMatcher(name: string, actual: Value, args: seq<Value>, color: string -> string): (o: Outcome)
    ensures !IsMatcher(name) ==> o == Raises(NotAMatcher)
    ensures name == "toBeDefined" ==> o == ToBeDefined(actual)
    ensures name == "toBe" ==> o == ToBe(actual, ArgAt(args, 0))
    ensures name == "toThrow" ==> o == ToThrow(actual, ArgAt(args, 0), color)
    ensures name == "toHaveLength" ==> o == ToHaveLength(actual, ArgAt(args, 0))
  {
    if name == "toBeDefined" then ToBeDefined(actual)
    else if name == "toBe" then ToBe(actual, ArgAt(args, 0))
    else if name == "toThrow" then ToThrow(actual, ArgAt(args, 0), color)
    else if name == "toHaveLength" then ToHaveLength(actual, ArgAt(args, 0))
    else Raises(NotAMatcher)
  }

  /** Where the outcome of a matcher call goes. */
  datatype Routed = Passed | Recorded(error: JsError) | Rethrown(error: JsError)

  /** The `catch` of the matcher handler: `instanceof ExpectationError`
      decides between recording and rethrowing. */
  function Route(o: Outcome): (r: Routed)
    ensures r.Passed? <==> o.Returns?
    ensures r.Recorded? <==> o.Raises? && o.error.ExpectationError?
    ensures r.Rethrown? <==> o.Raises? && !o.error.ExpectationError?
    ensures !r.Passed? ==> r.error == o.error
  {
    match o
    case Returns => Passed
    case Raises(e) => if e.ExpectationError? then Recorded(e) else Rethrown(e)
  }

  /** An `expect` call escapes as an exception exactly for an unknown
      matcher and for `toHaveLength` on null or undefined; every other
      failure is recorded. */
  lemma RethrownExactly(name: string, actual: Value, args: seq<Value>, color: string -> string)
    ensures Route(CallMatcher(name, actual, args, color)).Rethrown?
            <==> !IsMatcher(name) || (name == "toHaveLength" && (actual.Undefined? || actual.Null?))
    ensures Route(CallMatcher(name, actual, args, color)).Rethrown? ==>
              Route(CallMatcher(name, actual, args, color)).error.TypeError?
  {
    MatchersRaiseOnlyExpectationErrors(actual, ArgAt(args, 0), color);
  }

  /** The test whose errors `expect` records into. */
  class CurrentTest {
    var errors: seq<JsError>

    constructor(errors: seq<JsError>)
      ensures this.errors == errors
    {
      this.errors := errors;
    }

    /** One `expect(actual)[name](...args)` call. Returns the exception
        it passes on, if any. */
    method Expect(actual: Value, name: string, args: seq<Value>, color: string -> string)
      returns (thrown: Option<JsError>)
      modifies this
      ensures Route(CallMatcher(name, actual, args, color)).Passed? ==>
                errors == old(errors) && thrown == None
      ensures Route(CallMatcher(name, actual, args, color)).Recorded? ==>
                errors == old(errors) + [Route(CallMatcher(name, actual, args, color)).error] && thrown == None
      ensures Route(CallMatcher(name, actual, args, color)).Rethrown? ==>
                errors == old(errors) && thrown == Some(Route(CallMatcher(name, actual, args, color)).error)
    {
      var outcome := CallMatcher(name, actual, args, color);
      thrown := None;
      match outcome
      case Returns =>
      case Raises(e) =>
        if e.ExpectationError? {
          errors := errors + [e];
        } else {
          thrown := Some(e);
        }
    }
  }
}
