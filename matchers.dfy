/**
 * The four matchers. Each one returns normally when its expectation holds
 * and otherwise raises an ExpectationError built from a template and the
 * observed values. `toThrow` reads error messages, which pass through the
 * colour markup function `color`, a parameter.
 */
module Matchers {
  import opened Wrappers
  import opened JsValues
  import opened Expectations

  /** What a matcher call does: return normally or raise. */
  datatype Outcome = Returns | Raises(error: JsError)

  const DefinedTemplate := "<actual> to be defined"
  const BeTemplate := "<actual> to be <expected>"
  const LengthTemplate := "value to have length <expected> but it was <actual>"
  const DidNotThrowTemplate := "<source> to throw exception but it did not"
  const MessageMismatchTemplate :=
    "<source> to throw an exception, but the thrown error message did not match the expected message.\n"
    + "  Expected exception message: <expected>\n"
    + "    Actual exception message: <actual>\n"

  /** `toBeDefined`: a truthiness test, so every falsy value fails, and
      the error reports the value. */
  function ToBeDefined(actual: Value): (o: Outcome)
    ensures o.Raises? <==> !Truthy(actual)
    ensures o.Raises? ==> o.error == ExpectationError(DefinedTemplate, Fields(actual, Undefined, Undefined))
  {
    if !Truthy(actual) then
      Raises(ExpectationError(DefinedTemplate, Fields(actual, Undefined, Undefined)))
    else Returns
  }

  /** `toBe`: strict equality, so two distinct objects with the same
      contents do not match. */
  function ToBe(actual: Value, expected: Value): (o: Outcome)
    ensures o.Raises? <==> !StrictEquals(actual, expected)
    ensures o.Raises? ==> o.error.ExpectationError?
  {
    if !StrictEquals(actual, expected) then
      Raises(ExpectationError(BeTemplate, Fields(actual, expected, Undefined)))
    else Returns
  }

  /** `toHaveLength`: compares `actual.length` with `expected` and reports
      the length, not the value; reading the length of null or undefined
      raises the engine's TypeError instead. */
  function ToHaveLength(actual: Value, expected: Value): (o: Outcome)
    ensures (actual.Undefined? || actual.Null?) ==> o.Raises? && o.error.TypeError?
    ensures !(actual.Undefined? || actual.Null?) ==>
              (o.Raises? <==> !StrictEquals(Length(actual).value, expected))
    ensures !(actual.Undefined? || actual.Null?) && o.Raises? ==>
              o.error == ExpectationError(LengthTemplate, Fields(Length(actual).value, expected, Undefined))
  {
    match Length(actual)
    case Abrupt(e) => Raises(e)
    case Normal(len) =>
      if !StrictEquals(len, expected) then
        Raises(ExpectationError(LengthTemplate, Fields(len, expected, Undefined)))
      else Returns
  }

  /** What calling `source()` with no arguments does: its own throw, a
      normal return, or a TypeError when `source` is not a function. */
  function CallSource(source: Value): Completion<Value> {
    match source
    case Fn(_, _, _, throws) =>
      (match throws
       case Some(e) => Abrupt(e)
       case None => Normal(Undefined))
    case _ => Abrupt(TypeError("source is not a function"))
  }

  /** The error caught by the `catch` of `toThrow` as written: the source's
      own exception, or, when it returned, the "did not throw" error raised
      inside the same `try`. */
  function CaughtAsWritten(source: Value): (e: JsError)
    ensures CallSource(source).Normal? ==> e == ExpectationError(DidNotThrowTemplate, Fields(Undefined, Undefined, source))
    ensures CallSource(source).Abrupt? ==> e == CallSource(source).error
  {
    match CallSource(source)
    case Abrupt(e) => e
    case Normal(_) => ExpectationError(DidNotThrowTemplate, Fields(Undefined, Undefined, source))
  }

  /** The message check shared by both versions of `toThrow`: with a truthy
      `expected`, a caught message different from `expected.message` raises. */
  function CheckMessage(source: Value, caught: JsError, expected: Value, color: string -> string): (o: Outcome)
    ensures o.Raises? <==> Truthy(expected) && !StrictEquals(Str(ErrorMessage(caught, color)), Message(expected).value)
    ensures o.Raises? ==> o.error.ExpectationError? && o.error.fields.actual == Str(ErrorMessage(caught, color))
  {
    var actual := Str(ErrorMessage(caught, color));
    if Truthy(expected) && !StrictEquals(actual, Message(expected).value) then
      Raises(ExpectationError(MessageMismatchTemplate, Fields(actual, Message(expected).value, source)))
    else Returns
  }

  /** `toThrow` as the code has it: the "did not throw" error never leaves
      the matcher, it is only compared against `expected`. */
  function ToThrowAsWritten(source: Value, expected: Value, color: string -> string): (o: Outcome)
    ensures o.Raises? <==> Truthy(expected) && !StrictEquals(Str(ErrorMessage(CaughtAsWritten(source), color)), Message(expected).value)
    ensures o.Raises? ==> o.error.ExpectationError? && o.error.template == MessageMismatchTemplate
  {
    CheckMessage(source, CaughtAsWritten(source), expected, color)
  }

  /** Without an expected error the code never fails, even when `source`
      returns normally. */
  lemma ToThrowAsWrittenNeverFailsWithoutExpected(source: Value, expected: Value, color: string -> string)
    requires !Truthy(expected)
    ensures ToThrowAsWritten(source, expected, color) == Returns
  {
  }

  /** A source that does not throw passes as written when the expected
      message happens to be that of the internal "did not throw" error. */
  lemma ToThrowAsWrittenPassesSilentSource(source: Value, ref: nat, color: string -> string)
    requires CallSource(source).Normal?
    ensures ToThrowAsWritten(source, ErrObj(ref, ErrorMessage(CaughtAsWritten(source), color)), color) == Returns
  {
  }

  /** `toThrow` as intended: a source that returns normally fails with the
      "did not throw" error; a thrown error is checked against `expected`. */
  function ToThrow(source: Value, expected: Value, color: string -> string): (o: Outcome)
    ensures CallSource(source).Normal? ==>
              o == Raises(ExpectationError(DidNotThrowTemplate, Fields(Undefined, Undefined, source)))
    ensures CallSource(source).Abrupt? ==>
              (o.Raises? <==> Truthy(expected) && !StrictEquals(Str(ErrorMessage(CallSource(source).error, color)), Message(expected).value))
  {
    match CallSource(source)
    case Normal(_) => Raises(ExpectationError(DidNotThrowTemplate, Fields(Undefined, Undefined, source)))
    case Abrupt(e) => CheckMessage(source, e, expected, color)
  }

  /** The two versions differ exactly on a source that returns normally:
      whenever the source throws they agree. */
  lemma ToThrowAgreesWhenSourceThrows(source: Value, expected: Value, color: string -> string)
    requires CallSource(source).Abrupt?
    ensures ToThrow(source, expected, color) == ToThrowAsWritten(source, expected, color)
  {
  }

  /** Every matcher fails only with an ExpectationError, except
      `toHaveLength` on null or undefined, which raises a TypeError. */
  lemma MatchersRaiseOnlyExpectationErrors(actual: Value, expected: Value, color: string -> string)
    ensures ToBeDefined(actual).Raises? ==> ToBeDefined(actual).error.ExpectationError?
    ensures ToBe(actual, expected).Raises? ==> ToBe(actual, expected).error.ExpectationError?
    ensures ToThrow(actual, expected, color).Raises? ==> ToThrow(actual, expected, color).error.ExpectationError?
    ensures ToThrowAsWritten(actual, expected, color).Raises? ==> ToThrowAsWritten(actual, expected, color).error.ExpectationError?
    ensures ToHaveLength(actual, expected).Raises? && !ToHaveLength(actual, expected).error.ExpectationError?
            <==> actual.Undefined? || actual.Null?
  {
  }
}
