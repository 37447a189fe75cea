/**
 * The slice of JavaScript's value universe that the matchers and the
 * failure messages observe: undefined, null, booleans, integral numbers,
 * strings, arrays, functions and error objects. Arrays, functions and error
 * objects are heap objects; they carry a reference `ref`, and `===` on them
 * compares references, not contents.
 */
module JsValues {
  import opened Wrappers

  /**
   * A thrown exception. An ExpectationError is kept as the template and
   * fields it was constructed from; its `message` property is built from
   * them (module Expectations). The other kinds carry their message.
   */
  datatype JsError =
    | ExpectationError(template: string, fields: Fields)  // raised by a matcher
    | TypeError(message: string)   // raised by the JavaScript engine (calling a non-function, ...)
    | Error(message: string)       // `throw new Error(message)` in user code

  /** The `{ actual, expected, source }` argument of the ExpectationError
      constructor; an absent field is Undefined. */
  datatype Fields = Fields(actual: Value, expected: Value, source: Value)

  /**
   * A JavaScript value. A function value is abstracted to its source text
   * (what `${fn}` prints), its declared arity (`fn.length`) and what calling
   * it with no arguments does: return normally or throw. An error object
   * is one made by `new Error(message)`.
   */
  datatype Value =
    | Undefined
    | Null
    | Bool(b: bool)
    | Num(n: int)
    | Str(s: string)
    | Arr(ref: nat, elems: seq<Value>)
    | Fn(ref: nat, source: string, arity: nat, throws: Option<JsError>)
    | ErrObj(ref: nat, message: string)

  /** The result of evaluating an expression that may throw. */
  datatype Completion<T> = Normal(value: T) | Abrupt(error: JsError)

  /** JavaScript truthiness (`if (v)`, `!v`, `a && b`). */
  predicate Truthy(v: Value) {
    match v
    case Undefined => false
    case Null => false
    case Bool(b) => b
    case Num(n) => n != 0
    case Str(s) => s != ""
    case _ => true
  }

  /** Exactly undefined, null, false, 0 and the empty string are falsy
      (NaN and -0 are not modelled values). */
  lemma FalsyValues(v: Value)
    ensures !Truthy(v) <==> v in {Undefined, Null, Bool(false), Num(0), Str("")}
  {
  }

  /** Undefined, null, booleans, numbers and strings. */
  predicate IsPrimitive(v: Value) {
    v.Undefined? || v.Null? || v.Bool? || v.Num? || v.Str?
  }

  /** Strict equality `a === b`: primitives by value, objects by reference. */
  predicate StrictEquals(a: Value, b: Value) {
    match (a, b)
    case (Undefined, Undefined) => true
    case (Null, Null) => true
    case (Bool(x), Bool(y)) => x == y
    case (Num(x), Num(y)) => x == y
    case (Str(x), Str(y)) => x == y
    case (Arr(r, _), Arr(q, _)) => r == q
    case (Fn(r, _, _, _), Fn(q, _, _, _)) => r == q
    case (ErrObj(r, _), ErrObj(q, _)) => r == q
    case _ => false
  }

  /** A primitive is strictly equal exactly to the same primitive value; an
      object exactly to an object of its kind with the same reference,
      whatever the contents. */
  lemma StrictEqualsByKind(a: Value, b: Value)
    ensures IsPrimitive(a) ==> (StrictEquals(a, b) <==> a == b)
    ensures !IsPrimitive(a) ==>
              (StrictEquals(a, b) <==> !IsPrimitive(b) && a.ref == b.ref
                                       && a.Arr? == b.Arr? && a.Fn? == b.Fn?)
  {
  }

  /** `===` is an equivalence on the modelled values (NaN, the one value
      not equal to itself, is not one of them). */
  lemma StrictEqualsIsEquivalence(a: Value, b: Value, c: Value)
    ensures StrictEquals(a, a)
    ensures StrictEquals(a, b) ==> StrictEquals(b, a)
    ensures StrictEquals(a, b) && StrictEquals(b, c) ==> StrictEquals(a, c)
  {
  }

  /** The number of UTF-16 code units of a string, which is what
      JavaScript's `length` counts: a character outside the Basic
      Multilingual Plane is a surrogate pair. */
  function Utf16Length(s: string): (n: nat)
    ensures |s| <= n <= 2 * |s|
  {
    if s == [] then 0 else (if s[0] as int > 0xFFFF then 2 else 1) + Utf16Length(s[1..])
  }

  /** The code-unit length of a string is its number of characters exactly
      when every character is in the Basic Multilingual Plane. */
  lemma {:induction false} Utf16LengthOfBmp(s: string)
    ensures Utf16Length(s) == |s| <==> forall i :: 0 <= i < |s| ==> s[i] as int <= 0xFFFF
  {
    if s != [] {
      Utf16LengthOfBmp(s[1..]);
      assert forall i :: 1 <= i < |s| ==> s[i] == s[1..][i - 1];
    }
  }

  /** Code-unit lengths add up over concatenation. */
  lemma {:induction false} Utf16LengthAppend(s: string, t: string)
    ensures Utf16Length(s + t) == Utf16Length(s) + Utf16Length(t)
  {
    if s != [] {
      var u := s + t;
      assert u[0] == s[0] && u[1..] == s[1..] + t;
      Utf16LengthAppend(s[1..], t);
    } else {
      assert s + t == t;
    }
  }

  /** `v.length`: strings (in UTF-16 code units) and arrays have one, a
      function's is its arity, other primitives and error objects give
      undefined, and reading a property of null or undefined throws a
      TypeError. */
  function Length(v: Value): (r: Completion<Value>)
    ensures r.Abrupt? <==> (v.Undefined? || v.Null?)
    ensures r.Abrupt? ==> r.error.TypeError?
    ensures v.Str? ==> r.Normal? && r.value.Num? && |v.s| <= r.value.n <= 2 * |v.s|
    ensures v.Arr? ==> r.Normal? && r.value.Num? && r.value.n == |v.elems|
  {
    match v
    case Undefined => Abrupt(TypeError("Cannot read properties of undefined (reading 'length')"))
    case Null => Abrupt(TypeError("Cannot read properties of null (reading 'length')"))
    case Str(s) => Normal(Num(Utf16Length(s)))
    case Arr(_, elems) => Normal(Num(|elems|))
    case Fn(_, _, arity, _) => Normal(Num(arity))
    case _ => Normal(Undefined)
  }

  /** `v.message`: an error object's message; undefined on every other
      object or primitive; a TypeError on null and undefined. */
  function Message(v: Value): (r: Completion<Value>)
    ensures r.Abrupt? <==> (v.Undefined? || v.Null?)
    ensures v.ErrObj? ==> r == Normal(Str(v.message))
  {
    match v
    case Undefined => Abrupt(TypeError("Cannot read properties of undefined (reading 'message')"))
    case Null => Abrupt(TypeError("Cannot read properties of null (reading 'message')"))
    case ErrObj(_, m) => Normal(Str(m))
    case _ => Normal(Undefined)
  }

  /** `Error.prototype.toString` of an error object, whose `name` is "Error". */
  function ErrorToString(message: string): string {
    if message == "" then "Error" else "Error: " + message
  }

  function Digit(d: nat): char
    requires d < 10
  {
    "0123456789"[d]
  }

  /** Decimal notation of a natural number, without leading zeros. */
  function NatToDecimal(n: nat): (r: string)
    ensures |r| >= 1
    ensures forall i :: 0 <= i < |r| ==> '0' <= r[i] <= '9'
    ensures r[0] == '0' ==> n == 0
  {
    if n < 10 then [Digit(n)] else NatToDecimal(n / 10) + [Digit(n % 10)]
  }

  /** Reads a string of decimal digits back as a number. */
  function DecimalValue(s: string): nat
    requires forall i :: 0 <= i < |s| ==> '0' <= s[i] <= '9'
  {
    if s == [] then 0
    else DecimalValue(s[..|s| - 1]) * 10 + (s[|s| - 1] as int - '0' as int)
  }

  /** NatToDecimal is a faithful notation: reading it back gives the number. */
  lemma {:induction false} DecimalRoundTrip(n: nat)
    ensures DecimalValue(NatToDecimal(n)) == n
  {
    var r := NatToDecimal(n);
    if n >= 10 {
      DecimalRoundTrip(n / 10);
      assert r[..|r| - 1] == NatToDecimal(n / 10);
    }
  }

  /** `${n}` for an integral number. */
  function NumberToString(n: int): (r: string)
    ensures |r| >= 1
    ensures (r[0] == '-') <==> n < 0
  {
    if n < 0 then "-" + NatToDecimal(-n) else NatToDecimal(n)
  }

  /**
   * Template-literal stringification `${v}`. Arrays print their elements
   * joined by "," with null and undefined elements printed empty; a
   * function prints its source text; an error object prints
   * `Error.prototype.toString`.
   */
  function Display(v: Value): string
    decreases v
  {
    match v
    case Undefined => "undefined"
    case Null => "null"
    case Bool(b) => if b then "true" else "false"
    case Num(n) => NumberToString(n)
    case Str(s) => s
    case Arr(_, elems) => JoinElements(elems)
    case Fn(_, source, _, _) => source
    case ErrObj(_, m) => ErrorToString(m)
  }

  /** `${n}` of an integer is its sign, for a negative one, and then
      decimal digits that read back as its magnitude. */
  lemma DisplayNumberReadsBack(n: int)
    ensures var r := Display(Num(n));
            && (n >= 0 ==> (forall i :: 0 <= i < |r| ==> '0' <= r[i] <= '9') && DecimalValue(r) == n)
            && (n < 0 ==> |r| > 1 && r[0] == '-' && (forall i :: 1 <= i < |r| ==> '0' <= r[i] <= '9')
                          && DecimalValue(r[1..]) == -n)
  {
    DecimalRoundTrip(if n < 0 then -n else n);
    if n < 0 {
      assert Display(Num(n))[1..] == NatToDecimal(-n);
    }
  }

  /** `Array.prototype.join(",")` over the elements of an array. */
  function JoinElements(elems: seq<Value>): string
    decreases elems
  {
    if elems == [] then ""
    else
      var first := if elems[0].Undefined? || elems[0].Null? then "" else Display(elems[0]);
      if |elems| == 1 then first else first + "," + JoinElements(elems[1..])
  }
}
