/**
 * The message of an ExpectationError: "Expected " followed by the colour
 * markup function applied to the message template, in which the first
 * "<actual>", then the first "<expected>", then the first "<source>" is
 * replaced by the bold-wrapped text of the corresponding field.
 */
module Expectations {
  import opened Wrappers
  import opened JsValues

  const ActualPlaceholder := "<actual>"
  const ExpectedPlaceholder := "<expected>"
  const SourcePlaceholder := "<source>"

  function Bold(s: string): string {
    "<bold>" + s + "</bold>"
  }

  /** `pat` occurs in `s` starting at index `j`. */
  predicate OccursAt(s: string, pat: string, j: int) {
    0 <= j && j + |pat| <= |s| && s[j..j + |pat|] == pat
  }

  /** The first index at or after `k` where `pat` occurs in `s`. */
  function IndexFrom(s: string, pat: string, k: nat): (r: Option<nat>)
    requires k <= |s|
    ensures r.Some? ==> k <= r.value && OccursAt(s, pat, r.value)
    ensures r.Some? ==> forall j :: k <= j < r.value ==> !OccursAt(s, pat, j)
    ensures r.None? ==> forall j :: k <= j ==> !OccursAt(s, pat, j)
    decreases |s| - k
  {
    if OccursAt(s, pat, k) then Some(k)
    else if k + |pat| >= |s| then None
    else IndexFrom(s, pat, k + 1)
  }

  /** `s.indexOf(pat)`, with None for -1. */
  function IndexOf(s: string, pat: string): (r: Option<nat>)
    ensures r.Some? ==> OccursAt(s, pat, r.value)
    ensures r.Some? ==> forall j :: 0 <= j < r.value ==> !OccursAt(s, pat, j)
    ensures r.None? ==> forall j :: !OccursAt(s, pat, j)
  {
    IndexFrom(s, pat, 0)
  }

  /** `s.replace(pat, rep)` with `rep` inserted literally: only the first
      occurrence of `pat` is replaced; without one, `s` is returned as is. */
  function ReplaceFirst(s: string, pat: string, rep: string): string {
    match IndexOf(s, pat)
    case None => s
    case Some(i) => s[..i] + rep + s[i + |pat|..]
  }

  /** Without an occurrence of `pat`, `s` comes back unchanged. */
  lemma ReplaceFirstAbsent(s: string, pat: string, rep: string)
    requires forall j :: !OccursAt(s, pat, j)
    ensures ReplaceFirst(s, pat, rep) == s
  {
  }

  /** Only the first occurrence of `pat`, at `i`, is replaced. */
  lemma ReplaceFirstAt(s: string, pat: string, rep: string, i: nat)
    requires OccursAt(s, pat, i) && forall j :: 0 <= j < i ==> !OccursAt(s, pat, j)
    ensures ReplaceFirst(s, pat, rep) == s[..i] + rep + s[i + |pat|..]
  {
  }

  /** The replace chain: actual, then expected, then source, each step on
      the previous step's result. */
  function Substitute(template: string, f: Fields): string {
    ReplaceFirst(
      ReplaceFirst(
        ReplaceFirst(template, ActualPlaceholder, Bold(Display(f.actual))),
        ExpectedPlaceholder, Bold(Display(f.expected))),
      SourcePlaceholder, Bold(Display(f.source)))
  }

  /** The message passed to `super` by the ExpectationError constructor;
      `color` is the colour markup function, taken as a parameter. */
  function ExpectationMessage(template: string, f: Fields, color: string -> string): (m: string)
    ensures |m| >= 9 && m[..9] == "Expected " && m[9..] == color(Substitute(template, f))
  {
    "Expected " + color(Substitute(template, f))
  }

  /** The `message` property of an exception. */
  function ErrorMessage(e: JsError, color: string -> string): (m: string)
    ensures e.ExpectationError? ==> m == ExpectationMessage(e.template, e.fields, color)
    ensures !e.ExpectationError? ==> m == e.message
  {
    match e
    case ExpectationError(template, f) => ExpectationMessage(template, f, color)
    case TypeError(message) => message
    case Error(message) => message
  }

  /** Replacing the first occurrence leaves a later, non-overlapping
      occurrence in place, shifted by the change in length. */
  lemma SecondOccurrenceKept(s: string, pat: string, rep: string, i: nat, k: nat)
    requires OccursAt(s, pat, i) && forall j :: 0 <= j < i ==> !OccursAt(s, pat, j)
    requires OccursAt(s, pat, k) && i + |pat| <= k
    ensures OccursAt(ReplaceFirst(s, pat, rep), pat, k - |pat| + |rep|)
  {
    var r := ReplaceFirst(s, pat, rep);
    var tail := s[i + |pat|..];
    ReplaceFirstAt(s, pat, rep, i);
    assert r == s[..i] + rep + tail;
    var d := k - i - |pat|;
    assert tail[d..d + |pat|] == s[k..k + |pat|];
    assert r[i + |rep| + d..i + |rep| + d + |pat|] == tail[d..d + |pat|];
  }

  /** A template without placeholders reaches `color` unchanged. */
  lemma NoPlaceholderUnchanged(template: string, f: Fields)
    requires forall j :: !OccursAt(template, ActualPlaceholder, j)
    requires forall j :: !OccursAt(template, ExpectedPlaceholder, j)
    requires forall j :: !OccursAt(template, SourcePlaceholder, j)
    ensures Substitute(template, f) == template
  {
    ReplaceFirstAbsent(template, ActualPlaceholder, Bold(Display(f.actual)));
    ReplaceFirstAbsent(template, ExpectedPlaceholder, Bold(Display(f.expected)));
    ReplaceFirstAbsent(template, SourcePlaceholder, Bold(Display(f.source)));
  }

  /** `pat` occurs in `s` at `i` and nowhere before. */
  predicate FirstAt(s: string, pat: string, i: nat) {
    OccursAt(s, pat, i) && forall j :: 0 <= j < i ==> !OccursAt(s, pat, j)
  }

  /** An absent field prints as "<bold>undefined</bold>": at each of the
      three steps of the chain, wherever the field's placeholder first
      occurs in the string that step works on, it is replaced by that
      text and nothing else changes. */
  lemma AbsentFieldPrintsUndefined(template: string, f: Fields, i: nat, k: nat, l: nat)
    ensures var s1 := ReplaceFirst(template, ActualPlaceholder, Bold(Display(f.actual)));
            f.actual.Undefined? && FirstAt(template, ActualPlaceholder, i) ==>
              s1 == template[..i] + "<bold>undefined</bold>" + template[i + |ActualPlaceholder|..]
    ensures var s1 := ReplaceFirst(template, ActualPlaceholder, Bold(Display(f.actual)));
            var s2 := ReplaceFirst(s1, ExpectedPlaceholder, Bold(Display(f.expected)));
            f.expected.Undefined? && FirstAt(s1, ExpectedPlaceholder, k) ==>
              s2 == s1[..k] + "<bold>undefined</bold>" + s1[k + |ExpectedPlaceholder|..]
    ensures var s1 := ReplaceFirst(template, ActualPlaceholder, Bold(Display(f.actual)));
            var s2 := ReplaceFirst(s1, ExpectedPlaceholder, Bold(Display(f.expected)));
            f.source.Undefined? && FirstAt(s2, SourcePlaceholder, l) ==>
              Substitute(template, f) == s2[..l] + "<bold>undefined</bold>" + s2[l + |SourcePlaceholder|..]
  {
    var s1 := ReplaceFirst(template, ActualPlaceholder, Bold(Display(f.actual)));
    var s2 := ReplaceFirst(s1, ExpectedPlaceholder, Bold(Display(f.expected)));
    if f.actual.Undefined? && FirstAt(template, ActualPlaceholder, i) {
      UndefinedStep(template, ActualPlaceholder, f.actual, i);
    }
    if f.expected.Undefined? && FirstAt(s1, ExpectedPlaceholder, k) {
      UndefinedStep(s1, ExpectedPlaceholder, f.expected, k);
    }
    if f.source.Undefined? && FirstAt(s2, SourcePlaceholder, l) {
      UndefinedStep(s2, SourcePlaceholder, f.source, l);
    }
  }

  /** One step of the chain with an absent field. */
  lemma UndefinedStep(s: string, pat: string, v: Value, i: nat)
    requires v.Undefined? && FirstAt(s, pat, i)
    ensures ReplaceFirst(s, pat, Bold(Display(v))) == s[..i] + "<bold>undefined</bold>" + s[i + |pat|..]
  {
    assert Bold(Display(v)) == "<bold>undefined</bold>";
    ReplaceFirstAt(s, pat, Bold(Display(v)), i);
  }

  /** A character of `pat` that never appears where it would have to
      rules out every occurrence of `pat` starting in [lo, hi). */
  lemma CharRulesOut(s: string, pat: string, m: nat, lo: nat, hi: nat)
    requires m < |pat| && lo <= hi && hi + m <= |s|
    requires pat[m] !in s[lo + m..hi + m]
    ensures forall j :: lo <= j < hi ==> !OccursAt(s, pat, j)
  {
    forall j | lo <= j < hi ensures !OccursAt(s, pat, j) {
      assert s[lo + m..hi + m][j - lo] == s[j + m];
      assert j + |pat| <= |s| ==> s[j..j + |pat|][m] == s[j + m];
    }
  }

  /** A string that is exactly `pat` becomes exactly `rep`. */
  lemma ReplaceWhole(pat: string, rep: string)
    ensures ReplaceFirst(pat, pat, rep) == rep
  {
    assert OccursAt(pat, pat, 0) by { assert pat[0..|pat|] == pat; }
    ReplaceFirstAt(pat, pat, rep, 0);
  }

  lemma ExpectedInsideBold()
    ensures ReplaceFirst(Bold(ExpectedPlaceholder), ExpectedPlaceholder, Bold("E"))
            == "<bold><bold>E</bold></bold>"
  {
    var s1 := Bold(ExpectedPlaceholder);
    ExpectedFirstInBold();
    ReplaceFirstAt(s1, ExpectedPlaceholder, Bold("E"), 6);
    assert s1[..6] == "<bold>" && s1[16..] == "</bold>";
  }

  lemma ExpectedFirstInBold()
    ensures FirstAt(Bold(ExpectedPlaceholder), ExpectedPlaceholder, 6)
  {
    var s1 := Bold(ExpectedPlaceholder);
    assert s1 == "<bold><expected></bold>";
    assert OccursAt(s1, ExpectedPlaceholder, 6) by { assert s1[6..16] == ExpectedPlaceholder; }
    assert s1[1..7] == "bold><";
    CharRulesOut(s1, ExpectedPlaceholder, 1, 0, 6);
  }

  lemma NoSourceInNestedBold()
    ensures forall j :: !OccursAt("<bold><bold>E</bold></bold>", SourcePlaceholder, j)
  {
    var s2 := "<bold><bold>E</bold></bold>";
    assert 's' !in s2[1..21];
    CharRulesOut(s2, SourcePlaceholder, 1, 0, |s2| - 7);
  }

  /** Placeholder text inside an already inserted value is consumed by a
      later step: an actual value printing as "<expected>" ends up holding
      the expected value. */
  lemma InsertedPlaceholderIsConsumed()
    ensures Substitute(ActualPlaceholder, Fields(Str(ExpectedPlaceholder), Str("E"), Undefined))
            == "<bold><bold>E</bold></bold>"
  {
    ReplaceWhole(ActualPlaceholder, Bold(ExpectedPlaceholder));
    ExpectedInsideBold();
    NoSourceInNestedBold();
    ReplaceFirstAbsent("<bold><bold>E</bold></bold>", SourcePlaceholder, Bold(Display(Undefined)));
  }

  /*
   * The replace chain as the code has it. With a string as its second
   * argument, String.prototype.replace does not insert that string
   * literally: it expands "$" patterns in it (GetSubstitution in ECMA-262).
   * With a string pattern there are no capture groups, so only four patterns
   * are special: "$$" gives "$", "$&" the matched text, "$`" the text before
   * the match and "$'" the text after it; everything else is copied.
   */

  function ExpandReplacement(rep: string, matched: string, before: string, after: string): string
    decreases |rep|
  {
    if rep == [] then ""
    else if rep[0] == '$' && |rep| >= 2 && rep[1] in "$&`'" then
      var piece := if rep[1] == '$' then "$"
                   else if rep[1] == '&' then matched
                   else if rep[1] == '`' then before
                   else after;
      piece + ExpandReplacement(rep[2..], matched, before, after)
    else [rep[0]] + ExpandReplacement(rep[1..], matched, before, after)
  }

  /** `s.replace(pat, rep)` exactly as JavaScript evaluates it. */
  function ReplaceFirstAsWritten(s: string, pat: string, rep: string): string {
    match IndexOf(s, pat)
    case None => s
    case Some(i) => s[..i] + ExpandReplacement(rep, pat, s[..i], s[i + |pat|..]) + s[i + |pat|..]
  }

  /** As for the literal replacement, only the first occurrence, at `i`,
      is replaced, here by the expansion of `rep`. */
  lemma ReplaceFirstAsWrittenAt(s: string, pat: string, rep: string, i: nat)
    requires OccursAt(s, pat, i) && forall j :: 0 <= j < i ==> !OccursAt(s, pat, j)
    ensures ReplaceFirstAsWritten(s, pat, rep)
            == s[..i] + ExpandReplacement(rep, pat, s[..i], s[i + |pat|..]) + s[i + |pat|..]
  {
  }

  /** The replace chain of the ExpectationError constructor as written. */
  function SubstituteAsWritten(template: string, f: Fields): string {
    ReplaceFirstAsWritten(
      ReplaceFirstAsWritten(
        ReplaceFirstAsWritten(template, ActualPlaceholder, Bold(Display(f.actual))),
        ExpectedPlaceholder, Bold(Display(f.expected))),
      SourcePlaceholder, Bold(Display(f.source)))
  }

  /** A replacement without "$" is inserted literally. */
  lemma {:induction false} ExpansionWithoutDollarIsLiteral(rep: string, matched: string, before: string, after: string)
    requires '$' !in rep
    ensures ExpandReplacement(rep, matched, before, after) == rep
  {
    if rep != [] {
      assert rep[0] != '$';
      ExpansionWithoutDollarIsLiteral(rep[1..], matched, before, after);
      assert rep == [rep[0]] + rep[1..];
    }
  }

  /** The code and the literal replacement agree whenever no inserted text
      holds a "$". */
  lemma AsWrittenAgreesWithoutDollar(template: string, f: Fields)
    requires '$' !in Display(f.actual) && '$' !in Display(f.expected) && '$' !in Display(f.source)
    ensures SubstituteAsWritten(template, f) == Substitute(template, f)
  {
    forall v: Value | '$' !in Display(v) ensures '$' !in Bold(Display(v)) {
      assert Bold(Display(v)) == "<bold>" + Display(v) + "</bold>";
    }
    forall s: string, pat: string, rep: string | '$' !in rep
      ensures ReplaceFirstAsWritten(s, pat, rep) == ReplaceFirst(s, pat, rep)
    {
      match IndexOf(s, pat)
      case None =>
      case Some(i) => ExpansionWithoutDollarIsLiteral(rep, pat, s[..i], s[i + |pat|..]);
    }
  }

  /** An inserted text "$&" (an actual value printing as "$&", say)
      echoes the placeholder it replaces, where a literal insertion prints
      "$&": with the first "<actual>" of "<actual> to be <expected>" at 0,
      the code yields "<bold><actual></bold> to be <expected>". */
  lemma DollarAmpersandEchoesPattern(s: string, pat: string, i: nat)
    requires OccursAt(s, pat, i) && forall j :: 0 <= j < i ==> !OccursAt(s, pat, j)
    ensures ReplaceFirstAsWritten(s, pat, Bold("$&")) == s[..i] + Bold(pat) + s[i + |pat|..]
    ensures ReplaceFirst(s, pat, Bold("$&")) == s[..i] + Bold("$&") + s[i + |pat|..]
    ensures pat != "$&" ==> ReplaceFirstAsWritten(s, pat, Bold("$&")) != ReplaceFirst(s, pat, Bold("$&"))
  {
    ReplaceFirstAsWrittenAt(s, pat, Bold("$&"), i);
    ExpandedBoldDollarAmpersand(pat, s[..i], s[i + |pat|..]);
    ReplaceFirstAt(s, pat, Bold("$&"), i);
    if pat != "$&" {
      BoldInjective(pat, "$&");
      MiddleDiffers(s[..i], Bold(pat), Bold("$&"), s[i + |pat|..]);
    }
  }

  lemma BoldInjective(a: string, b: string)
    requires a != b
    ensures Bold(a) != Bold(b)
  {
    assert Bold(a)[6..|Bold(a)| - 7] == a;
    assert Bold(b)[6..|Bold(b)| - 7] == b;
  }

  lemma MiddleDiffers(x: string, u: string, v: string, y: string)
    requires u != v
    ensures x + u + y != x + v + y
  {
    if |u| == |v| {
      assert (x + u + y)[|x|..|x| + |u|] == u;
      assert (x + v + y)[|x|..|x| + |v|] == v;
    }
  }

  lemma ExpandedBoldDollarAmpersand(matched: string, before: string, after: string)
    ensures ExpandReplacement(Bold("$&"), matched, before, after) == "<bold>" + matched + "</bold>"
  {
    ExpandAroundDollarAmpersand("<bold>", "</bold>", matched, before, after);
    assert Bold("$&") == "<bold>" + "$&" + "</bold>";
  }

  /** "$&" between two "$"-free pieces inserts the matched text there. */
  lemma ExpandAroundDollarAmpersand(x: string, y: string, matched: string, before: string, after: string)
    requires '$' !in x && '$' !in y
    ensures ExpandReplacement(x + "$&" + y, matched, before, after) == x + matched + y
  {
    var q := "$&" + y;
    assert x + "$&" + y == x + q;
    ExpandPrefix(x, q, matched, before, after);
    assert q[0] == '$' && q[1] == '&' && q[2..] == y;
    ExpansionWithoutDollarIsLiteral(y, matched, before, after);
  }

  /** A "$"-free prefix expands to itself in front of the rest. */
  lemma {:induction false} ExpandPrefix(p: string, q: string, matched: string, before: string, after: string)
    requires '$' !in p
    ensures ExpandReplacement(p + q, matched, before, after) == p + ExpandReplacement(q, matched, before, after)
  {
    if p != [] {
      assert (p + q)[0] == p[0] && (p + q)[1..] == p[1..] + q;
      ExpandPrefix(p[1..], q, matched, before, after);
      assert p == [p[0]] + p[1..];
    } else {
      assert p + q == q;
    }
  }
}
