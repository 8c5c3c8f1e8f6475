/** The range-specification grammar of `HealthEvaluator.ParseAndCheckRange`:
    after trimming, a specification is tried as `<=N`, `<N`, `>=N`, `>N`,
    `min-max` and finally an exact value `N`, in that order; the first form
    whose leading syntax fits decides, and a number that does not parse means
    "no match", never an error. */
module RangeParser {
  import opened Wrappers
  import opened Text
  import opened Numbers

  /** The four comparison operators of the grammar. */
  datatype Comparison = AtMost | Below | AtLeast | Above

  function Holds(value: real, op: Comparison, limit: real): bool {
    match op
    case AtMost => value <= limit
    case Below => value < limit
    case AtLeast => value >= limit
    case Above => value > limit
  }

  /** `value op N`, where `N` is `operand` read as a number; no match when it
      does not parse. */
  function CheckLimit(value: real, op: Comparison, operand: string): bool {
    match ParseNumber(operand)
    case Some(limit) => Holds(value, op, limit)
    case None => false
  }

  /** `min-max`: exactly two pieces around the `-`s, both numbers. */
  function CheckInterval(value: real, spec: string): bool {
    var parts := Split(spec, '-');
    if |parts| == 2 && ParseNumber(parts[0]).Some? && ParseNumber(parts[1]).Some? then
      value >= ParseNumber(parts[0]).value && value <= ParseNumber(parts[1]).value
    else
      false
  }

  /** A plain number matches only itself. */
  function CheckExact(value: real, spec: string): bool {
    match ParseNumber(spec)
    case Some(exactValue) => value == exactValue
    case None => false
  }

  /** The six forms, in the order they are tried, on a trimmed specification. */
  function CheckSpec(value: real, spec: string): bool {
    if StartsWith(spec, "<=") then CheckLimit(value, AtMost, spec[2..])
    else if StartsWith(spec, "<") then CheckLimit(value, Below, spec[1..])
    else if StartsWith(spec, ">=") then CheckLimit(value, AtLeast, spec[2..])
    else if StartsWith(spec, ">") then CheckLimit(value, Above, spec[1..])
    else if '-' in spec then CheckInterval(value, spec)
    else CheckExact(value, spec)
  }

  /** Whether `value` satisfies the range specification `rangeString`. */
  function ParseAndCheckRange(value: real, rangeString: Option<string>): bool {
    if IsNullOrWhiteSpace(rangeString) then false else CheckSpec(value, Trim(rangeString.value))
  }

  /** What a present specification matches is decided by its trimmed text. */
  lemma CheckTrimmed(value: real, s: string)
    ensures ParseAndCheckRange(value, Some(s)) == (Trim(s) != [] && CheckSpec(value, Trim(s)))
  {
    TrimProperties(s);
  }

  /** A missing or blank specification never matches, and surrounding white
      space does not change what a specification matches. */
  lemma BlankAndTrim(value: real, s: string)
    ensures !ParseAndCheckRange(value, None)
    ensures IsBlank(s) ==> !ParseAndCheckRange(value, Some(s))
    ensures ParseAndCheckRange(value, Some(s)) == ParseAndCheckRange(value, Some(Trim(s)))
  {
    TrimProperties(s);
  }

  /** How each comparison is written. */
  function Operator(op: Comparison): string {
    match op
    case AtMost => "<="
    case Below => "<"
    case AtLeast => ">="
    case Above => ">"
  }

  /** The four operator forms. `<=` and `>=` are recognised before `<` and
      `>`, so `<N` and `>N` are read as such only when `N` does not start with
      `=`; once an operator is recognised, the rest must parse as a number or
      the specification does not match at all. */
  lemma OperatorForm(value: real, s: string, op: Comparison, rest: string)
    requires Trim(s) == Operator(op) + rest
    requires op == Below || op == Above ==> !StartsWith(rest, "=")
    ensures ParseAndCheckRange(value, Some(s)) <==>
      ParseNumber(rest).Some? && Holds(value, op, ParseNumber(rest).value)
  {
    CheckTrimmed(value, s);
    OperatorSpec(value, Trim(s), op, rest);
  }

  lemma OperatorSpec(value: real, spec: string, op: Comparison, rest: string)
    requires spec == Operator(op) + rest
    requires op == Below || op == Above ==> !StartsWith(rest, "=")
    ensures spec != [] && CheckSpec(value, spec) == CheckLimit(value, op, rest)
  {
    match op
    case AtMost => AtMostSpec(value, spec, rest);
    case AtLeast => AtLeastSpec(value, spec, rest);
    case Below => BelowSpec(value, spec, rest);
    case Above => AboveSpec(value, spec, rest);
  }

  lemma AtMostSpec(value: real, spec: string, rest: string)
    requires spec == "<=" + rest
    ensures CheckSpec(value, spec) == CheckLimit(value, AtMost, rest)
  {
    assert StartsWith(spec, "<=") && spec[2..] == rest;
  }

  lemma AtLeastSpec(value: real, spec: string, rest: string)
    requires spec == ">=" + rest
    ensures CheckSpec(value, spec) == CheckLimit(value, AtLeast, rest)
  {
    assert !StartsWith(spec, "<") && !StartsWith(spec, "<=") by { assert spec[0] == '>'; }
    assert StartsWith(spec, ">=") && spec[2..] == rest;
  }

  lemma BelowSpec(value: real, spec: string, rest: string)
    requires spec == "<" + rest && !StartsWith(rest, "=")
    ensures CheckSpec(value, spec) == CheckLimit(value, Below, rest)
  {
    OneCharOperator(spec, '<', rest);
    assert StartsWith(spec, "<") && spec[1..] == rest;
  }

  lemma AboveSpec(value: real, spec: string, rest: string)
    requires spec == ">" + rest && !StartsWith(rest, "=")
    ensures CheckSpec(value, spec) == CheckLimit(value, Above, rest)
  {
    OneCharOperator(spec, '>', rest);
    assert !StartsWith(spec, "<") && !StartsWith(spec, "<=") by { assert spec[0] == '>'; }
    assert StartsWith(spec, ">") && spec[1..] == rest;
  }

  lemma OneCharOperator(spec: string, c: char, rest: string)
    requires spec == [c] + rest && !StartsWith(rest, "=")
    ensures !StartsWith(spec, [c, '='])
  {
    if |rest| >= 1 {
      assert spec[..2] == [c, rest[0]];
      assert rest[..1] == [rest[0]];
    }
  }

  /** A trimmed specification whose first character is not an operator is
      an interval when it holds a `-` and an exact value otherwise. */
  lemma NoOperatorSpec(value: real, spec: string)
    requires spec != [] && spec[0] != '<' && spec[0] != '>'
    ensures CheckSpec(value, spec) == if '-' in spec then CheckInterval(value, spec) else CheckExact(value, spec)
  {
    assert !StartsWith(spec, "<") && !StartsWith(spec, ">") by {
      assert spec[..1][0] == spec[0];
    }
    assert !StartsWith(spec, "<=") && !StartsWith(spec, ">=") by {
      if |spec| >= 2 { assert spec[..2][0] == spec[0]; }
    }
  }

  /** The interval form: a specification without a leading operator that holds
      a `-` matches exactly when splitting it at every `-` gives two numbers
      `min` and `max` with `min <= value <= max`; so it needs exactly one `-`. */
  lemma IntervalForm(value: real, s: string)
    requires var spec := Trim(s); spec != [] && spec[0] != '<' && spec[0] != '>' && '-' in spec
    ensures var parts := Split(Trim(s), '-');
      ParseAndCheckRange(value, Some(s)) <==>
        && |parts| == 2
        && ParseNumber(parts[0]).Some? && ParseNumber(parts[1]).Some?
        && ParseNumber(parts[0]).value <= value <= ParseNumber(parts[1]).value
    ensures ParseAndCheckRange(value, Some(s)) ==> CountChar(Trim(s), '-') == 1
  {
    CheckTrimmed(value, s);
    NoOperatorSpec(value, Trim(s));
    SplitCount(Trim(s), '-');
  }

  /** A specification starting with `-` is read as an interval with an empty
      lower bound, so it never matches: neither "-5" nor "-5-10" can. */
  lemma LeadingHyphenNeverMatches(value: real, s: string)
    requires Trim(s) != [] && Trim(s)[0] == '-'
    ensures !ParseAndCheckRange(value, Some(s))
  {
    var spec := Trim(s);
    CheckTrimmed(value, s);
    NoOperatorSpec(value, spec);
    assert IndexOf(spec, '-') == 0;
    assert Split(spec, '-')[0] == "";
    ParseNumberBlank("");
  }

  /** The exact-value form: a specification with no operator and no `-`
      matches only the number it spells. */
  lemma ExactForm(value: real, s: string)
    requires var spec := Trim(s); spec != [] && spec[0] != '<' && spec[0] != '>' && '-' !in spec
    ensures ParseAndCheckRange(value, Some(s)) <==> ParseNumber(Trim(s)) == Some(value)
  {
    CheckTrimmed(value, s);
    NoOperatorSpec(value, Trim(s));
  }

  /** The operator forms with an integer bound, read as the arithmetic they
      denote. */
  lemma IntegerBounds(value: real, n: int)
    ensures ParseAndCheckRange(value, Some("<=" + IntToString(n))) <==> value <= n as real
    ensures ParseAndCheckRange(value, Some("<" + IntToString(n))) <==> value < n as real
    ensures ParseAndCheckRange(value, Some(">=" + IntToString(n))) <==> value >= n as real
    ensures ParseAndCheckRange(value, Some(">" + IntToString(n))) <==> value > n as real
  {
    ParseIntToString(n);
    var digits := IntToString(n);
    BoundForm(value, AtMost, n);
    BoundForm(value, Below, n);
    BoundForm(value, AtLeast, n);
    BoundForm(value, Above, n);
  }

  /** An operator followed by a rendered integer: already trimmed, and the
      integer does not start with `=`. */
  lemma BoundForm(value: real, op: Comparison, n: int)
    ensures ParseAndCheckRange(value, Some(Operator(op) + IntToString(n))) <==> Holds(value, op, n as real)
  {
    var digits := IntToString(n);
    var s := Operator(op) + digits;
    IntToStringShape(n);
    assert !StartsWith(digits, "=") by { assert digits[0] != '='; }
    assert !IsWhiteSpace(s[0]) && !IsWhiteSpace(s[|s| - 1]) by {
      assert s[|s| - 1] == digits[|digits| - 1];
    }
    assert Trim(s) == s;
    ParseIntToString(n);
    OperatorForm(value, s, op, digits);
  }

  /** The interval form with natural bounds, read as the closed interval it
      denotes; in particular an interval whose lower bound exceeds its upper
      bound matches nothing. */
  lemma NaturalInterval(value: real, lo: nat, hi: nat)
    ensures ParseAndCheckRange(value, Some(NatToString(lo) + "-" + NatToString(hi))) <==> lo as real <= value <= hi as real
  {
    var a, b := NatToString(lo), NatToString(hi);
    var s := a + "-" + b;
    assert ParseAndCheckRange(value, Some(s)) == CheckSpec(value, s) by {
      NaturalIntervalTrimmed(a, b, s);
      TrimmedSpec(value, s, s);
    }
    assert CheckSpec(value, s) == CheckInterval(value, s) by {
      NaturalIntervalTrimmed(a, b, s);
      NaturalIntervalSplit(a, b);
      DigitLeadSpec(value, s);
    }
    assert CheckInterval(value, s) <==> lo as real <= value <= hi as real by {
      NaturalIntervalSplit(a, b);
      ParseNatural(lo);
      ParseNatural(hi);
      IntervalOfParts(value, s, a, b);
    }
  }

  /** A specification that is already trimmed is checked as it stands. */
  lemma TrimmedSpec(value: real, s: string, t: string)
    requires t == Trim(s) && t == s && t != []
    ensures ParseAndCheckRange(value, Some(s)) == CheckSpec(value, t)
  {
    CheckTrimmed(value, s);
  }

  /** A specification that starts with a digit and holds a `-` is an interval. */
  lemma DigitLeadSpec(value: real, s: string)
    requires |s| >= 1 && IsDigit(s[0]) && '-' in s
    ensures CheckSpec(value, s) == CheckInterval(value, s)
  {
    NoOperatorSpec(value, s);
  }

  lemma IntervalOfParts(value: real, s: string, a: string, b: string)
    requires Split(s, '-') == [a, b]
    requires ParseNumber(a).Some? && ParseNumber(b).Some?
    ensures CheckInterval(value, s) <==> ParseNumber(a).value <= value <= ParseNumber(b).value
  {
  }

  lemma NaturalIntervalSplit(a: string, b: string)
    requires AllDigits(a) && AllDigits(b)
    ensures '-' in a + "-" + b
    ensures Split(a + "-" + b, '-') == [a, b]
  {
    var s := a + "-" + b;
    assert s[|a|] == '-';
    assert '-' !in a && '-' !in b by {
      assert forall i :: 0 <= i < |a| ==> IsDigit(a[i]);
      assert forall i :: 0 <= i < |b| ==> IsDigit(b[i]);
    }
    assert [a, b][1..] == [b];
    assert Join([a, b], ['-']) == s;
    SplitJoin([a, b], '-');
  }

  lemma NaturalIntervalTrimmed(a: string, b: string, s: string)
    requires |a| >= 1 && |b| >= 1 && IsDigit(a[0]) && IsDigit(b[|b| - 1]) && s == a + "-" + b
    ensures Trim(s) == s && IsDigit(s[0])
  {
    assert s[0] == a[0];
    assert s[|s| - 1] == b[|b| - 1];
    TrimUnchanged(s);
  }
}
