/** ECMAScript's global `parseFloat`, on exact reals.

    The wizard coerces its three numeric fields with `parseFloat(input) || 0`.
    `parseFloat` skips leading white space, then reads the longest prefix that
    is a decimal literal (optional sign, digits with an optional fraction, an
    optional exponent) and ignores the rest; with no such prefix the result is
    NaN, which is `None` here.

    The longest prefix is found the way a scanner finds it: one character at
    a time, remembering in the state what the prefix read so far is worth. */
module Numbers {
  import opened Wrappers

  /** The WhiteSpace and LineTerminator code points of ECMAScript. */
  predicate IsJsSpace(c: char) {
    || c == '\t' || c == '\n' || c == '\U{B}' || c == '\U{C}' || c == '\r'
    || c == ' ' || c == '\U{A0}' || c == '\U{1680}' || ('\U{2000}' <= c <= '\U{200A}')
    || c == '\U{2028}' || c == '\U{2029}' || c == '\U{202F}' || c == '\U{205F}'
    || c == '\U{3000}' || c == '\U{FEFF}'
  }

  predicate IsDigit(c: char) {
    '0' <= c <= '9'
  }

  predicate AllDigits(d: string) {
    forall i :: 0 <= i < |d| ==> IsDigit(d[i])
  }

  function DigitValue(c: char): nat
    requires IsDigit(c)
  {
    c as int - '0' as int
  }

  /** The value of a string of decimal digits, most significant first. */
  function DigitsValue(d: string): nat
    requires AllDigits(d)
  {
    if |d| == 0 then 0 else DigitsValue(d[..|d| - 1]) * 10 + DigitValue(d[|d| - 1])
  }

  function Pow10(n: nat): (p: nat)
    ensures p >= 1
  {
    if n == 0 then 1 else 10 * Pow10(n - 1)
  }

  /** Where the scanner stands. `neg` is the sign read, `m` the digits of the
      mantissa read as one integer, `k` how many of them follow the point,
      `eneg` and `e` the sign and digits of the exponent. */
  datatype Scanner =
    | Blank                                        // only white space so far
    | Signed(neg: bool)                            // a sign
    | BarePoint(neg: bool)                         // a point with no digit before it
    | Mantissa(neg: bool, m: nat, k: nat, point: bool)  // at least one digit
    | Mark(neg: bool, m: nat, k: nat)              // a mantissa and `e` or `E`
    | ExponentSign(neg: bool, m: nat, k: nat, eneg: bool)  // ... and a sign
    | Exponent(neg: bool, m: nat, k: nat, eneg: bool, e: nat)  // ... and digits
    | Stopped(at: Scanner)                          // the literal ended in state `at`

  /** The value of `±m` with `k` digits after the point, scaled by ten to
      the power `e`, or to the power `-e` when `eneg`. */
  function LiteralValue(neg: bool, m: nat, k: nat, eneg: bool, e: nat): real {
    var v := if eneg then m as real / (Pow10(k) * Pow10(e)) as real
             else (m * Pow10(e)) as real / Pow10(k) as real;
    if neg then -v else v
  }

  /** The value of the longest decimal literal read so far: none before a
      digit, and the mantissa alone while an exponent is incomplete. */
  function Outcome(st: Scanner): Option<real> {
    match st
    case Blank => None
    case Signed(_) => None
    case BarePoint(_) => None
    case Mantissa(neg, m, k, _) => Some(LiteralValue(neg, m, k, false, 0))
    case Mark(neg, m, k) => Some(LiteralValue(neg, m, k, false, 0))
    case ExponentSign(neg, m, k, _) => Some(LiteralValue(neg, m, k, false, 0))
    case Exponent(neg, m, k, eneg, e) => Some(LiteralValue(neg, m, k, eneg, e))
    case Stopped(at) => Outcome(at)
  }

  /** One character of input. A character that cannot continue the literal
      stops the scanner where it stood, keeping the value read so far. */
  function Next(st: Scanner, c: char): Scanner {
    match st
    case Blank =>
      if IsJsSpace(c) then Blank
      else if c == '+' || c == '-' then Signed(c == '-')
      else if IsDigit(c) then Mantissa(false, DigitValue(c), 0, false)
      else if c == '.' then BarePoint(false)
      else Stopped(st)
    case Signed(neg) =>
      if IsDigit(c) then Mantissa(neg, DigitValue(c), 0, false)
      else if c == '.' then BarePoint(neg)
      else Stopped(st)
    case BarePoint(neg) =>
      if IsDigit(c) then Mantissa(neg, DigitValue(c), 1, true)
      else Stopped(st)
    case Mantissa(neg, m, k, point) =>
      if IsDigit(c) then Mantissa(neg, m * 10 + DigitValue(c), if point then k + 1 else k, point)
      else if c == '.' && !point then Mantissa(neg, m, k, true)
      else if c == 'e' || c == 'E' then Mark(neg, m, k)
      else Stopped(st)
    case Mark(neg, m, k) =>
      if IsDigit(c) then Exponent(neg, m, k, false, DigitValue(c))
      else if c == '+' || c == '-' then ExponentSign(neg, m, k, c == '-')
      else Stopped(st)
    case ExponentSign(neg, m, k, eneg) =>
      if IsDigit(c) then Exponent(neg, m, k, eneg, DigitValue(c))
      else Stopped(st)
    case Exponent(neg, m, k, eneg, e) =>
      if IsDigit(c) then Exponent(neg, m, k, eneg, e * 10 + DigitValue(c))
      else Stopped(st)
    case Stopped(_) => st
  }

  /** The scanner after reading `s`, or after the character that stopped it. */
  function Scan(s: string, st: Scanner): Scanner {
    if |s| == 0 || st.Stopped? then st else Scan(s[1..], Next(st, s[0]))
  }

  /** `parseFloat(s)`: `None` stands for NaN. */
  function ParseFloat(s: string): Option<real> {
    Outcome(Scan(s, Blank))
  }

  /** The input with its leading white space removed. */
  function TrimStart(s: string): (t: string)
    ensures |t| <= |s| && t == s[|s| - |t|..]
    ensures t == [] || !IsJsSpace(t[0])
    ensures forall i :: 0 <= i < |s| - |t| ==> IsJsSpace(s[i])
  {
    if |s| > 0 && IsJsSpace(s[0]) then
      var t := TrimStart(s[1..]);
      assert s[|s| - |t|..] == s[1..][|s| - 1 - |t|..];
      assert forall i :: 1 <= i < |s| - |t| ==> s[i] == s[1..][i - 1];
      t
    else s
  }

  /** The decimal rendering of a natural number, as JavaScript's `String(n)`
      writes it for a safe integer. */
  function NatToDecimal(n: nat): (d: string)
    ensures |d| >= 1 && AllDigits(d)
  {
    if n < 10 then ['0' + n as char]
    else NatToDecimal(n / 10) + ['0' + (n % 10) as char]
  }

  lemma {:induction false} DigitsValueOfDecimal(n: nat)
    ensures DigitsValue(NatToDecimal(n)) == n
  {
    if n >= 10 {
      var d := NatToDecimal(n);
      assert d[..|d| - 1] == NatToDecimal(n / 10);
      DigitsValueOfDecimal(n / 10);
    }
  }

  /** Digits read after a mantissa `m` extend it digit by digit, so the
      mantissa read from the whole of `d` is `m` followed by `d`; after the
      point, each of them also counts as one more fraction digit. */
  lemma {:induction false} ScanDigits(d: string, tail: string, neg: bool, m: nat, k: nat, point: bool)
    requires AllDigits(d)
    ensures Scan(d + tail, Mantissa(neg, m, k, point))
         == Scan(tail, Mantissa(neg, m * Pow10(|d|) + DigitsValue(d), if point then k + |d| else k, point))
    decreases |d|
  {
    if |d| == 0 {
      assert d + tail == tail;
    } else {
      var last := d[|d| - 1];
      var init := d[..|d| - 1];
      assert AllDigits(init);
      assert d + tail == init + ([last] + tail);
      ScanDigits(init, [last] + tail, neg, m, k, point);
      var m' := m * Pow10(|init|) + DigitsValue(init);
      var k' := if point then k + |init| else k;
      assert ([last] + tail)[1..] == tail;
      assert Scan([last] + tail, Mantissa(neg, m', k', point))
          == Scan(tail, Mantissa(neg, m' * 10 + DigitValue(last), if point then k' + 1 else k', point));
      assert DigitsValue(d) == DigitsValue(init) * 10 + DigitValue(last);
      Shift(m, Pow10(|init|), DigitsValue(init), DigitValue(last));
    }
  }

  /** Digits read after the start of an exponent `e` extend it the same way. */
  lemma {:induction false} ScanExponentDigits(d: string, tail: string, neg: bool, m: nat, k: nat, eneg: bool, e: nat)
    requires AllDigits(d)
    ensures Scan(d + tail, Exponent(neg, m, k, eneg, e))
         == Scan(tail, Exponent(neg, m, k, eneg, e * Pow10(|d|) + DigitsValue(d)))
    decreases |d|
  {
    if |d| == 0 {
      assert d + tail == tail;
    } else {
      var last := d[|d| - 1];
      var init := d[..|d| - 1];
      assert AllDigits(init);
      assert d + tail == init + ([last] + tail);
      ScanExponentDigits(init, [last] + tail, neg, m, k, eneg, e);
      var e' := e * Pow10(|init|) + DigitsValue(init);
      assert ([last] + tail)[1..] == tail;
      assert Scan([last] + tail, Exponent(neg, m, k, eneg, e'))
          == Scan(tail, Exponent(neg, m, k, eneg, e' * 10 + DigitValue(last)));
      assert DigitsValue(d) == DigitsValue(init) * 10 + DigitValue(last);
      Shift(e, Pow10(|init|), DigitsValue(init), DigitValue(last));
    }
  }

  /** Appending a digit to `m` followed by `v`'s digits. */
  lemma Shift(m: nat, p: nat, v: nat, c: nat)
    ensures (m * p + v) * 10 + c == m * (10 * p) + (v * 10 + c)
  {
  }

  /** A run of digits starting the input, followed by `tail`, is read as one
      mantissa: the first digit starts it as it would extend a mantissa 0. */
  lemma DigitsFromBlank(d: string, tail: string)
    requires |d| >= 1 && AllDigits(d)
    ensures Scan(d + tail, Blank) == Scan(tail, Mantissa(false, DigitsValue(d), 0, false))
  {
    var u := d + tail;
    assert u[0] == d[0];
    assert Next(Blank, u[0]) == Next(Mantissa(false, 0, 0, false), u[0]);
    assert Scan(u, Blank) == Scan(u, Mantissa(false, 0, 0, false));
    ScanDigits(d, tail, false, 0, 0, false);
  }

  /** Parsing the decimal rendering of a natural number gives that number back. */
  lemma ParseDecimal(n: nat)
    ensures ParseFloat(NatToDecimal(n)) == Some(n as real)
  {
    var d := NatToDecimal(n);
    assert d + [] == d;
    DigitsFromBlank(d, []);
    DigitsValueOfDecimal(n);
  }

  /** Reading `s` and then `t` is reading `s + t`. */
  lemma {:induction false} ScanAppend(s: string, t: string, st: Scanner)
    ensures Scan(s + t, st) == Scan(t, Scan(s, st))
    decreases |s|
  {
    if |s| == 0 {
      assert s + t == t;
    } else if !st.Stopped? {
      assert (s + t)[0] == s[0] && (s + t)[1..] == s[1..] + t;
      ScanAppend(s[1..], t, Next(st, s[0]));
    }
  }

  /** A character that can neither extend a literal nor precede one. */
  predicate EndsLiteral(c: char) {
    !IsJsSpace(c) && !IsDigit(c) && c != '+' && c != '-' && c != '.' && c != 'e' && c != 'E'
  }

  /** Such a character stops the scanner wherever it stands, keeping the
      value read so far; nothing after it is looked at. */
  lemma StopsAt(c: char, rest: string, st: Scanner)
    requires EndsLiteral(c)
    ensures Outcome(Scan([c] + rest, st)) == Outcome(st)
  {
    if !st.Stopped? {
      assert ([c] + rest)[1..] == rest;
      assert Next(st, c) == Stopped(st);
    }
  }

  /** Text is ignored from the first character that cannot belong to a
      literal: whatever `s` parses to, `s` followed by it and anything else
      parses to the same. */
  lemma ParseStopsAtTerminator(s: string, c: char, rest: string)
    requires EndsLiteral(c)
    ensures ParseFloat(s + [c] + rest) == ParseFloat(s)
  {
    assert s + [c] + rest == s + ([c] + rest);
    ScanAppend(s, [c] + rest, Blank);
    StopsAt(c, rest, Scan(s, Blank));
  }

  /** Text after a number is ignored: a digit string followed by any
      character that is not a digit, a point or an exponent mark, and then
      by anything at all, parses to the digits' value. */
  lemma ParseIgnoresTrailing(n: nat, c: char, rest: string)
    requires !IsDigit(c) && c != '.' && c != 'e' && c != 'E'
    ensures ParseFloat(NatToDecimal(n) + [c] + rest) == Some(n as real)
  {
    var d := NatToDecimal(n);
    assert d + [c] + rest == d + ([c] + rest);
    DigitsFromBlank(d, [c] + rest);
    DigitsValueOfDecimal(n);
    var st := Mantissa(false, n, 0, false);
    assert ([c] + rest)[1..] == rest;
    assert Scan([c] + rest, st) == Scan(rest, Stopped(st)) == Stopped(st);
    assert Outcome(st) == Some(n as real) by {
      assert Pow10(0) == 1;
    }
  }

  /** Leading white space is skipped. */
  lemma {:induction false} ScanSkipsBlanks(s: string)
    ensures Scan(s, Blank) == Scan(TrimStart(s), Blank)
  {
    if |s| > 0 && IsJsSpace(s[0]) {
      ScanSkipsBlanks(s[1..]);
    }
  }

  function Negated(v: Option<real>): (r: Option<real>)
    ensures r.Some? <==> v.Some?
    ensures r.Some? ==> r.value == -v.value
  {
    match v
    case None => None
    case Some(x) => Some(-x)
  }

  /** The scanner state with the opposite sign read. */
  function Flip(st: Scanner): Scanner {
    match st
    case Blank => Blank
    case Signed(neg) => Signed(!neg)
    case BarePoint(neg) => BarePoint(!neg)
    case Mantissa(neg, m, k, point) => Mantissa(!neg, m, k, point)
    case Mark(neg, m, k) => Mark(!neg, m, k)
    case ExponentSign(neg, m, k, eneg) => ExponentSign(!neg, m, k, eneg)
    case Exponent(neg, m, k, eneg, e) => Exponent(!neg, m, k, eneg, e)
    case Stopped(at) => Stopped(Flip(at))
  }

  lemma FlipOutcome(st: Scanner)
    ensures Outcome(Flip(st)) == Negated(Outcome(st))
  {
    match st
    case Mantissa(neg, m, k, _) =>
      assert LiteralValue(!neg, m, k, false, 0) == -LiteralValue(neg, m, k, false, 0);
    case Mark(neg, m, k) =>
      assert LiteralValue(!neg, m, k, false, 0) == -LiteralValue(neg, m, k, false, 0);
    case ExponentSign(neg, m, k, _) =>
      assert LiteralValue(!neg, m, k, false, 0) == -LiteralValue(neg, m, k, false, 0);
    case Exponent(neg, m, k, eneg, e) =>
      assert LiteralValue(!neg, m, k, eneg, e) == -LiteralValue(neg, m, k, eneg, e);
    case Stopped(at) =>
      FlipOutcome(at);
    case _ =>
  }

  /** Once a sign is read, the rest of the scan does not depend on it. */
  lemma {:induction false} FlipScan(s: string, st: Scanner)
    requires !st.Blank?
    ensures Scan(s, Flip(st)) == Flip(Scan(s, st))
    decreases |s|
  {
    if |s| > 0 && !st.Stopped? {
      FlipOutcome(st);
      assert Next(Flip(st), s[0]) == Flip(Next(st, s[0]));
      FlipScan(s[1..], Next(st, s[0]));
    }
  }

  /** A minus sign negates the number that follows it, and a plus sign
      leaves it as it is. */
  lemma ParseNegative(s: string)
    requires |s| >= 1 && (IsDigit(s[0]) || s[0] == '.')
    ensures ParseFloat("-" + s) == Negated(ParseFloat(s))
    ensures ParseFloat("+" + s) == ParseFloat(s)
  {
    assert ("-" + s)[1..] == s && ("+" + s)[1..] == s;
    assert Scan("-" + s, Blank) == Scan(s, Signed(true));
    assert Scan("+" + s, Blank) == Scan(s, Signed(false));
    assert Next(Signed(false), s[0]) == Next(Blank, s[0]);
    assert Scan(s, Signed(false)) == Scan(s, Blank);
    FlipScan(s, Signed(false));
    FlipOutcome(Scan(s, Blank));
  }

  /** An input whose first non-blank character cannot start a decimal literal
      parses to NaN. */
  lemma NotNumericIsNaN(s: string)
    requires var t := TrimStart(s);
      t == [] || !(IsDigit(t[0]) || t[0] == '+' || t[0] == '-' || t[0] == '.')
    ensures ParseFloat(s) == None
  {
    ScanSkipsBlanks(s);
    var t := TrimStart(s);
    if t != [] {
      assert Scan(t, Blank) == Scan(t[1..], Stopped(Blank)) == Stopped(Blank);
    }
  }

  /** A point and digits after a mantissa `a` make them its fraction. */
  lemma ScanFraction(f: string, a: nat)
    requires AllDigits(f)
    ensures Scan("." + f, Mantissa(false, a, 0, false))
         == Mantissa(false, a * Pow10(|f|) + DigitsValue(f), |f|, true)
  {
    assert ("." + f)[1..] == f;
    assert Scan("." + f, Mantissa(false, a, 0, false)) == Scan(f, Mantissa(false, a, 0, true));
    ScanFractionDigits(f, a);
  }

  lemma ScanFractionDigits(f: string, a: nat)
    requires AllDigits(f)
    ensures Scan(f, Mantissa(false, a, 0, true)) == Mantissa(false, a * Pow10(|f|) + DigitsValue(f), |f|, true)
  {
    assert f + [] == f;
    ScanDigits(f, [], false, a, 0, true);
  }

  /** A mantissa with `k` digits after the point is worth `m` over ten to the `k`. */
  lemma FractionValue(m: nat, k: nat)
    ensures Outcome(Mantissa(false, m, k, true)) == Some(m as real / Pow10(k) as real)
  {
    assert Pow10(0) == 1;
  }

  /** The digits of `w` followed by those of `f` are worth `w`'s value
      shifted past `f`'s digits, plus `f`'s value. */
  lemma {:induction false} DigitsValueAppend(w: string, f: string)
    requires AllDigits(w) && AllDigits(f)
    ensures AllDigits(w + f)
    ensures DigitsValue(w + f) == DigitsValue(w) * Pow10(|f|) + DigitsValue(f)
    decreases |f|
  {
    if |f| > 0 {
      var init, last := f[..|f| - 1], f[|f| - 1];
      assert (w + f)[..|w + f| - 1] == w + init && (w + f)[|w + f| - 1] == last;
      DigitsValueAppend(w, init);
      Shift(DigitsValue(w), Pow10(|init|), DigitsValue(init), DigitValue(last));
    } else {
      assert w + f == w;
    }
  }

  /** Where the scanner stands after digits, a point and more digits. */
  lemma ScanDecimal(w: string, f: string)
    requires |w| >= 1 && AllDigits(w) && AllDigits(f)
    ensures AllDigits(w + f)
    ensures Scan(w + "." + f, Blank) == Mantissa(false, DigitsValue(w + f), |f|, true)
  {
    assert w + "." + f == w + ("." + f);
    DigitsFromBlank(w, "." + f);
    ScanFraction(f, DigitsValue(w));
    DigitsValueAppend(w, f);
  }

  /** Digits, a point and more digits: the value of all the digits together,
      over ten to the number of digits after the point. */
  lemma ParseFraction(w: string, f: string)
    requires |w| >= 1 && AllDigits(w) && AllDigits(f)
    ensures AllDigits(w + f)
    ensures ParseFloat(w + "." + f) == Some(DigitsValue(w + f) as real / Pow10(|f|) as real)
  {
    ScanDecimal(w, f);
    FractionValue(DigitsValue(w + f), |f|);
  }

  /** The digits of `n` read after an exponent mark, or after the mark and
      its sign, make `n` the exponent. */
  lemma ScanExponent(n: nat, a: nat, eneg: bool)
    ensures var d := NatToDecimal(n);
      Scan(d, if eneg then ExponentSign(false, a, 0, true) else Mark(false, a, 0))
      == Exponent(false, a, 0, eneg, n)
  {
    var d := NatToDecimal(n);
    var st := if eneg then ExponentSign(false, a, 0, true) else Mark(false, a, 0);
    assert Next(st, d[0]) == Next(Exponent(false, a, 0, eneg, 0), d[0]);
    assert Scan(d, st) == Scan(d, Exponent(false, a, 0, eneg, 0));
    assert d + [] == d;
    ScanExponentDigits(d, [], false, a, 0, eneg, 0);
    DigitsValueOfDecimal(n);
  }

  /** Where the scanner stands after digits, `e` or `e-`, and the digits of `n`. */
  lemma ScanScientific(w: string, eneg: bool, n: nat)
    requires |w| >= 1 && AllDigits(w)
    ensures Scan(w + (if eneg then "e-" else "e") + NatToDecimal(n), Blank)
         == Exponent(false, DigitsValue(w), 0, eneg, n)
  {
    var a, d := DigitsValue(w), NatToDecimal(n);
    var mark := if eneg then "e-" else "e";
    assert w + mark + d == w + (mark + d);
    DigitsFromBlank(w, mark + d);
    ScanMarkedExponent(a, eneg, n);
  }

  /** An exponent mark, its sign if any, and the digits of `n`, read after a
      mantissa `a`. */
  lemma ScanMarkedExponent(a: nat, eneg: bool, n: nat)
    ensures Scan((if eneg then "e-" else "e") + NatToDecimal(n), Mantissa(false, a, 0, false))
         == Exponent(false, a, 0, eneg, n)
  {
    var d := NatToDecimal(n);
    if eneg {
      assert "e-" + d == ['e'] + (['-'] + d);
      ScanStep('e', ['-'] + d, Mantissa(false, a, 0, false));
      ScanStep('-', d, Mark(false, a, 0));
    } else {
      assert "e" + d == ['e'] + d;
      ScanStep('e', d, Mantissa(false, a, 0, false));
    }
    ScanExponent(n, a, eneg);
  }

  /** One character read by a scanner that has not stopped. */
  lemma ScanStep(c: char, rest: string, st: Scanner)
    requires !st.Stopped?
    ensures Scan([c] + rest, st) == Scan(rest, Next(st, c))
  {
    assert ([c] + rest)[1..] == rest;
  }

  lemma ExponentValue(a: nat, n: nat)
    ensures Outcome(Exponent(false, a, 0, false, n)) == Some((a * Pow10(n)) as real)
    ensures Outcome(Exponent(false, a, 0, true, n)) == Some(a as real / Pow10(n) as real)
  {
    assert Pow10(0) == 1;
  }

  /** Digits, `e` and the digits of `n`: the mantissa times ten to the `n`. */
  lemma ParseExponent(w: string, n: nat)
    requires |w| >= 1 && AllDigits(w)
    ensures ParseFloat(w + "e" + NatToDecimal(n)) == Some((DigitsValue(w) * Pow10(n)) as real)
  {
    ScanScientific(w, false, n);
    ExponentValue(DigitsValue(w), n);
  }

  /** Digits, `e-` and the digits of `n`: the mantissa divided by ten to the `n`. */
  lemma ParseNegativeExponent(w: string, n: nat)
    requires |w| >= 1 && AllDigits(w)
    ensures ParseFloat(w + "e-" + NatToDecimal(n)) == Some(DigitsValue(w) as real / Pow10(n) as real)
  {
    ScanScientific(w, true, n);
    ExponentValue(DigitsValue(w), n);
  }

  /** The digits of the default fee, read as one integer, come to 5. */
  lemma FeeDigitsValue()
    ensures DigitsValue("00005") == 5
  {
    assert DigitsValue("0") == 0 && DigitsValue("5") == 5;
    assert "0" + "5" == "05" && "0" + "05" == "005" && "0" + "005" == "0005" && "0" + "0005" == "00005";
    DigitsValueAppend("0", "5");
    DigitsValueAppend("0", "05");
    DigitsValueAppend("0", "005");
    DigitsValueAppend("0", "0005");
  }

  /** The wizard's default priority fee, typed out, reads back exactly. */
  lemma DefaultFeeReadsBack()
    ensures ParseFloat("0.0005") == Some(0.0005)
  {
    assert "0.0005" == "0" + "." + "0005" && "0" + "0005" == "00005";
    ParseFraction("0", "0005");
    FeeDigitsValue();
    assert Pow10(4) == 10000;
  }
}
