/**
 * The regular expressions of the G-code parser, stated as functions on strings.
 *
 * Every pattern is used with Python's `re.match`, so it is anchored at the start of
 * the line and not at its end. `\s` is Python's Unicode whitespace class, `.` is any
 * character except a line feed, and `\d` is restricted to the ASCII digits.
 */
module GcodeText {
  import opened Wrappers

  /** The outcome of matching a pattern and converting its group with `float()`. */
  datatype Parsed<+T> = Unmatched | Ok(value: T) | Malformed

  /** `\d`, restricted to ASCII digits. */
  predicate IsDigit(c: char) {
    '0' <= c <= '9'
  }

  /** `\s` on a `str` pattern: exactly the characters for which `str.isspace()` holds. */
  predicate IsSpace(c: char) {
    || c == ' '
    || '\t' <= c <= '\r'
    || '\U{1C}' <= c <= '\U{1F}'
    || c == '\U{85}'
    || c == '\U{A0}'
    || c == '\U{1680}'
    || '\U{2000}' <= c <= '\U{200A}'
    || c == '\U{2028}'
    || c == '\U{2029}'
    || c == '\U{202F}'
    || c == '\U{205F}'
    || c == '\U{3000}'
  }

  /** The character classes the number group is built from. */
  datatype CharClass = Dash | Digit | Dot

  predicate In(c: char, cls: CharClass) {
    match cls
    case Dash => c == '-'
    case Digit => IsDigit(c)
    case Dot => c == '.'
  }

  /** `^tok`: the line starts with `tok`. */
  predicate StartsWith(line: string, tok: string) {
    |tok| <= |line| && line[..|tok|] == tok
  }

  /** `^tok\s+`: the line starts with `tok` followed by at least one whitespace character. */
  predicate StartsWithToken(line: string, tok: string) {
    |tok| < |line| && line[..|tok|] == tok && IsSpace(line[|tok|])
  }

  /** The greedy `[cls]*` at position `i`: the length of the longest run of `cls` characters starting there. */
  function Span(t: string, i: nat, cls: CharClass): (n: nat)
    requires i <= |t|
    ensures i + n <= |t|
    ensures i + n < |t| ==> !In(t[i + n], cls)
    decreases |t| - i
  {
    if i == |t| || !In(t[i], cls) then 0 else 1 + Span(t, i + 1, cls)
  }

  /** Every character the run covers is in the class. */
  lemma {:induction false} SpanRun(t: string, i: nat, cls: CharClass)
    requires i <= |t|
    ensures forall j :: i <= j < i + Span(t, i, cls) ==> In(t[j], cls)
    decreases |t| - i
  {
    if i < |t| && In(t[i], cls) {
      SpanRun(t, i + 1, cls);
    }
  }

  /** `Span` is the unique run length that cannot be extended. */
  lemma {:induction false} SpanIs(t: string, i: nat, cls: CharClass, n: nat)
    requires i + n <= |t|
    requires forall j :: i <= j < i + n ==> In(t[j], cls)
    requires i + n == |t| || !In(t[i + n], cls)
    ensures Span(t, i, cls) == n
    decreases n
  {
    if n > 0 {
      SpanIs(t, i + 1, cls, n - 1);
    }
  }

  /** `t[lo..hi]` lies in the string and consists of `cls` characters only. */
  predicate Run(t: string, lo: nat, hi: nat, cls: CharClass) {
    lo <= hi <= |t| && forall j :: lo <= j < hi ==> In(t[j], cls)
  }

  /**
   * What the number group `-*\d+\.*\d*` captures, as the lengths of its four runs:
   * dashes, whole digits, dots and fraction digits.
   */
  datatype NumToken = NumToken(dashes: nat, whole: nat, dots: nat, frac: nat)

  /**
   * A token the group can capture: at least one digit after the dashes, and digits after
   * the dots only when there is a dot (otherwise the greedy `\d+` would have taken them).
   * The unsigned group `\d+\.*\d*` has no dashes.
   */
  predicate WellFormed(tok: NumToken, signed: bool) {
    && (signed || tok.dashes == 0)
    && tok.whole >= 1
    && (tok.dots == 0 ==> tok.frac == 0)
  }

  /** The number of characters the group captures. */
  function Length(tok: NumToken): nat {
    tok.dashes + tok.whole + tok.dots + tok.frac
  }

  /**
   * `t` holds the token's runs from position `i` on and the greedy group stops right
   * after it: what follows is not a digit, nor a dot while the dot run could still grow.
   */
  predicate TokenAt(t: string, i: nat, tok: NumToken) {
    var a := i + tok.dashes;
    var b := a + tok.whole;
    var c := b + tok.dots;
    var n := c + tok.frac;
    && Run(t, i, a, Dash)
    && Run(t, a, b, Digit)
    && Run(t, b, c, Dot)
    && Run(t, c, n, Digit)
    && (n < |t| ==> !IsDigit(t[n]) && (tok.frac == 0 ==> t[n] != '.'))
  }

  /** The greedy `-*` of the signed group; the unsigned group has none. */
  function LeadingDashes(t: string, i: nat, signed: bool): (d: nat)
    requires i <= |t|
    ensures i + d <= |t|
  {
    if signed then Span(t, i, Dash) else 0
  }

  /** The group can match at position `i`: a digit follows the (greedy) dashes. */
  predicate HasNumber(t: string, i: nat, signed: bool)
    requires i <= |t|
  {
    var a := i + LeadingDashes(t, i, signed);
    a < |t| && IsDigit(t[a])
  }

  /**
   * The group `-*\d+\.*\d*` (signed) or `\d+\.*\d*` (unsigned) matched greedily at
   * position `i`; `None` when no digit follows the dashes.
   */
  function ScanNumber(t: string, i: nat, signed: bool): (r: Option<NumToken>)
    requires i <= |t|
    ensures r.Some? <==> HasNumber(t, i, signed)
    ensures r.Some? ==> WellFormed(r.value, signed)
  {
    var d := LeadingDashes(t, i, signed);
    var w := Span(t, i + d, Digit);
    if w == 0 then None
    else
      var p := Span(t, i + d + w, Dot);
      var f := Span(t, i + d + w + p, Digit);
      Some(NumToken(d, w, p, f))
  }

  /** What `ScanNumber` captures is a token at `i`. */
  lemma ScanNumberSpellsToken(t: string, i: nat, signed: bool)
    requires i <= |t| && HasNumber(t, i, signed)
    ensures TokenAt(t, i, ScanNumber(t, i, signed).value)
  {
    ScannedDashes(t, i, signed);
    ScannedWhole(t, i, signed);
    ScannedDots(t, i, signed);
    ScannedFrac(t, i, signed);
  }

  lemma ScannedDashes(t: string, i: nat, signed: bool)
    requires i <= |t| && HasNumber(t, i, signed)
    ensures Run(t, i, i + ScanNumber(t, i, signed).value.dashes, Dash)
  {
    SpanRun(t, i, Dash);
  }

  lemma ScannedWhole(t: string, i: nat, signed: bool)
    requires i <= |t| && HasNumber(t, i, signed)
    ensures var tok := ScanNumber(t, i, signed).value;
      Run(t, i + tok.dashes, i + tok.dashes + tok.whole, Digit)
  {
    SpanRun(t, i + LeadingDashes(t, i, signed), Digit);
  }

  lemma ScannedDots(t: string, i: nat, signed: bool)
    requires i <= |t| && HasNumber(t, i, signed)
    ensures var tok := ScanNumber(t, i, signed).value;
      Run(t, i + tok.dashes + tok.whole, i + tok.dashes + tok.whole + tok.dots, Dot)
  {
    var a := i + LeadingDashes(t, i, signed);
    SpanRun(t, a + Span(t, a, Digit), Dot);
  }

  lemma ScannedFrac(t: string, i: nat, signed: bool)
    requires i <= |t| && HasNumber(t, i, signed)
    ensures var tok := ScanNumber(t, i, signed).value;
      var c := i + tok.dashes + tok.whole + tok.dots;
      && Run(t, c, c + tok.frac, Digit)
      && (c + tok.frac < |t| ==> !IsDigit(t[c + tok.frac]) && (tok.frac == 0 ==> t[c + tok.frac] != '.'))
  {
    var a := i + LeadingDashes(t, i, signed);
    var b := a + Span(t, a, Digit);
    SpanRun(t, b + Span(t, b, Dot), Digit);
  }

  /** Any well-formed token at `i` is the one `ScanNumber` captures: the greedy match is unique. */
  lemma TokenAtIsScanned(t: string, i: nat, signed: bool, tok: NumToken)
    requires WellFormed(tok, signed) && TokenAt(t, i, tok)
    ensures ScanNumber(t, i, signed) == Some(tok)
  {
    DashRun(t, i, signed, tok);
    WholeRun(t, i, signed, tok);
    DotRun(t, i, signed, tok);
    FracRun(t, i, signed, tok);
    ScanOfRuns(t, i, signed, tok);
  }

  lemma DashRun(t: string, i: nat, signed: bool, tok: NumToken)
    requires WellFormed(tok, signed) && TokenAt(t, i, tok)
    ensures LeadingDashes(t, i, signed) == tok.dashes
  {
    if signed {
      assert IsDigit(t[i + tok.dashes]);
      SpanIs(t, i, Dash, tok.dashes);
    }
  }

  lemma WholeRun(t: string, i: nat, signed: bool, tok: NumToken)
    requires WellFormed(tok, signed) && TokenAt(t, i, tok)
    ensures Span(t, i + tok.dashes, Digit) == tok.whole
  {
    var b := i + tok.dashes + tok.whole;
    if tok.dots > 0 {
      assert t[b] == '.';
    }
    SpanIs(t, i + tok.dashes, Digit, tok.whole);
  }

  lemma DotRun(t: string, i: nat, signed: bool, tok: NumToken)
    requires WellFormed(tok, signed) && TokenAt(t, i, tok)
    ensures Span(t, i + tok.dashes + tok.whole, Dot) == tok.dots
  {
    var c := i + tok.dashes + tok.whole + tok.dots;
    if tok.frac > 0 {
      assert IsDigit(t[c]);
    }
    SpanIs(t, i + tok.dashes + tok.whole, Dot, tok.dots);
  }

  lemma FracRun(t: string, i: nat, signed: bool, tok: NumToken)
    requires WellFormed(tok, signed) && TokenAt(t, i, tok)
    ensures Span(t, i + tok.dashes + tok.whole + tok.dots, Digit) == tok.frac
  {
    SpanIs(t, i + tok.dashes + tok.whole + tok.dots, Digit, tok.frac);
  }

  /** `ScanNumber` in terms of the lengths of the four runs it reads. */
  lemma ScanOfRuns(t: string, i: nat, signed: bool, tok: NumToken)
    requires tok.whole >= 1 && i + Length(tok) <= |t|
    requires LeadingDashes(t, i, signed) == tok.dashes
    requires Span(t, i + tok.dashes, Digit) == tok.whole
    requires Span(t, i + tok.dashes + tok.whole, Dot) == tok.dots
    requires Span(t, i + tok.dashes + tok.whole + tok.dots, Digit) == tok.frac
    ensures ScanNumber(t, i, signed) == Some(tok)
  {
  }

  /** The scan is exactly the token found at `i`, in both directions. */
  lemma ScanNumberIsTokenAt(t: string, i: nat, signed: bool, tok: NumToken)
    requires i <= |t|
    ensures ScanNumber(t, i, signed) == Some(tok) <==> WellFormed(tok, signed) && TokenAt(t, i, tok)
  {
    if ScanNumber(t, i, signed) == Some(tok) {
      ScanNumberSpellsToken(t, i, signed);
    }
    if WellFormed(tok, signed) && TokenAt(t, i, tok) {
      TokenAtIsScanned(t, i, signed, tok);
    }
  }

  /** A run of digits, as a string. */
  lemma RunDigits(t: string, lo: nat, hi: nat)
    requires Run(t, lo, hi, Digit)
    ensures AllDigits(t[lo..hi])
  {
  }

  predicate AllDigits(s: string) {
    forall i :: 0 <= i < |s| ==> IsDigit(s[i])
  }

  /** The text the group captured, with the digits spelled out: what `float()` reads. */
  datatype Numeral = Numeral(dashes: nat, whole: string, dots: nat, frac: string)

  /** `n` copies of `c`. */
  function Repeat(c: char, n: nat): (s: string)
    ensures |s| == n && forall j :: 0 <= j < n ==> s[j] == c
  {
    if n == 0 then [] else [c] + Repeat(c, n - 1)
  }

  /** The characters of a numeral, in the order the group reads them. */
  function Text(m: Numeral): string {
    Repeat('-', m.dashes) + m.whole + Repeat('.', m.dots) + m.frac
  }

  /** The numeral a token at `i` spells. */
  function Spelled(t: string, i: nat, tok: NumToken): (m: Numeral)
    requires TokenAt(t, i, tok)
    ensures m.dashes == tok.dashes && m.dots == tok.dots
    ensures |m.whole| == tok.whole && |m.frac| == tok.frac
    ensures AllDigits(m.whole) && AllDigits(m.frac)
    ensures i + Length(tok) <= |t| && t[i..i + Length(tok)] == Text(m)
  {
    var a := i + tok.dashes;
    var b := a + tok.whole;
    var c := b + tok.dots;
    var n := c + tok.frac;
    RunDigits(t, a, b);
    RunDigits(t, c, n);
    assert t[i..a] == Repeat('-', tok.dashes);
    assert t[b..c] == Repeat('.', tok.dots);
    assert t[i..n] == t[i..a] + t[a..b] + t[b..c] + t[c..n];
    Numeral(tok.dashes, t[a..a + tok.whole], tok.dots, t[c..c + tok.frac])
  }

  /** The number written by a string of decimal digits. */
  function DigitsValue(ds: string): (v: nat)
    requires AllDigits(ds)
  {
    if ds == [] then 0 else DigitsValue(ds[..|ds| - 1]) * 10 + (ds[|ds| - 1] as int - '0' as int)
  }

  function Pow10(n: nat): (r: nat)
    ensures r >= 1
  {
    if n == 0 then 1 else 10 * Pow10(n - 1)
  }

  /** A string of `n` decimal digits writes a number below `10^n`. */
  lemma {:induction false} DigitsValueBound(ds: string)
    requires AllDigits(ds)
    ensures DigitsValue(ds) < Pow10(|ds|)
  {
    if ds != [] {
      DigitsValueBound(ds[..|ds| - 1]);
    }
  }

  lemma FractionBelowOne(a: nat, b: nat)
    requires a < b
    ensures 0.0 <= a as real / b as real < 1.0
  {
    assert (a as real / b as real) * b as real == a as real;
  }

  lemma ShiftDigit(x: int, p: int, y: int, last: int)
    ensures (x * p + y) * 10 + last == x * (10 * p) + (y * 10 + last)
  {
  }

  /** Appending digits shifts the digits already written left by one place each. */
  lemma {:induction false} DigitsValueAppend(a: string, b: string)
    requires AllDigits(a) && AllDigits(b)
    ensures AllDigits(a + b)
    ensures DigitsValue(a + b) == DigitsValue(a) * Pow10(|b|) + DigitsValue(b)
  {
    if b != [] {
      var b', last := b[..|b| - 1], b[|b| - 1] as int - '0' as int;
      assert (a + b)[..|a + b| - 1] == a + b';
      DigitsValueAppend(a, b');
      assert (a + b)[|a + b| - 1] == b[|b| - 1];
      assert DigitsValue(a + b) == DigitsValue(a + b') * 10 + last;
      assert DigitsValue(b) == DigitsValue(b') * 10 + last;
      assert Pow10(|b|) == 10 * Pow10(|b'|);
      ShiftDigit(DigitsValue(a), Pow10(|b'|), DigitsValue(b'), last);
    } else {
      assert a + b == a;
    }
  }

  lemma ScaleDown(a: real, b: real, s: real)
    requires s > 0.0
    ensures a + b / s == (a * s + b) / s
  {
    assert (a + b / s) * s == a * s + b;
  }

  /** `(a·p + b) / p == a + b / p`, with the integers read as reals. */
  lemma ScaledSum(a: nat, b: nat, p: nat, d: nat)
    requires p >= 1 && d == a * p + b
    ensures d as real / p as real == a as real + b as real / p as real
  {
    assert (a * p) as real == a as real * p as real;
    ScaleDown(a as real, b as real, p as real);
  }

  /** The fixed-point reading is the whole part plus the fraction digits over their power of ten. */
  lemma DecimalMagnitude(whole: string, frac: string)
    requires AllDigits(whole) && AllDigits(frac)
    ensures AllDigits(whole + frac)
    ensures DigitsValue(whole + frac) as real / Pow10(|frac|) as real
      == DigitsValue(whole) as real + DigitsValue(frac) as real / Pow10(|frac|) as real
  {
    DigitsValueAppend(whole, frac);
    ScaledSum(DigitsValue(whole), DigitsValue(frac), Pow10(|frac|), DigitsValue(whole + frac));
  }

  /**
   * The decimal a numeral writes, read as a fixed-point number: all its digits, the
   * fraction digits included, as one integer, scaled down by one power of ten per
   * fraction digit, and negated for a dash.
   */
  function Decimal(m: Numeral): real
    requires AllDigits(m.whole) && AllDigits(m.frac)
  {
    DigitsValueAppend(m.whole, m.frac);
    var magnitude := DigitsValue(m.whole + m.frac) as real / Pow10(|m.frac|) as real;
    if m.dashes == 1 then -magnitude else magnitude
  }

  /**
   * Python's `float()` on a captured token: a `ValueError` (`None`) for more than one
   * dash or more than one dot, which the group admits (`--5`, `1..2`); otherwise the
   * decimal the token writes, negative for one dash.
   */
  function ToFloat(tok: Numeral): (r: Option<real>)
    requires AllDigits(tok.whole) && AllDigits(tok.frac)
    ensures r.Some? <==> tok.dashes <= 1 && tok.dots <= 1
    ensures r.Some? ==> r.value == Decimal(tok)
    ensures r.Some? && tok.dashes == 0 ==> DigitsValue(tok.whole) as real <= r.value < DigitsValue(tok.whole) as real + 1.0
    ensures r.Some? && tok.dashes == 1 ==> -(DigitsValue(tok.whole) as real) - 1.0 < r.value <= -(DigitsValue(tok.whole) as real)
  {
    DecimalMagnitude(tok.whole, tok.frac);
    if tok.dashes > 1 || tok.dots > 1 then None
    else
      var scale := Pow10(|tok.frac|) as real;
      var fraction := DigitsValue(tok.frac) as real / scale;
      DigitsValueBound(tok.frac);
      FractionBelowOne(DigitsValue(tok.frac), Pow10(|tok.frac|));
      var magnitude := DigitsValue(tok.whole) as real + fraction;
      Some(if tok.dashes == 1 then -magnitude else magnitude)
  }

  /** Start of the run of whitespace that ends just before position `k`. */
  function RunStart(line: string, k: nat): (j: nat)
    requires k <= |line|
    ensures j <= k
    ensures forall m :: j <= m < k ==> IsSpace(line[m])
    ensures j == 0 || !IsSpace(line[j - 1])
  {
    if k == 0 || !IsSpace(line[k - 1]) then k else RunStart(line, k - 1)
  }

  /**
   * `.*\s+` can match `line[..k]` exactly: there is whitespace right before `k`, and no
   * line feed (which `.` does not match) before the start of that whitespace run.
   */
  predicate BlankBefore(line: string, k: nat)
    requires k <= |line|
  {
    var j := RunStart(line, k);
    j < k && '\n' !in line[..j]
  }

  /** The direct reading of `.*\s+` matching `line[..k]`: some split point `j`. */
  ghost predicate RegexBlankBefore(line: string, k: nat)
    requires k <= |line|
  {
    exists j :: 0 <= j < k && '\n' !in line[..j] && (forall m :: j <= m < k ==> IsSpace(line[m]))
  }

  lemma BlankBeforeIsRegex(line: string, k: nat)
    requires k <= |line|
    ensures BlankBefore(line, k) <==> RegexBlankBefore(line, k)
  {
    var j0 := RunStart(line, k);
    if BlankBefore(line, k) {
      assert 0 <= j0 < k && '\n' !in line[..j0];
    }
    if RegexBlankBefore(line, k) {
      var j :| 0 <= j < k && '\n' !in line[..j] && (forall m :: j <= m < k ==> IsSpace(line[m]));
      if j0 > j {
        assert false;
      }
      assert line[..j0] == line[..j][..j0];
    }
  }

  /** `.*\s+L(number)` can match with the argument letter `L` at position `k`. */
  predicate ArgAt(line: string, letter: char, signed: bool, k: nat) {
    && k < |line|
    && line[k] == letter
    && BlankBefore(line, k)
    && HasNumber(line, k + 1, signed)
  }

  /** Some position of the line can supply argument `letter`: the pattern matches. */
  predicate Present(line: string, letter: char, signed: bool) {
    exists k :: 0 <= k < |line| && ArgAt(line, letter, signed, k)
  }

  /**
   * The position the regex engine settles on among those below `hi`: `.*` is greedy, so
   * the engine tries the longest prefix first and the LAST matching position wins.
   */
  function LastArgAt(line: string, letter: char, signed: bool, hi: nat): (r: Option<nat>)
    requires hi <= |line|
    ensures r.Some? ==> r.value < hi && ArgAt(line, letter, signed, r.value)
    ensures r.Some? ==> forall k :: r.value < k < hi ==> !ArgAt(line, letter, signed, k)
    ensures r.None? ==> forall k :: 0 <= k < hi ==> !ArgAt(line, letter, signed, k)
  {
    if hi == 0 then None
    else if ArgAt(line, letter, signed, hi - 1) then Some(hi - 1)
    else LastArgAt(line, letter, signed, hi - 1)
  }

  /**
   * `re.match(r".*\s+L(-*\d+\.*\d*)", line)` (signed) or `.*\s+L(\d+\.*\d*)` (unsigned),
   * followed by `float()` on the group: `Unmatched` when the pattern does not match,
   * `Malformed` when `float()` raises `ValueError`.
   */
  function Arg(line: string, letter: char, signed: bool): (r: Parsed<real>)
    ensures r.Unmatched? <==> !Present(line, letter, signed)
    ensures r.Ok? && !signed ==> r.value >= 0.0
  {
    var k := LastArgAt(line, letter, signed, |line|);
    if k.None? then Unmatched else Convert(line, k.value + 1, signed)
  }

  /**
   * A matched argument is read from the group at the last position where the pattern
   * matches; `ConvertLaw` says what reading that group gives.
   */
  lemma ArgLaw(line: string, letter: char, signed: bool)
    ensures var k := LastArgAt(line, letter, signed, |line|);
      k.Some? ==> Arg(line, letter, signed) == Convert(line, k.value + 1, signed)
  {
  }

  /**
   * The text the group captures at position `i`: the greedy scan, spelled out. It is
   * the line's own characters from `i` on, and has a dash only in the signed group.
   */
  function Captured(line: string, i: nat, signed: bool): (m: Numeral)
    requires i <= |line| && HasNumber(line, i, signed)
    ensures AllDigits(m.whole) && AllDigits(m.frac) && |m.whole| >= 1
    ensures signed || m.dashes == 0
    ensures i + |Text(m)| <= |line| && line[i..i + |Text(m)|] == Text(m)
    ensures ScanNumber(line, i, signed) == Some(NumToken(m.dashes, |m.whole|, m.dots, |m.frac|))
  {
    ScanNumberSpellsToken(line, i, signed);
    Spelled(line, i, ScanNumber(line, i, signed).value)
  }

  /** `float()` on the group captured at position `i`. */
  function Convert(line: string, i: nat, signed: bool): (r: Parsed<real>)
    requires i <= |line| && HasNumber(line, i, signed)
    ensures !r.Unmatched?
    ensures r.Ok? && !signed ==> r.value >= 0.0
  {
    var tok := ScanNumber(line, i, signed).value;
    ScanNumberSpellsToken(line, i, signed);
    match ToFloat(Spelled(line, i, tok))
    case None => Malformed
    case Some(v) => Ok(v)
  }

  /**
   * Converting the group raises `ValueError` exactly when it has more than one dash or
   * more than one dot, and otherwise gives the decimal it writes.
   */
  lemma ConvertLaw(line: string, i: nat, signed: bool)
    requires i <= |line| && HasNumber(line, i, signed)
    ensures var group := Captured(line, i, signed);
      && (Convert(line, i, signed).Malformed? <==> group.dashes > 1 || group.dots > 1)
      && (Convert(line, i, signed).Ok? ==> Convert(line, i, signed).value == Decimal(group))
  {
  }

  /** The optional value an argument contributes: present only when it parsed. */
  function Field(a: Parsed<real>): (r: Option<real>)
    ensures r.Some? <==> a.Ok?
    ensures r.Some? ==> r.value == a.value
  {
    if a.Ok? then Some(a.value) else None
  }
}
