/**
 * What JavaScript's Number makes of a string: blanks are trimmed, the empty string is zero, and otherwise the whole
 * string has to be a decimal literal, a prefixed hexadecimal, octal or binary one, or Infinity; its value is rounded to
 * the nearest double.
 */
module JsNumbers {
  import opened Options
  import opened Decimals
  import Doubles

  datatype Numeric = NotANumber | Infinite(negative: bool) | Finite(value: real)

  datatype Exponent = Exponent(mark: char, sign: string, digits: string)

  /** The parts of a numeric string as written. */
  datatype Spelling =
    | Plain(sign: string, whole: string, fraction: Option<string>, exponent: Option<Exponent>)
    | Based(mark: char, digits: string)
    | Infinity(sign: string)

  // ---- Characters ----

  predicate IsBlank(c: char) {
    c == ' ' || '\t' <= c <= '\r' || c as int == 0xA0
  }

  predicate Blank(s: string) {
    forall i | 0 <= i < |s| :: IsBlank(s[i])
  }

  predicate IsDigit(c: char) {
    '0' <= c <= '9'
  }

  function DigitValue(c: char): int {
    if '0' <= c <= '9' then c as int - '0' as int
    else if 'a' <= c <= 'z' then c as int - 'a' as int + 10
    else if 'A' <= c <= 'Z' then c as int - 'A' as int + 10
    else 36
  }

  predicate DigitsIn(s: string, base: nat) {
    forall i | 0 <= i < |s| :: 0 <= DigitValue(s[i]) < base
  }

  predicate AllDigits(s: string) {
    forall i | 0 <= i < |s| :: IsDigit(s[i])
  }

  predicate IsSign(s: string) {
    s == "" || s == "+" || s == "-"
  }

  function BaseOf(mark: char): nat {
    if mark == 'x' || mark == 'X' then 16
    else if mark == 'o' || mark == 'O' then 8
    else if mark == 'b' || mark == 'B' then 2
    else 0
  }

  // ---- The grammar ----

  predicate GoodExponent(e: Exponent) {
    (e.mark == 'e' || e.mark == 'E') && IsSign(e.sign) && e.digits != "" && AllDigits(e.digits)
  }

  /** The digits after the point, if there is one. */
  function FractionDigits(fraction: Option<string>): string {
    if fraction.None? then "" else fraction.value
  }

  predicate GoodTail(fraction: Option<string>, e: Option<Exponent>) {
    AllDigits(FractionDigits(fraction)) && (e.Some? ==> GoodExponent(e.value))
  }

  predicate WellFormed(sp: Spelling) {
    match sp
    case Plain(sign, whole, fraction, exponent) =>
      IsSign(sign) && AllDigits(whole) && GoodTail(fraction, exponent) &&
          (whole != "" || FractionDigits(fraction) != "")
    case Based(mark, digits) => BaseOf(mark) > 0 && digits != "" && DigitsIn(digits, BaseOf(mark))
    case Infinity(sign) => IsSign(sign)
  }

  function RenderExponent(e: Option<Exponent>): string {
    if e.None? then "" else [e.value.mark] + e.value.sign + e.value.digits
  }

  function RenderTail(fraction: Option<string>, e: Option<Exponent>): string {
    if fraction.None? then RenderExponent(e) else ['.'] + (fraction.value + RenderExponent(e))
  }

  function Render(sp: Spelling): string {
    match sp
    case Plain(sign, whole, fraction, exponent) => sign + (whole + RenderTail(fraction, exponent))
    case Based(mark, digits) => ['0', mark] + digits
    case Infinity(sign) => sign + "Infinity"
  }

  // ---- Its meaning ----

  function NatOf(digits: string, base: nat): nat
    requires DigitsIn(digits, base)
  {
    if digits == "" then 0
    else
      var last := |digits| - 1;
      var high := NatOf(digits[..last], base);
      assert high * base >= 0;
      high * base + DigitValue(digits[last])
  }

  /** x times ten to the e. */
  function Shifted(x: real, e: int): real
    decreases if e >= 0 then e else -e
  {
    if e == 0 then x else if e > 0 then 10.0 * Shifted(x, e - 1) else Shifted(x, e + 1) / 10.0
  }

  function Signed(sign: string, x: real): real {
    if sign == "-" then -x else x
  }

  function ExponentOf(e: Option<Exponent>): int
    requires e.Some? ==> DigitsIn(e.value.digits, 10)
  {
    if e.None? then 0
    else
      var n: int := NatOf(e.value.digits, 10);
      if e.value.sign == "-" then -n else n
  }

  function Value(sp: Spelling): Numeric
    requires WellFormed(sp)
  {
    match sp
    case Plain(sign, whole, fraction, exponent) =>
      var digits := FractionDigits(fraction);
      Finite(Signed(sign, Shifted(NatOf(whole + digits, 10) as real, ExponentOf(exponent) - |digits|)))
    case Based(mark, digits) => Finite(NatOf(digits, BaseOf(mark)) as real)
    case Infinity(sign) => Infinite(sign == "-")
  }

  /** The nearest double; minus zero is zero here. */
  function Rounded(x: Numeric): Numeric {
    if !x.Finite? then x
    else
      match Doubles.Nearest(if x.value < 0.0 then -x.value else x.value)
      case Some(d) => Finite(if x.value < 0.0 then -d else d)
      case None => Infinite(x.value < 0.0)
  }

  lemma {:induction false} ShiftsAdd(x: real, a: int, b: int)
    ensures Shifted(Shifted(x, a), b) == Shifted(x, a + b)
    decreases if b >= 0 then b else -b
  {
    if b > 0 {
      ShiftsAdd(x, a, b - 1);
      assert Shifted(x, a + b) == 10.0 * Shifted(x, a + b - 1);
    } else if b < 0 {
      ShiftsAdd(x, a, b + 1);
      assert Shifted(x, a + b) == Shifted(x, a + b + 1) / 10.0;
    }
  }

  /** What a decimal literal means, told without a quotient: moved up by its decimals the value is its digits, the point
      left out, moved by the exponent. A minus makes it negative. */
  lemma DecimalValue(sp: Spelling)
    requires WellFormed(sp) && sp.Plain?
    ensures Value(sp).Finite?
    ensures var f, size := FractionDigits(sp.fraction), if sp.sign == "-" then -Value(sp).value else Value(sp).value;
            var e := if sp.exponent.None? then 0 else NatOf(sp.exponent.value.digits, 10);
            if sp.exponent.Some? && sp.exponent.value.sign == "-"
            then Shifted(size, |f| + e) == NatOf(sp.whole + f, 10) as real
            else Shifted(size, |f|) == Shifted(NatOf(sp.whole + f, 10) as real, e)
  {
    var f := FractionDigits(sp.fraction);
    var n := NatOf(sp.whole + f, 10) as real;
    var e := ExponentOf(sp.exponent);
    if sp.exponent.Some? && sp.exponent.value.sign == "-" {
      ShiftsAdd(n, e - |f|, |f| - e);
    } else {
      ShiftsAdd(n, e - |f|, |f|);
    }
  }

  /** A shift by one is a multiplication by ten, or a division. */
  lemma ShiftByOne(x: real)
    ensures Shifted(x, 1) == 10.0 * x && 10.0 * Shifted(x, -1) == x
  {
  }

  /** And a prefixed one, digit by digit from the right, in base 16, 8 or 2. */
  lemma PrefixedValue(mark: char, digits: string, last: char)
    requires WellFormed(Based(mark, digits)) && WellFormed(Based(mark, digits + [last]))
    ensures mark in "xXoObB"
    ensures var base := if mark in "xX" then 16.0 else if mark in "oO" then 8.0 else 2.0;
            Value(Based(mark, digits + [last])).value ==
            Value(Based(mark, digits)).value * base + DigitValue(last) as real
  {
    assert (digits + [last])[..|digits|] == digits;
  }

  // ---- Reading ----

  /** The end of the run of digits that starts at i. */
  function DigitsFrom(s: string, i: nat): (n: nat)
    requires i <= |s|
    ensures i <= n <= |s| && (forall j | i <= j < n :: IsDigit(s[j])) && (n < |s| ==> !IsDigit(s[n]))
    decreases |s| - i
  {
    if i < |s| && IsDigit(s[i]) then DigitsFrom(s, i + 1) else i
  }

  function DigitPrefix(s: string): (p: string)
    ensures p <= s && AllDigits(p)
  {
    s[..DigitsFrom(s, 0)]
  }

  function TakeSign(s: string): (sign: string)
    ensures IsSign(sign) && sign <= s
  {
    if s != "" && (s[0] == '+' || s[0] == '-') then s[..1] else ""
  }

  function ReadExponent(s: string): (e: Option<Exponent>)
    ensures e.Some? ==> GoodExponent(e.value) && RenderExponent(e) == s
  {
    if s == "" || !(s[0] == 'e' || s[0] == 'E') then None
    else
      var sign := TakeSign(s[1..]);
      var digits := s[1 + |sign|..];
      if digits == "" || !AllDigits(digits) then None else Some(Exponent(s[0], sign, digits))
  }

  /** What follows the digits: nothing, or an exponent. */
  function ReadEnd(s: string): (e: Option<Option<Exponent>>)
    ensures e.Some? ==> (e.value.Some? ==> GoodExponent(e.value.value)) && RenderExponent(e.value) == s
  {
    if s == "" then Some(None) else if ReadExponent(s).Some? then Some(ReadExponent(s)) else None
  }

  datatype Tail = Tail(fraction: Option<string>, exponent: Option<Exponent>)

  function ReadFraction(s: string): (t: Option<Tail>)
    ensures t.Some? ==> t.value.fraction.Some? && GoodTail(t.value.fraction, t.value.exponent)
    ensures t.Some? ==> t.value.fraction.value + RenderExponent(t.value.exponent) == s
  {
    var digits := DigitPrefix(s);
    assert s == digits + s[|digits|..];
    match ReadEnd(s[|digits|..])
    case Some(e) => Some(Tail(Some(digits), e))
    case None => None
  }

  function ReadTail(s: string): (t: Option<Tail>)
    ensures t.Some? ==> GoodTail(t.value.fraction, t.value.exponent)
    ensures t.Some? ==> RenderTail(t.value.fraction, t.value.exponent) == s
  {
    if s != "" && s[0] == '.' then
      assert s == ['.'] + s[1..];
      ReadFraction(s[1..])
    else
      match ReadEnd(s)
      case Some(e) => Some(Tail(None, e))
      case None => None
  }

  function ReadPlain(sign: string, s: string): (sp: Option<Spelling>)
    requires IsSign(sign)
    ensures sp.Some? ==> WellFormed(sp.value) && Render(sp.value) == sign + s
  {
    var whole := DigitPrefix(s);
    assert s == whole + s[|whole|..];
    match ReadTail(s[|whole|..])
    case None => None
    case Some(t) =>
      if whole == "" && FractionDigits(t.fraction) == "" then None else Some(Plain(sign, whole, t.fraction, t.exponent))
  }

  /** Whatever is read is spelled by the string it was read from. */
  function Read(s: string): (sp: Option<Spelling>)
    ensures sp.Some? ==> WellFormed(sp.value) && Render(sp.value) == s
  {
    if |s| >= 2 && s[0] == '0' && BaseOf(s[1]) > 0 then
      assert s == ['0', s[1]] + s[2..];
      if s[2..] != "" && DigitsIn(s[2..], BaseOf(s[1])) then Some(Based(s[1], s[2..])) else None
    else
      var sign := TakeSign(s);
      var rest := s[|sign|..];
      assert s == sign + rest;
      if rest == "Infinity" then Some(Infinity(sign)) else ReadPlain(sign, rest)
  }

  lemma DigitPrefixOf(digits: string, rest: string)
    requires AllDigits(digits) && (rest != "" ==> !IsDigit(rest[0]))
    ensures DigitPrefix(digits + rest) == digits && (digits + rest)[|digits|..] == rest
  {
    var s := digits + rest;
    assert rest != "" ==> s[|digits|] == rest[0];
    assert DigitsFrom(s, 0) == |digits|;
  }

  lemma ExponentIsRead(e: Exponent)
    requires GoodExponent(e)
    ensures ReadExponent(RenderExponent(Some(e))) == Some(e)
  {
    var s := RenderExponent(Some(e));
    assert s[1..] == e.sign + e.digits;
    assert TakeSign(s[1..]) == e.sign;
    assert s[1 + |e.sign|..] == e.digits;
  }

  lemma EndIsRead(e: Option<Exponent>)
    requires e.Some? ==> GoodExponent(e.value)
    ensures ReadEnd(RenderExponent(e)) == Some(e)
    ensures var s := RenderExponent(e); s != "" ==> s[0] == 'e' || s[0] == 'E'
  {
    if e.Some? {
      ExponentIsRead(e.value);
    }
  }

  lemma TailIsRead(fraction: Option<string>, e: Option<Exponent>)
    requires GoodTail(fraction, e)
    ensures ReadTail(RenderTail(fraction, e)) == Some(Tail(fraction, e))
  {
    EndIsRead(e);
    if fraction.Some? {
      DigitPrefixOf(fraction.value, RenderExponent(e));
      assert RenderTail(fraction, e)[1..] == fraction.value + RenderExponent(e);
    }
  }

  lemma TailStart(fraction: Option<string>, e: Option<Exponent>)
    requires GoodTail(fraction, e)
    ensures var s := RenderTail(fraction, e); s != "" ==> s[0] == '.' || s[0] == 'e' || s[0] == 'E'
    ensures fraction.Some? ==> RenderTail(fraction, e) != "" && RenderTail(fraction, e)[0] == '.'
  {
    EndIsRead(e);
  }

  lemma PlainIsRead(sp: Spelling)
    requires WellFormed(sp) && sp.Plain?
    ensures ReadPlain(sp.sign, sp.whole + RenderTail(sp.fraction, sp.exponent)) == Some(sp)
  {
    TailStart(sp.fraction, sp.exponent);
    TailIsRead(sp.fraction, sp.exponent);
    DigitPrefixOf(sp.whole, RenderTail(sp.fraction, sp.exponent));
  }

  /** How a plain spelling goes on after its sign: with a digit or the point, and no base mark after a zero. */
  lemma BodyStart(sp: Spelling)
    requires WellFormed(sp) && sp.Plain?
    ensures var body := sp.whole + RenderTail(sp.fraction, sp.exponent);
            && body != "" && (IsDigit(body[0]) || body[0] == '.')
            && (|body| >= 2 && body[0] == '0' ==> BaseOf(body[1]) == 0)
  {
    var tail := RenderTail(sp.fraction, sp.exponent);
    TailStart(sp.fraction, sp.exponent);
    if sp.whole == "" {
      assert sp.whole + tail == tail;
    } else if |sp.whole| == 1 {
      assert tail != "" ==> (sp.whole + tail)[1] == tail[0];
    } else {
      assert (sp.whole + tail)[1] == sp.whole[1];
    }
  }

  lemma SignIsTaken(sign: string, body: string)
    requires IsSign(sign) && body != "" && body[0] != '+' && body[0] != '-'
    ensures TakeSign(sign + body) == sign && (sign + body)[|sign|..] == body
  {
    if sign == "" {
      assert sign + body == body;
    }
  }

  /** And every spelling is read as itself. */
  lemma EverySpellingIsRead(sp: Spelling)
    requires WellFormed(sp)
    ensures Read(Render(sp)) == Some(sp)
  {
    var s := Render(sp);
    match sp
    case Based(mark, digits) =>
      assert s[2..] == digits;
    case Infinity(sign) =>
      SignIsTaken(sign, "Infinity");
    case Plain(sign, whole, fraction, exponent) =>
      var body := whole + RenderTail(fraction, exponent);
      PlainIsRead(sp);
      BodyStart(sp);
      SignIsTaken(sign, body);
      assert sign == "" ==> s == body;
  }

  // ---- Blanks ----

  /** The first character from i on that is no blank. */
  function SkipBlanks(s: string, i: nat): (n: nat)
    requires i <= |s|
    ensures i <= n <= |s| && (forall j | i <= j < n :: IsBlank(s[j])) && (n < |s| ==> !IsBlank(s[n]))
    decreases |s| - i
  {
    if i < |s| && IsBlank(s[i]) then SkipBlanks(s, i + 1) else i
  }

  /** The end of s without the blanks before n, not going below i. */
  function DropBlanks(s: string, i: nat, n: nat): (m: nat)
    requires i <= n <= |s|
    ensures i <= m <= n && (forall j | m <= j < n :: IsBlank(s[j])) && (i < m ==> !IsBlank(s[m - 1]))
    decreases n
  {
    if i < n && IsBlank(s[n - 1]) then DropBlanks(s, i, n - 1) else n
  }

  function Trim(s: string): string {
    var i := SkipBlanks(s, 0);
    s[i..DropBlanks(s, i, |s|)]
  }

  predicate Bare(t: string) {
    t != "" && !IsBlank(t[0]) && !IsBlank(t[|t| - 1])
  }

  lemma PaddingIsTrimmed(before: string, t: string, after: string)
    requires Blank(before) && Blank(after) && Bare(t)
    ensures Trim(before + t + after) == t
  {
    var s := before + t + after;
    var i, j := |before|, |before| + |t|;
    assert s[i] == t[0] && s[j - 1] == t[|t| - 1];
    assert forall k | 0 <= k < i :: s[k] == before[k];
    assert forall k | j <= k < |s| :: s[k] == after[k - j];
    assert SkipBlanks(s, 0) == i;
    assert DropBlanks(s, i, |s|) == j;
    assert s[i..j] == t;
  }

  lemma TrimPads(s: string) returns (before: string, after: string)
    ensures Blank(before) && Blank(after) && s == before + Trim(s) + after
  {
    var i := SkipBlanks(s, 0);
    var j := DropBlanks(s, i, |s|);
    before, after := s[..i], s[j..];
  }

  lemma TrimOfPadded(s: string, before: string, t: string, after: string)
    requires s == before + t + after && Blank(before) && Blank(after) && (t == "" || Bare(t))
    ensures Trim(s) == t
  {
    if t == "" {
      BlankIsTrimmed(s);
    } else {
      PaddingIsTrimmed(before, t, after);
    }
  }

  /** A blank more on either side changes nothing: space, tab, line feed, vertical tab, form feed, carriage return and
      the no-break space. */
  lemma BlanksAroundAreIgnored(c: char, s: string)
    requires c == ' ' || '\t' <= c <= '\r' || c == 0xA0 as char
    ensures Trim([c] + s) == Trim(s) == Trim(s + [c])
  {
    var before, after := TrimPads(s);
    var t := Trim(s);
    if t != "" {
      TrimIsBare(s);
    }
    PaddedLeft(c, before, t, after);
    TrimOfPadded([c] + s, [c] + before, t, after);
    PaddedRight(c, before, t, after);
    TrimOfPadded(s + [c], before, t, after + [c]);
  }

  lemma PaddedLeft(c: char, before: string, t: string, after: string)
    requires IsBlank(c) && Blank(before)
    ensures [c] + (before + t + after) == ([c] + before) + t + after && Blank([c] + before)
  {
  }

  lemma PaddedRight(c: char, before: string, t: string, after: string)
    requires IsBlank(c) && Blank(after)
    ensures (before + t + after) + [c] == before + t + (after + [c]) && Blank(after + [c])
  {
  }

  lemma BlankIsTrimmed(s: string)
    requires Blank(s)
    ensures Trim(s) == ""
  {
  }

  lemma TrimIsBare(s: string)
    requires Trim(s) != ""
    ensures Bare(Trim(s))
  {
  }

  // ---- Number ----

  function Number(s: string): Numeric {
    var t := Trim(s);
    if t == "" then Finite(0.0)
    else if Read(t).Some? then Rounded(Value(Read(t).value))
    else NotANumber
  }

  /** s is a spelling between blanks. */
  predicate Spells(s: string, before: string, sp: Spelling, after: string) {
    Blank(before) && Blank(after) && WellFormed(sp) && s == before + Render(sp) + after
  }

  lemma DigitIsNotBlank(sp: Spelling)
    requires WellFormed(sp)
    ensures Bare(Render(sp))
  {
    var s := Render(sp);
    match sp
    case Based(mark, digits) =>
      assert s[|s| - 1] == digits[|digits| - 1];
    case Infinity(sign) =>
      assert s[|s| - 1] == 'y';
    case Plain(sign, whole, fraction, exponent) =>
      BodyStart(sp);
      PlainEnd(sp);
  }

  lemma TailEnd(fraction: Option<string>, e: Option<Exponent>)
    requires GoodTail(fraction, e)
    ensures var s := RenderTail(fraction, e); s != "" ==> IsDigit(s[|s| - 1]) || s[|s| - 1] == '.'
  {
    var s, end := RenderTail(fraction, e), RenderExponent(e);
    if e.Some? {
      assert end[|end| - 1] == e.value.digits[|e.value.digits| - 1];
      assert s[|s| - 1] == end[|end| - 1];
    } else if FractionDigits(fraction) != "" {
      assert s[|s| - 1] == fraction.value[|fraction.value| - 1];
    }
  }

  lemma PlainEnd(sp: Spelling)
    requires WellFormed(sp) && sp.Plain?
    ensures var s := Render(sp); s != "" && (IsDigit(s[|s| - 1]) || s[|s| - 1] == '.')
  {
    var s, tail := Render(sp), RenderTail(sp.fraction, sp.exponent);
    TailEnd(sp.fraction, sp.exponent);
    if tail != "" {
      assert s[|s| - 1] == tail[|tail| - 1];
    } else {
      assert s[|s| - 1] == sp.whole[|sp.whole| - 1];
    }
  }

  /** A spelling between blanks has the spelling's value, rounded. */
  lemma SpelledValue(s: string, before: string, sp: Spelling, after: string)
    requires Spells(s, before, sp, after)
    ensures Number(s) == Rounded(Value(sp))
  {
    DigitIsNotBlank(sp);
    PaddingIsTrimmed(before, Render(sp), after);
    EverySpellingIsRead(sp);
  }

  /** And a string that has a value other than zero is a spelling between blanks. */
  lemma NumberIsSpelled(s: string) returns (before: string, sp: Spelling, after: string)
    requires Number(s) != NotANumber && Number(s) != Finite(0.0)
    ensures Spells(s, before, sp, after) && Rounded(Value(sp)) == Number(s)
  {
    before, after := TrimPads(s);
    sp := Read(Trim(s)).value;
  }

  lemma {:induction false} DecimalIsNatOf(n: nat)
    ensures DigitsIn(Decimal(n), 10) && NatOf(Decimal(n), 10) == n
  {
    if n >= 10 {
      DecimalIsNatOf(n / 10);
      var s := Decimal(n);
      assert s[..|s| - 1] == Decimal(n / 10);
    }
  }

  /** Digits and nothing else. */
  function Whole(digits: string): Spelling {
    Plain("", digits, None, None)
  }

  lemma WholeValue(digits: string)
    requires digits != "" && AllDigits(digits)
    ensures WellFormed(Whole(digits)) && Render(Whole(digits)) == digits
    ensures DigitsIn(digits, 10) && Value(Whole(digits)) == Finite(NatOf(digits, 10) as real)
  {
    assert digits + "" == digits;
    assert Shifted(NatOf(digits, 10) as real, 0) == NatOf(digits, 10) as real;
  }

  lemma BareSpelling(sp: Spelling)
    requires WellFormed(sp)
    ensures Number(Render(sp)) == Rounded(Value(sp))
  {
    assert "" + Render(sp) + "" == Render(sp);
    SpelledValue(Render(sp), "", sp, "");
  }

  /** The usual way to write a number. */
  lemma DecimalSpells(n: nat)
    requires n <= Doubles.MAX_EXACT
    ensures Number(Decimal(n)) == Finite(n as real)
  {
    DecimalIsNatOf(n);
    WholeValue(Decimal(n));
    Doubles.WholeIsExact(n);
    BareSpelling(Whole(Decimal(n)));
  }
}
