// Exact normalisation of JSON numbers (section 6 of RFC 8259): normalizeJSONNumber against
// the grammar and the rational a number denotes.
module Numbers {
  import opened Options

  // ------------------------------------------------------------- decimal digits

  predicate IsDigit(c: char) { '0' <= c <= '9' }
  predicate AllDigits(s: string) { forall i :: 0 <= i < |s| ==> IsDigit(s[i]) }

  function DigitValue(c: char): int { c as int - '0' as int }

  function Amount(s: string): int {
    if s == [] then 0 else 10 * Amount(s[..|s| - 1]) + DigitValue(s[|s| - 1])
  }

  // a times the e-th power of ten, for any integer exponent.
  function Scaled(a: int, e: int): real
    decreases if e < 0 then -e else e
  {
    if e == 0 then a as real else if e > 0 then 10.0 * Scaled(a, e - 1) else Scaled(a, e + 1) / 10.0
  }

  // ------------------------------------------------------------------- the grammar

  datatype Exponent = Exponent(upper: bool, sign: string, digits: string)
  datatype Number = Number(negative: bool, integer: string, fraction: Option<string>, exponent: Option<Exponent>)

  predicate WellFormed(n: Number) {
    && AllDigits(n.integer) && n.integer != "" && (n.integer[0] == '0' ==> n.integer == "0")
    && (n.fraction.Some? ==> AllDigits(n.fraction.value) && n.fraction.value != "")
    && (n.exponent.Some? ==> n.exponent.value.sign in {"", "+", "-"} && AllDigits(n.exponent.value.digits) && n.exponent.value.digits != "")
  }

  function ExponentText(e: Option<Exponent>): string {
    if e.None? then "" else (if e.value.upper then "E" else "e") + e.value.sign + e.value.digits
  }

  function MantissaText(n: Number): string { n.integer + if n.fraction.Some? then "." + n.fraction.value else "" }

  function Unsigned(n: Number): string { MantissaText(n) + ExponentText(n.exponent) }

  function Minus(negative: bool, text: string): string { if negative then "-" + text else text }

  function Text(n: Number): string { Minus(n.negative, Unsigned(n)) }

  function FractionDigits(n: Number): string { if n.fraction.Some? then n.fraction.value else "" }

  function ExponentAmount(n: Number): int {
    if n.exponent.None? then 0
    else if n.exponent.value.sign == "-" then -Amount(n.exponent.value.digits) else Amount(n.exponent.value.digits)
  }

  function Signed(negative: bool, v: real): real { if negative then -v else v }

  // The rational a number denotes.
  function Value(n: Number): real {
    Signed(n.negative, Scaled(Amount(n.integer + FractionDigits(n)), ExponentAmount(n) - |FractionDigits(n)|))
  }

  // ------------------------------------------------------------- the source's steps

  // strings.Cut: around the first separator.
  function Cut(s: string, c: char): (r: (string, string, bool)) {
    if s == "" then ("", "", false)
    else if s[0] == c then ("", s[1..], true)
    else
      var rest := Cut(s[1..], c);
      if rest.2 then ([s[0]] + rest.0, rest.1, true) else (s, "", false)
  }

  function TrimLeft(s: string): string { if s != "" && s[0] == '0' then TrimLeft(s[1..]) else s }
  function TrimRight(s: string): string { if s != "" && s[|s| - 1] == '0' then TrimRight(s[..|s| - 1]) else s }

  // big.Int.SetString in base ten.
  function ParseInt(s: string): Option<int> {
    var digits := if s != "" && s[0] in {'+', '-'} then s[1..] else s;
    if digits == "" || !AllDigits(digits) then None
    else Some(if s[0] == '-' then -Amount(digits) else Amount(digits))
  }

  function Natural(n: nat): string {
    if n < 10 then [('0' as int + n) as char] else Natural(n / 10) + [('0' as int + n % 10) as char]
  }

  // big.Int.String
  function Decimal(e: int): string { if e < 0 then "-" + Natural(-e) else Natural(e) }

  // A normal form: zero, or a sign, digits without outer zeros and the scientific exponent.
  datatype Normal = Zero | Normal(negative: bool, digits: string, exponent: int)

  function Print(c: Normal): string
    requires c.Normal? ==> c.digits != ""
  {
    if c.Zero? then "0"
    else Minus(c.negative, c.digits[..1] + (if |c.digits| > 1 then "." + c.digits[1..] else "") + ("e" + Decimal(c.exponent)))
  }

  function NormalOf(negative: bool, integer: string, fraction: string, exponent: int): Normal {
    var digits := TrimLeft(integer + fraction);
    if digits == "" then Zero
    else
      var trimmed := TrimRight(digits);
      Normal(negative, trimmed, exponent - |fraction| + (|digits| - |trimmed|) + (|trimmed| - 1))
  }

  lemma {:induction false} TrimRightNonEmpty(s: string)
    requires s != "" && s[0] != '0'
    ensures TrimRight(s) != "" && TrimRight(s)[0] == s[0] && TrimRight(s)[|TrimRight(s)| - 1] != '0' && |TrimRight(s)| <= |s|
  {
    if s[|s| - 1] == '0' {
      TrimRightNonEmpty(s[..|s| - 1]);
    }
  }

  lemma {:induction false} TrimLeftLead(s: string)
    ensures TrimLeft(s) != "" ==> TrimLeft(s)[0] != '0'
    ensures AllDigits(s) ==> AllDigits(TrimLeft(s))
    ensures AllDigits(s) ==> Amount(TrimLeft(s)) == Amount(s)
    ensures |TrimLeft(s)| <= |s|
  {
    if s != "" && s[0] == '0' {
      TrimLeftLead(s[1..]);
      DropZero(s);
    }
  }

  lemma {:induction false} DropZero(s: string)
    requires s != "" && s[0] == '0'
    ensures Amount(s) == Amount(s[1..])
  {
    if |s| > 1 {
      DropZero(s[..|s| - 1]);
      assert s[..|s| - 1][1..] == s[1..][..|s| - 2];
    } else {
      assert s[..0] == "";
      assert s[1..] == "";
    }
  }

  lemma NormalFacts(negative: bool, integer: string, fraction: string, exponent: int)
    ensures var c := NormalOf(negative, integer, fraction, exponent);
            c.Normal? ==> c.digits != "" && c.digits[0] != '0' && c.digits[|c.digits| - 1] != '0'
  {
    TrimLeftLead(integer + fraction);
    var digits := TrimLeft(integer + fraction);
    if digits != "" {
      TrimRightNonEmpty(digits);
    }
  }

  // The cut at the exponent mark.
  function CutExponent(s: string): (string, string, bool) { if Cut(s, 'e').2 then Cut(s, 'e') else Cut(s, 'E') }

  datatype Parts = Parts(negative: bool, integer: string, fraction: string, exponent: int)

  function Split(value: string): Option<Parts> {
    var negative := value != "" && value[0] == '-';
    var cut := CutExponent(if negative then value[1..] else value);
    var exponent := ParseInt(if cut.2 then cut.1 else "0");
    if exponent.None? then None
    else
      var mantissa := Cut(cut.0, '.');
      Some(Parts(negative, mantissa.0, mantissa.1, exponent.value))
  }

  // normalizeJSONNumber
  function Normalize(value: string): Option<string> {
    var parts := Split(value);
    if parts.None? then None
    else
      var p := parts.value;
      NormalFacts(p.negative, p.integer, p.fraction, p.exponent);
      Some(Print(NormalOf(p.negative, p.integer, p.fraction, p.exponent)))
  }

  // -------------------------------------------------------- reading a number's text

  lemma {:induction false} CutAt(a: string, c: char, b: string)
    requires c !in a
    ensures Cut(a + [c] + b, c) == (a, b, true)
  {
    var s := a + [c] + b;
    if a == "" {
      assert s[0] == c && s[1..] == b;
    } else {
      assert s[0] == a[0] && s[1..] == a[1..] + [c] + b;
      CutAt(a[1..], c, b);
      assert [a[0]] + a[1..] == a;
    }
  }

  lemma {:induction false} CutNone(s: string, c: char)
    requires c !in s
    ensures Cut(s, c) == (s, "", false)
  {
    if s != "" {
      CutNone(s[1..], c);
    }
  }

  lemma DigitsLack(s: string, c: char)
    requires AllDigits(s) && !IsDigit(c)
    ensures c !in s
  {
  }

  lemma ExponentParses(e: Exponent)
    requires e.sign in {"", "+", "-"} && AllDigits(e.digits) && e.digits != ""
    ensures ParseInt(e.sign + e.digits) == Some(if e.sign == "-" then -Amount(e.digits) else Amount(e.digits))
    ensures 'e' !in e.sign + e.digits && 'E' !in e.sign + e.digits
  {
    if e.sign == "" {
      assert e.sign + e.digits == e.digits && IsDigit(e.digits[0]);
    } else {
      assert (e.sign + e.digits)[1..] == e.digits;
    }
    DigitsLack(e.digits, 'e');
    DigitsLack(e.digits, 'E');
  }

  lemma MantissaCuts(n: Number)
    requires WellFormed(n)
    ensures var m := Cut(MantissaText(n), '.'); m.0 == n.integer && m.1 == FractionDigits(n)
    ensures 'e' !in MantissaText(n) && 'E' !in MantissaText(n) && MantissaText(n) != "" && MantissaText(n)[0] != '-'
  {
    DigitsLack(n.integer, '.');
    DigitsLack(n.integer, 'e');
    DigitsLack(n.integer, 'E');
    assert IsDigit(n.integer[0]);
    if n.fraction.Some? {
      DigitsLack(n.fraction.value, 'e');
      DigitsLack(n.fraction.value, 'E');
      assert MantissaText(n) == n.integer + ['.'] + n.fraction.value;
      CutAt(n.integer, '.', n.fraction.value);
    } else {
      assert MantissaText(n) == n.integer;
      CutNone(n.integer, '.');
    }
  }

  lemma CutNeither(m: string)
    requires 'e' !in m && 'E' !in m
    ensures CutExponent(m) == (m, "", false)
  {
    CutNone(m, 'e');
    CutNone(m, 'E');
  }

  lemma CutLower(m: string, x: string)
    requires 'e' !in m
    ensures CutExponent(m + "e" + x) == (m, x, true)
  {
    CutAt(m, 'e', x);
  }

  lemma CutUpper(m: string, x: string)
    requires 'e' !in m && 'E' !in m && 'e' !in x
    ensures CutExponent(m + "E" + x) == (m, x, true)
  {
    CutNone(m + "E" + x, 'e');
    CutAt(m, 'E', x);
  }

  lemma ExponentCuts(n: Number)
    requires WellFormed(n)
    ensures CutExponent(Unsigned(n)).0 == MantissaText(n)
    ensures ParseInt(if CutExponent(Unsigned(n)).2 then CutExponent(Unsigned(n)).1 else "0") == Some(ExponentAmount(n))
  {
    MantissaCuts(n);
    var m := MantissaText(n);
    if n.exponent.None? {
      assert Unsigned(n) == m;
      CutNeither(m);
      ZeroParses();
    } else {
      var e := n.exponent.value;
      ExponentParses(e);
      Join(m, if e.upper then "E" else "e", e.sign, e.digits);
      if e.upper {
        CutUpper(m, e.sign + e.digits);
      } else {
        CutLower(m, e.sign + e.digits);
      }
    }
  }

  lemma Join(a: string, b: string, c: string, d: string)
    ensures a + (b + c + d) == a + b + (c + d)
  {
  }

  lemma ZeroParses()
    ensures ParseInt("0") == Some(0)
  {
  }

  lemma MinusReads(negative: bool, u: string)
    requires u != "" && u[0] != '-'
    ensures var s := Minus(negative, u);
            s != "" && (s[0] == '-' <==> negative) && (if s[0] == '-' then s[1..] else s) == u
  {
  }

  lemma UnsignedLead(n: Number)
    requires WellFormed(n)
    ensures Unsigned(n) != "" && Unsigned(n)[0] != '-'
  {
  }

  function PartsOf(n: Number): Parts { Parts(n.negative, n.integer, FractionDigits(n), ExponentAmount(n)) }

  // Splitting undoes printing.
  lemma SplitText(n: Number)
    requires WellFormed(n)
    ensures Split(Text(n)) == Some(PartsOf(n))
  {
    UnsignedLead(n);
    MinusReads(n.negative, Unsigned(n));
    MantissaCuts(n);
    ExponentCuts(n);
  }

  function NormalForm(n: Number): Normal { NormalOf(n.negative, n.integer, FractionDigits(n), ExponentAmount(n)) }

  lemma NormalizeText(n: Number)
    requires WellFormed(n)
    ensures (NormalForm(n).Normal? ==> NormalForm(n).digits != "") && Normalize(Text(n)) == Some(Print(NormalForm(n)))
  {
    SplitText(n);
    NormalFacts(n.negative, n.integer, FractionDigits(n), ExponentAmount(n));
  }

  // -------------------------------------------------------------- exactness

  lemma ScaledStep(a: int, e: int)
    ensures Scaled(a, e + 1) == 10.0 * Scaled(a, e)
  {
  }

  lemma {:induction false} ScaledTen(a: int, e: int)
    ensures Scaled(10 * a, e) == Scaled(a, e + 1)
    decreases if e < 0 then -e else e
  {
    ScaledStep(a, e);
    if e > 0 {
      ScaledTen(a, e - 1);
    } else if e < 0 {
      ScaledTen(a, e + 1);
    }
  }

  lemma {:induction false} ScaledOrder(a: int, b: int, e: int)
    ensures a < b <==> Scaled(a, e) < Scaled(b, e)
    ensures Scaled(0, e) == 0.0
    decreases if e < 0 then -e else e
  {
    if e > 0 {
      ScaledOrder(a, b, e - 1);
    } else if e < 0 {
      ScaledOrder(a, b, e + 1);
    }
  }

  // Dropping trailing zeros and moving the exponent along.
  lemma {:induction false} TrimRightExact(s: string, e: int)
    requires AllDigits(s)
    ensures AllDigits(TrimRight(s)) && |TrimRight(s)| <= |s|
    ensures Scaled(Amount(s), e) == Scaled(Amount(TrimRight(s)), e + (|s| - |TrimRight(s)|))
  {
    if s != "" && s[|s| - 1] == '0' {
      var front := s[..|s| - 1];
      TrimRightExact(front, e + 1);
      ScaledTen(Amount(front), e);
    }
  }

  function NormalValue(c: Normal): real {
    if c.Zero? then 0.0 else Signed(c.negative, Magnitude(c))
  }

  predicate Canonical(c: Normal) {
    c.Normal? ==> AllDigits(c.digits) && c.digits != "" && c.digits[0] != '0' && c.digits[|c.digits| - 1] != '0'
  }

  lemma NormalIsExact(n: Number)
    requires WellFormed(n)
    ensures Canonical(NormalForm(n)) && NormalValue(NormalForm(n)) == Value(n)
  {
    var f := FractionDigits(n);
    var all, e := n.integer + f, ExponentAmount(n) - |f|;
    NormalFacts(n.negative, n.integer, f, ExponentAmount(n));
    TrimLeftLead(all);
    TrimRightExact(TrimLeft(all), e);
    ScaledOrder(0, 0, e);
  }

  // -------------------------------------------------------------- uniqueness

  lemma {:induction false} AmountSize(s: string)
    requires AllDigits(s)
    ensures Amount(s) >= 0 && (s != "" && s[0] != '0' ==> Amount(s) > 0)
    ensures s != "" && s[|s| - 1] != '0' ==> Amount(s) % 10 != 0
  {
    if s != "" {
      assert IsDigit(s[|s| - 1]);
      AmountSize(s[..|s| - 1]);
    }
  }

  lemma {:induction false} AmountDetermines(a: string, b: string)
    requires AllDigits(a) && AllDigits(b) && (a != "" ==> a[0] != '0') && (b != "" ==> b[0] != '0')
    requires Amount(a) == Amount(b)
    ensures a == b
  {
    AmountSize(a);
    AmountSize(b);
    if a != "" && b != "" {
      var x, y := a[..|a| - 1], b[..|b| - 1];
      assert IsDigit(a[|a| - 1]) && IsDigit(b[|b| - 1]);
      AmountDetermines(x, y);
      assert a == x + [a[|a| - 1]] && b == y + [b[|b| - 1]];
    }
  }

  // A larger power of ten, written with a smaller one, ends in zero.
  lemma {:induction false} Lower(b: int, e: int, d: int) returns (m: int)
    requires d <= e
    ensures Scaled(m, d) == Scaled(b, e) && (d < e ==> m % 10 == 0) && (d == e ==> m == b)
    decreases e - d
  {
    m := b;
    if d < e {
      ScaledTen(b, e - 1);
      m := Lower(10 * b, e - 1, d);
    }
  }

  lemma SamePower(a: int, d: int, b: int, e: int)
    requires a % 10 != 0 && b % 10 != 0 && d <= e
    requires Scaled(a, d) == Scaled(b, e)
    ensures d == e && a == b
  {
    var m := Lower(b, e, d);
    ScaledOrder(a, m, d);
    ScaledOrder(m, a, d);
  }

  lemma NormalValueSign(c: Normal)
    requires Canonical(c)
    ensures c.Zero? <==> NormalValue(c) == 0.0
    ensures c.Normal? ==> (c.negative <==> NormalValue(c) < 0.0)
  {
    if c.Normal? {
      AmountSize(c.digits);
      ScaledOrder(0, Amount(c.digits), c.exponent - (|c.digits| - 1));
    }
  }

  function Magnitude(c: Normal): real
    requires c.Normal?
  {
    Scaled(Amount(c.digits), c.exponent - (|c.digits| - 1))
  }

  lemma SameMagnitude(c: Normal, d: Normal)
    requires Canonical(c) && Canonical(d) && c.Normal? && d.Normal? && Magnitude(c) == Magnitude(d)
    ensures c.digits == d.digits && c.exponent == d.exponent
  {
    var x, y := c.exponent - (|c.digits| - 1), d.exponent - (|d.digits| - 1);
    AmountSize(c.digits);
    AmountSize(d.digits);
    if x <= y {
      SamePower(Amount(c.digits), x, Amount(d.digits), y);
    } else {
      SamePower(Amount(d.digits), y, Amount(c.digits), x);
    }
    AmountDetermines(c.digits, d.digits);
  }

  lemma NormalIsUnique(c: Normal, d: Normal)
    requires Canonical(c) && Canonical(d) && NormalValue(c) == NormalValue(d)
    ensures c == d
  {
    NormalValueSign(c);
    NormalValueSign(d);
    if c.Normal? && d.Normal? {
      assert NormalValue(c) == Signed(c.negative, Magnitude(c)) && NormalValue(d) == Signed(d.negative, Magnitude(d));
      SameMagnitude(c, d);
    }
  }

  // ---------------------------------------------- the output is a number, read back

  lemma {:induction false} NaturalReads(n: nat)
    ensures AllDigits(Natural(n)) && Natural(n) != "" && Amount(Natural(n)) == n
  {
    if n < 10 {
      assert Natural(n)[..0] == "";
    } else {
      NaturalReads(n / 10);
      assert Natural(n)[..|Natural(n)| - 1] == Natural(n / 10);
    }
  }

  // The grammar's derivation of a printed normal form.
  function Reading(c: Normal): Number
    requires Canonical(c)
  {
    if c.Zero? then Number(false, "0", None, None)
    else Number(c.negative, c.digits[..1], if |c.digits| > 1 then Some(c.digits[1..]) else None,
                Some(Exponent(false, if c.exponent < 0 then "-" else "", Natural(if c.exponent < 0 then -c.exponent else c.exponent))))
  }

  lemma PrintIsNumber(c: Normal)
    requires Canonical(c)
    ensures WellFormed(Reading(c)) && Text(Reading(c)) == Print(c) && Value(Reading(c)) == NormalValue(c)
  {
    if c.Zero? {
      ZeroReads();
    } else {
      ReadingIsNumber(c);
      ReadingText(c);
      ReadingDigits(c);
      ReadingExponent(c);
    }
  }

  lemma ZeroReads()
    ensures WellFormed(Reading(Zero)) && Text(Reading(Zero)) == "0" && Value(Reading(Zero)) == 0.0
  {
    var n := Reading(Zero);
    assert IsDigit('0') && AllDigits("0");
    assert MantissaText(n) == "0" && Unsigned(n) == "0";
    assert n.integer + FractionDigits(n) == "0" && "0"[..0] == "";
    assert Amount("0") == 0;
  }

  lemma ReadingIsNumber(c: Normal)
    requires Canonical(c) && c.Normal?
    ensures WellFormed(Reading(c))
  {
    NaturalReads(if c.exponent < 0 then -c.exponent else c.exponent);
  }

  lemma ReadingExponent(c: Normal)
    requires Canonical(c) && c.Normal?
    ensures ExponentAmount(Reading(c)) == c.exponent
  {
    NaturalReads(if c.exponent < 0 then -c.exponent else c.exponent);
  }

  lemma ReadingDigits(c: Normal)
    requires Canonical(c) && c.Normal?
    ensures Reading(c).integer + FractionDigits(Reading(c)) == c.digits && |FractionDigits(Reading(c))| == |c.digits| - 1
  {
  }

  lemma ReadingText(c: Normal)
    requires Canonical(c) && c.Normal?
    ensures Text(Reading(c)) == Print(c)
  {
    MarkedExponent(c);
    assert MantissaText(Reading(c)) == c.digits[..1] + if |c.digits| > 1 then "." + c.digits[1..] else "";
  }

  lemma MarkedExponent(c: Normal)
    requires Canonical(c) && c.Normal?
    ensures ExponentText(Reading(c).exponent) == "e" + Decimal(c.exponent)
  {
  }

  // --------------------------------------------------------------- theorems

  // The output denotes the same rational.
  lemma NormalizeIsExact(n: Number) returns (m: Number)
    requires WellFormed(n)
    ensures WellFormed(m) && Normalize(Text(n)) == Some(Text(m)) && Value(m) == Value(n)
  {
    NormalizeText(n);
    NormalIsExact(n);
    PrintIsNumber(NormalForm(n));
    m := Reading(NormalForm(n));
  }

  // Two numbers normalise equally exactly when they denote the same rational.
  lemma NormalizeDecides(a: Number, b: Number)
    requires WellFormed(a) && WellFormed(b)
    ensures Normalize(Text(a)) == Normalize(Text(b)) <==> Value(a) == Value(b)
  {
    NormalizeText(a);
    NormalizeText(b);
    NormalIsExact(a);
    NormalIsExact(b);
    var c, d := NormalForm(a), NormalForm(b);
    if Value(a) == Value(b) {
      NormalIsUnique(c, d);
    }
    if Print(c) == Print(d) {
      PrintIsNumber(c);
      PrintIsNumber(d);
      SameTextSameValue(Reading(c), Reading(d));
    }
  }

  // A text has one value, whatever derivation it is read by.
  lemma {:induction false} SameTextSameValue(a: Number, b: Number)
    requires WellFormed(a) && WellFormed(b) && Text(a) == Text(b)
    ensures Value(a) == Value(b)
  {
    SplitText(a);
    SplitText(b);
    SamePartsSameValue(a, b);
  }

  lemma SamePartsSameValue(a: Number, b: Number)
    requires PartsOf(a) == PartsOf(b)
    ensures Value(a) == Value(b)
  {
  }

  // Normalising twice changes nothing.
  lemma NormalizeIsIdempotent(n: Number)
    requires WellFormed(n)
    ensures Normalize(Text(n)).Some? && Normalize(Normalize(Text(n)).value) == Normalize(Text(n))
  {
    var m := NormalizeIsExact(n);
    NormalizeDecides(m, n);
  }
}
