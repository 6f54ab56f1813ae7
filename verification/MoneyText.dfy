/** `domain/money.go`: parsing and printing amounts in int64 arithmetic. */
module MoneyText {
  import opened Domain
  import opened Text

  /** Go's `/`, which truncates toward zero. */
  function Quotient(x: int, y: int): int
    requires y > 0
  {
    if x >= 0 then x / y else -((-x) / y)
  }

  function Remainder(x: int, y: int): int
    requires y > 0
  {
    x - Quotient(x, y) * y
  }

  // ---- digits

  predicate Digit(c: char) { '0' <= c <= '9' }

  ghost predicate Digits(s: string) {
    forall i :: 0 <= i < |s| ==> Digit(s[i])
  }

  predicate AllDigits(s: string)
    ensures AllDigits(s) <==> Digits(s)
  {
    forall i :: 0 <= i < |s| ==> Digit(s[i])
  }

  function Value(s: string): nat
    requires Digits(s)
  {
    if s == "" then 0 else 10 * Value(s[..|s| - 1]) + (s[|s| - 1] as int - '0' as int)
  }

  function DigitOf(d: int): char
    requires 0 <= d < 10
  {
    (d + '0' as int) as char
  }

  /** `%d` of a number that is not negative. */
  function Decimal(n: nat): (s: string)
    ensures s != "" && Digits(s)
  {
    if n < 10 then [DigitOf(n)] else Decimal(n / 10) + [DigitOf(n % 10)]
  }

  lemma {:induction false} ValueOfDecimal(n: nat)
    ensures Value(Decimal(n)) == n
  {
    if n < 10 {
      assert Value([DigitOf(n)][..0]) == 0;
    } else {
      ValueOfDecimal(n / 10);
      assert Decimal(n)[..|Decimal(n)| - 1] == Decimal(n / 10);
    }
  }

  /** `%d`. */
  function Signed(n: int): string {
    if n < 0 then "-" + Decimal(-n) else Decimal(n)
  }

  /** `%02d`: the sign counts toward the width. */
  function TwoWide(n: int): string {
    if 0 <= n < 10 then "0" + Decimal(n) else Signed(n)
  }

  // ---- the library calls

  /** `strconv.ParseInt(s, 10, 64)`. */
  function ParseInt(s: string): Option<int> {
    var negative := s != "" && s[0] == '-';
    var digits := if s != "" && (s[0] == '-' || s[0] == '+') then s[1..] else s;
    if digits == "" || !AllDigits(digits) then None
    else
      var v: int := (if negative then -1 else 1) * Value(digits);
      if Int64(v) then Some(v) else None
  }

  /** `strings.Split`. */
  function Split(s: string, c: char): (parts: seq<string>)
    ensures parts != []
  {
    if s == "" then [""]
    else
      var rest := Split(s[1..], c);
      if s[0] == c then [""] + rest else [[s[0]] + rest[0]] + rest[1..]
  }

  lemma {:induction false} SplitNothing(s: string, c: char)
    requires c !in s
    ensures Split(s, c) == [s]
  {
    if s != "" {
      SplitNothing(s[1..], c);
      assert s == [s[0]] + s[1..];
    }
  }

  lemma {:induction false} SplitOnce(s: string, c: char, t: string)
    requires c !in s && c !in t
    ensures Split(s + [c] + t, c) == [s, t]
  {
    if s == "" {
      assert ([c] + t)[1..] == t && s + [c] + t == [c] + t;
      SplitNothing(t, c);
    } else {
      SplitOnce(s[1..], c, t);
      assert (s + [c] + t)[1..] == s[1..] + [c] + t;
      assert s == [s[0]] + s[1..];
    }
  }

  // ---- String

  /** `Money.String`. Negating the least int64 gives itself. */
  function MoneyString(m: Money): string {
    var n := if m < 0 then Wrap(-m) else m;
    (if m < 0 then "-" else "") + Signed(Quotient(n, 100)) + "." + TwoWide(Remainder(n, 100))
  }

  // ---- ParseMoney

  function Padded(frac: string): (r: string)
    decreases 2 - |frac|
  {
    if |frac| >= 2 then frac else Padded(frac + "0")
  }

  /** The result for the whole and the cents as they were read, in int64 arithmetic. */
  function Combined(negative: bool, whole: int, cents: int): Result<Money> {
    if whole > Quotient(Wrap(MAX_INT64 - cents), 100) then Err(InvalidAmount)
    else
      var amount := Wrap(Wrap(whole * 100) + cents);
      Ok(if negative then Wrap(-amount) else amount)
  }

  function FromParts(negative: bool, whole: string, frac: string): Result<Money> {
    var w, c := ParseInt(whole), ParseInt(Padded(frac));
    if w.None? || c.None? then Err(InvalidAmount) else Combined(negative, w.value, c.value)
  }

  /** The text before the point and the text after it. */
  function Halves(v: string): Option<(string, string)> {
    var parts := Split(v, '.');
    if |parts| > 2 || parts[0] == "" || (|parts| == 2 && |parts[1]| > 2) then None
    else Some((parts[0], if |parts| == 2 then parts[1] else ""))
  }

  /** The sign and the two halves. */
  function Pieces(value: string): Option<(bool, string, string)> {
    var v := TrimSpace(value);
    if v == "" || 'e' in v || 'E' in v then None
    else
      var h := Halves(if v[0] == '-' then v[1..] else v);
      if h.None? then None else Some((v[0] == '-', h.value.0, h.value.1))
  }

  /** What `ParseMoney` returns for every string. */
  function Parsed(value: string): Result<Money> {
    var p := Pieces(value);
    if p.None? then Err(InvalidAmount) else FromParts(p.value.0, p.value.1, p.value.2)
  }

  method ParseMoney(value: string) returns (r: Result<Money>)
    ensures r == Parsed(value)
  {
    var v := TrimSpace(value);
    if v == "" || 'e' in v || 'E' in v {
      return Err(InvalidAmount);
    }
    var negative := v[0] == '-';
    if negative {
      v := v[1..];
    }
    var parts := Split(v, '.');
    if |parts| > 2 || parts[0] == "" {
      return Err(InvalidAmount);
    }
    if |parts| == 2 && |parts[1]| > 2 {
      return Err(InvalidAmount);
    }
    var frac := "";
    if |parts| == 2 {
      frac := parts[1];
    }
    ghost var given := frac;
    while |frac| < 2
      invariant Padded(frac) == Padded(given)
    {
      frac := frac + "0";
    }
    var whole := ParseInt(parts[0]);
    if whole.None? {
      return Err(InvalidAmount);
    }
    var cents := 0;
    if frac != "" {
      var c := ParseInt(frac);
      if c.None? {
        return Err(InvalidAmount);
      }
      cents := c.value;
    }
    r := Combine(negative, whole.value, cents);
  }

  /** The end of `ParseMoney`. */
  method Combine(negative: bool, whole: int, cents: int) returns (r: Result<Money>)
    ensures r == Combined(negative, whole, cents)
  {
    if whole > Quotient(Wrap(MAX_INT64 - cents), 100) {
      return Err(InvalidAmount);
    }
    var amount := Wrap(Wrap(whole * 100) + cents);
    if negative {
      amount := Wrap(-amount);
    }
    return Ok(amount);
  }

  // ---- what is read

  function Written(negative: bool, whole: string, frac: Option<string>): string {
    (if negative then "-" else "") + whole + (if frac.Some? then "." + frac.value else "")
  }

  /** Digits, at least one, with a sign before them or not. */
  ghost predicate Numeral(s: string) {
    s != "" && if s[0] == '-' || s[0] == '+' then 1 < |s| && Digits(s[1..]) else Digits(s)
  }

  function Frac(frac: Option<string>): string {
    if frac.Some? then frac.value else ""
  }

  /** A numeral, and after a point at most two characters that make one when zeros fill them up. */
  ghost predicate Amount(negative: bool, whole: string, frac: Option<string>) {
    Numeral(whole) && (whole[0] == '-' ==> negative) && |Frac(frac)| <= 2 && Numeral(Padded(Frac(frac)))
  }

  lemma PaddedEnds(frac: string)
    requires |frac| <= 2
    ensures Padded(frac) == if |frac| == 0 then "00" else if |frac| == 1 then frac + "0" else frac
  {
    if |frac| == 0 {
      assert frac + "0" == "0" && "0" + "0" == "00";
      assert Padded("") == Padded("0") == Padded("00");
    }
  }

  lemma FracIsPlain(frac: string)
    requires |frac| <= 2 && Numeral(Padded(frac))
    ensures forall i :: 0 <= i < |frac| ==> Digit(frac[i]) || frac[i] == '-' || frac[i] == '+'
  {
    PaddedEnds(frac);
    var p := Padded(frac);
    assert forall i :: 1 <= i < |p| ==> p[i] == p[1..][i - 1];
    assert forall i :: 0 <= i < |frac| ==> p[i] == frac[i];
  }

  lemma AmountIsBare(negative: bool, whole: string, frac: Option<string>)
    requires Amount(negative, whole, frac)
    ensures var w := Written(negative, whole, frac);
            w != "" && Bare(w) && 'e' !in w && 'E' !in w && (w[0] == '-' <==> negative)
  {
    var w := Written(negative, whole, frac);
    assert forall i :: 1 <= i < |whole| ==> whole[i] == whole[1..][i - 1];
    FracIsPlain(Frac(frac));
    assert forall i :: 0 <= i < |w| ==> Digit(w[i]) || w[i] == '-' || w[i] == '+' || w[i] == '.';
  }

  lemma AmountSplits(negative: bool, whole: string, frac: Option<string>)
    requires Amount(negative, whole, frac)
    ensures Split(Written(false, whole, frac), '.') == if frac.Some? then [whole, frac.value] else [whole]
  {
    assert forall i :: 1 <= i < |whole| ==> whole[i] == whole[1..][i - 1];
    if frac.Some? {
      FracIsPlain(frac.value);
      assert Written(false, whole, frac) == whole + ['.'] + frac.value;
      SplitOnce(whole, '.', frac.value);
    } else {
      assert Written(false, whole, frac) == whole;
      SplitNothing(whole, '.');
    }
  }

  lemma SignComesOff(whole: string, frac: Option<string>)
    ensures Written(true, whole, frac)[1..] == Written(false, whole, frac)
  {
    assert "" + whole == whole;
    assert Written(true, whole, frac) == "-" + Written(false, whole, frac);
  }

  lemma AmountIsRead(negative: bool, whole: string, frac: Option<string>)
    requires Amount(negative, whole, frac)
    ensures Pieces(Written(negative, whole, frac)) == Some((negative, whole, Frac(frac)))
  {
    var v := Written(negative, whole, frac);
    AmountIsBare(negative, whole, frac);
    TrimSpaceBare(v);
    SignComesOff(whole, frac);
    AmountSplits(negative, whole, frac);
  }

  lemma {:induction false} SplitJoins(s: string, c: char)
    ensures var parts := Split(s, c);
            && (|parts| == 1 ==> s == parts[0])
            && (|parts| == 2 ==> s == parts[0] + [c] + parts[1])
  {
    if s != "" {
      SplitJoins(s[1..], c);
      assert s == [s[0]] + s[1..];
    }
  }

  lemma ParseIntReadsNumerals(s: string)
    ensures ParseInt(s).Some? ==> Numeral(s)
  {
  }

  lemma PiecesAreWritten(value: string) returns (frac: Option<string>)
    requires Pieces(value).Some?
    ensures var (negative, whole, f) := Pieces(value).value;
            && TrimSpace(value) == Written(negative, whole, frac) && f == Frac(frac) && |f| <= 2
            && whole != "" && (whole[0] == '-' ==> negative)
  {
    var v := TrimSpace(value);
    var rest := if v[0] == '-' then v[1..] else v;
    SplitJoins(rest, '.');
    frac := if |Split(rest, '.')| == 2 then Some(Split(rest, '.')[1]) else None;
    assert rest == Written(false, Split(rest, '.')[0], frac);
  }

  /**
    Only amounts are read: two points, three decimals, an exponent, a missing whole part and any other character are
    refused. A sign passes in either part.
   */
  lemma OnlyAmountsAreRead(value: string)
    requires Parsed(value).Ok?
    ensures exists negative, whole, frac ::
              Amount(negative, whole, frac) && TrimSpace(value) == Written(negative, whole, frac)
  {
    var (negative, whole, f) := Pieces(value).value;
    var frac := PiecesAreWritten(value);
    ParseIntReadsNumerals(whole);
    ParseIntReadsNumerals(Padded(f));
    assert Amount(negative, whole, frac);
  }

  lemma TooFineHasNoHalves(whole: string, frac: string)
    requires '.' !in whole && '.' !in frac && 2 < |frac|
    ensures Halves(Written(false, whole, Some(frac))) == None
  {
    assert Written(false, whole, Some(frac)) == whole + ['.'] + frac;
    SplitOnce(whole, '.', frac);
  }

  lemma FirstIsSign(negative: bool, whole: string, frac: string)
    requires whole == "" || whole[0] != '-'
    ensures Written(negative, whole, Some(frac))[0] == '-' <==> negative
  {
    var w := Written(negative, whole, Some(frac));
    assert !negative ==> w[0] == '.' || w[0] == whole[0];
  }

  /** Three decimals are too many, whatever they are. */
  lemma TooFineIsRefused(negative: bool, whole: string, frac: string)
    requires '.' !in whole && '.' !in frac && 2 < |frac| && (whole == "" || whole[0] != '-')
    requires Bare(Written(negative, whole, Some(frac)))
    ensures Parsed(Written(negative, whole, Some(frac))) == Err(InvalidAmount)
  {
    TrimSpaceBare(Written(negative, whole, Some(frac)));
    FirstIsSign(negative, whole, frac);
    SignComesOff(whole, Some(frac));
    TooFineHasNoHalves(whole, frac);
  }

  /** Blank around an amount does not count. */
  lemma BlankIsIgnored(left: string, v: string, right: string)
    requires Blank(left) && Blank(right) && Bare(v)
    ensures Parsed(left + v + right) == Parsed(v)
  {
    TrimSpaceCuts(left, v, right);
    TrimSpaceBare(v);
  }

  // ---- what it is read as

  /** The integer that a numeral denotes. */
  function IntOf(s: string): int
    requires Numeral(s)
  {
    if s[0] == '-' then -(Value(s[1..]) as int) else if s[0] == '+' then Value(s[1..]) else Value(s)
  }

  lemma ParseIntOfNumeral(s: string)
    requires Numeral(s)
    ensures ParseInt(s) == if Int64(IntOf(s)) then Some(IntOf(s)) else None
  {
  }

  lemma ValueOne(c: char)
    requires Digit(c)
    ensures Value([c]) == c as int - '0' as int
  {
    assert [c][..0] == "";
  }

  lemma ValueTwo(c: char, d: char)
    requires Digit(c) && Digit(d)
    ensures Value([c, d]) == 10 * (c as int - '0' as int) + (d as int - '0' as int)
  {
    assert [c, d][..1] == [c];
    ValueOne(c);
  }

  lemma CentsOf(p: string)
    requires |p| == 2 && Numeral(p)
    ensures -9 <= IntOf(p) <= 99
  {
    if p[0] == '-' || p[0] == '+' {
      assert p[1..] == [p[1]];
      ValueOne(p[1]);
    } else {
      assert p == [p[0], p[1]];
      ValueTwo(p[0], p[1]);
    }
  }

  /** What the parser reads rightly: with negative cents its test for too large amounts wraps. */
  predicate Fits(negative: bool, w: int, c: int) {
    && Int64(w)
    && (if 0 <= c then 100 * w + c <= MAX_INT64 else w <= -(TWO_63 / 100))
    && Int64(if negative then -(100 * w + c) else 100 * w + c)
  }

  lemma WrapWrapped(x: int, y: int)
    ensures Wrap(Wrap(x) + y) == Wrap(x + y)
  {
  }

  lemma WrapNegated(x: int)
    ensures Wrap(-Wrap(x)) == Wrap(-x)
    ensures Wrap(x) == x <==> Int64(x)
    ensures Wrap(-x) == -x <==> Int64(-x)
  {
  }

  lemma CombinedIsExactIff(negative: bool, w: int, c: int)
    requires Int64(w) && -9 <= c <= 99
    ensures Combined(negative, w, c) == Ok(if negative then -(100 * w + c) else 100 * w + c) <==> Fits(negative, w, c)
  {
    WrapWrapped(w * 100, c);
    WrapNegated(100 * w + c);
  }

  lemma PartsAre(negative: bool, whole: string, frac: string, w: int, c: int, exact: Result<Money>, fits: bool)
    requires ParseInt(whole) == (if Int64(w) then Some(w) else None) && ParseInt(Padded(frac)) == Some(c)
    requires exact.Ok? && (Int64(w) ==> fits == (Combined(negative, w, c) == exact)) && (fits ==> Int64(w))
    ensures (FromParts(negative, whole, frac) == exact) == fits
  {
  }

  lemma PartsAreExactIff(negative: bool, whole: string, frac: string, w: int, c: int)
    requires ParseInt(whole) == (if Int64(w) then Some(w) else None) && ParseInt(Padded(frac)) == Some(c)
    requires -9 <= c <= 99
    ensures FromParts(negative, whole, frac) == Ok(if negative then -(100 * w + c) else 100 * w + c)
            <==> Fits(negative, w, c)
  {
    if Int64(w) { CombinedIsExactIff(negative, w, c); }
    PartsAre(negative, whole, frac, w, c, Ok(if negative then -(100 * w + c) else 100 * w + c), Fits(negative, w, c));
  }

  lemma NumeralsParse(whole: string, frac: string)
    requires Numeral(whole) && |frac| <= 2 && Numeral(Padded(frac))
    ensures ParseInt(whole) == if Int64(IntOf(whole)) then Some(IntOf(whole)) else None
    ensures ParseInt(Padded(frac)) == Some(IntOf(Padded(frac))) && -9 <= IntOf(Padded(frac)) <= 99
  {
    PaddedEnds(frac);
    CentsOf(Padded(frac));
    ParseIntOfNumeral(whole);
    ParseIntOfNumeral(Padded(frac));
  }

  lemma ParsedAmount(negative: bool, whole: string, frac: Option<string>, r: Result<Money>)
    requires Amount(negative, whole, frac) && FromParts(negative, whole, Frac(frac)) == r
    ensures Parsed(Written(negative, whole, frac)) == r
  {
    AmountIsRead(negative, whole, frac);
  }

  lemma ParsedExactIff(negative: bool, whole: string, frac: Option<string>, w: int, c: int)
    requires Amount(negative, whole, frac) && -9 <= c <= 99
    requires ParseInt(whole) == (if Int64(w) then Some(w) else None) && ParseInt(Padded(Frac(frac))) == Some(c)
    ensures Parsed(Written(negative, whole, frac)) == Ok(if negative then -(100 * w + c) else 100 * w + c)
            <==> Fits(negative, w, c)
  {
    PartsAreExactIff(negative, whole, Frac(frac), w, c);
    ParsedAmount(negative, whole, frac, FromParts(negative, whole, Frac(frac)));
  }

  /** Of all that is read, what fits is read as exactly what it says, and nothing else is. */
  lemma AmountIsExactIff(negative: bool, whole: string, frac: Option<string>, w: int, c: int)
    requires Amount(negative, whole, frac) && w == IntOf(whole) && c == IntOf(Padded(Frac(frac)))
    ensures Parsed(Written(negative, whole, frac)) == Ok(if negative then -(100 * w + c) else 100 * w + c)
            <==> Fits(negative, w, c)
  {
    NumeralsParse(whole, Frac(frac));
    ParsedExactIff(negative, whole, frac, w, c);
  }

  lemma ParseIntOfNegated(n: nat)
    requires n <= MAX_INT64
    ensures ParseInt("-" + Decimal(n)) == Some(-(n as int))
  {
    ValueOfDecimal(n);
    assert ("-" + Decimal(n))[1..] == Decimal(n);
  }

  lemma NegatedParts(whole: nat, exact: Result<Money>)
    requires whole <= MAX_INT64 && exact.Ok? && Combined(true, -(whole as int), 0) == exact
    ensures FromParts(true, "-" + Decimal(whole), "") == exact
  {
    ParseIntOfNegated(whole);
    NoCents();
    PartsAre(true, "-" + Decimal(whole), "", -(whole as int), 0, exact, true);
  }

  lemma NegatedIsAmount(whole: nat)
    ensures Amount(true, "-" + Decimal(whole), None)
    ensures Written(true, "-" + Decimal(whole), None) == "-" + ("-" + Decimal(whole))
  {
    assert ("-" + Decimal(whole))[1..] == Decimal(whole);
    NoCents();
  }

  /** With a second sign the test for too large amounts lets through what int64 cannot hold, and the amount wraps. */
  lemma SecondSignWraps(whole: nat)
    requires MAX_INT64 < 100 * whole && whole <= MAX_INT64
    ensures Parsed("-" + ("-" + Decimal(whole))) == Ok(Wrap(100 * whole)) && Wrap(100 * whole) != 100 * whole
  {
    WrappedWhole(whole);
    NegatedParts(whole, Ok(Wrap(100 * whole)));
    NegatedIsAmount(whole);
    ParsedAmount(true, "-" + Decimal(whole), None, Ok(Wrap(100 * whole)));
  }

  lemma NoCents()
    ensures ParseInt(Padded("")) == Some(0) && Numeral(Padded(""))
  {
    PaddedEnds("");
    ValueTwo('0', '0');
  }

  lemma WrappedWhole(whole: nat)
    requires MAX_INT64 < 100 * whole && whole <= MAX_INT64
    ensures Combined(true, -(whole as int), 0) == Ok(Wrap(100 * whole)) && Wrap(100 * whole) != 100 * whole
  {
    WrapWrapped(-(whole as int) * 100, 0);
    WrapNegated(-(whole as int) * 100);
    WrapNegated(100 * whole);
  }

  // ---- plain amounts never wrap

  /** `-?digits`, or the same with a point and at most two more digits. */
  ghost predicate Plain(whole: string, frac: Option<string>) {
    whole != "" && Digits(whole) && Digits(Frac(frac)) && |Frac(frac)| <= 2
  }

  /** The hundredths that a plain amount denotes. */
  function Hundredths(whole: string, frac: Option<string>): nat
    requires Plain(whole, frac)
  {
    100 * Value(whole) +
    (if Frac(frac) == "" then 0 else if |Frac(frac)| == 1 then 10 * Value(Frac(frac)) else Value(Frac(frac)))
  }

  lemma PaddedCents(frac: string)
    requires Digits(frac) && |frac| <= 2
    ensures var p := Padded(frac);
            && |p| == 2 && Digits(p)
            && Value(p) == (if frac == "" then 0 else if |frac| == 1 then 10 * Value(frac) else Value(frac))
            && Value(p) <= 99
  {
    PaddedEnds(frac);
    if frac == "" {
      ValueTwo('0', '0');
    } else if |frac| == 1 {
      assert Padded(frac) == [frac[0], '0'] && frac == [frac[0]];
      ValueOne(frac[0]);
      ValueTwo(frac[0], '0');
    } else {
      assert frac == [frac[0], frac[1]];
      ValueTwo(frac[0], frac[1]);
    }
  }

  lemma ParseIntOfDigits(s: string)
    requires s != "" && Digits(s)
    ensures ParseInt(s) == if Value(s) <= MAX_INT64 then Some(Value(s)) else None
  {
    assert Digit(s[0]);
  }

  lemma CombinedExactly(negative: bool, whole: nat, cents: nat)
    requires whole <= MAX_INT64 && cents <= 99
    ensures Combined(negative, whole, cents)
            == if 100 * whole + cents <= MAX_INT64 then Ok((if negative then -1 else 1) * (100 * whole + cents))
               else Err(InvalidAmount)
  {
  }

  lemma PartsExactly(negative: bool, whole: string, frac: Option<string>)
    requires Plain(whole, frac)
    ensures FromParts(negative, whole, Frac(frac))
            == if Hundredths(whole, frac) <= MAX_INT64
               then Ok((if negative then -1 else 1) * Hundredths(whole, frac)) else Err(InvalidAmount)
  {
    var f := Frac(frac);
    ParseIntOfDigits(whole);
    PaddedCents(f);
    ParseIntOfDigits(Padded(f));
    assert Hundredths(whole, frac) == 100 * Value(whole) + Value(Padded(f));
    if Value(whole) <= MAX_INT64 {
      CombinedExactly(negative, Value(whole), Value(Padded(f)));
    }
  }

  lemma PlainIsAmount(negative: bool, whole: string, frac: Option<string>)
    requires Plain(whole, frac)
    ensures Amount(negative, whole, frac)
  {
    assert Digit(whole[0]);
    PaddedCents(Frac(frac));
    assert Digit(Padded(Frac(frac))[0]);
  }

  /** A plain amount is read as exactly what it says if int64 can hold it, and refused otherwise; it never wraps. */
  lemma PlainIsExact(negative: bool, whole: string, frac: Option<string>)
    requires Plain(whole, frac)
    ensures Parsed(Written(negative, whole, frac))
            == if Hundredths(whole, frac) <= MAX_INT64
               then Ok((if negative then -1 else 1) * Hundredths(whole, frac)) else Err(InvalidAmount)
  {
    PlainIsAmount(negative, whole, frac);
    AmountIsRead(negative, whole, frac);
    PartsExactly(negative, whole, frac);
  }

  // ---- what is printed is read back

  lemma TwoWideIsPlain(cents: nat)
    requires cents <= 99
    ensures var t := TwoWide(cents); |t| == 2 && Digits(t) && Value(t) == cents
  {
    ValueOfDecimal(cents);
    if cents < 10 {
      ValueTwo('0', DigitOf(cents));
      assert TwoWide(cents) == ['0', DigitOf(cents)];
    } else {
      assert |Decimal(cents)| == 2;
    }
  }

  lemma PrintedIsPlain(m: Money)
    requires Int64(m) && m != -TWO_63
    ensures var n := if m < 0 then -m else m;
            && Plain(Decimal(n / 100), Some(TwoWide(n % 100)))
            && MoneyString(m) == Written(m < 0, Decimal(n / 100), Some(TwoWide(n % 100)))
            && Hundredths(Decimal(n / 100), Some(TwoWide(n % 100))) == n
  {
    var n := if m < 0 then -m else m;
    ValueOfDecimal(n / 100);
    TwoWideIsPlain(n % 100);
  }

  lemma LeastArithmetic(m: Money, whole: int, cents: int)
    requires m == -TWO_63 && 100 * whole + cents == TWO_63 && 0 <= cents <= 99
    ensures Wrap(-m) == m && Quotient(m, 100) == -whole && Remainder(m, 100) == -cents
    ensures Combined(true, -whole, -cents) == Ok(m)
  {
  }

  lemma LeastPrints(m: Money, whole: nat, cents: nat)
    requires m == -TWO_63 && 100 * whole + cents == TWO_63 && 0 < cents < 10 && 0 < whole
    ensures MoneyString(m) == Written(true, "-" + Decimal(whole), Some("-" + Decimal(cents)))
  {
    LeastArithmetic(m, whole, cents);
    var q, c := Quotient(m, 100), Remainder(m, 100);
    assert Signed(q) == "-" + Decimal(whole) && TwoWide(c) == "-" + Decimal(cents);
  }

  lemma LeastIsAmount(whole: nat, cents: nat)
    requires 0 < cents < 10
    ensures Amount(true, "-" + Decimal(whole), Some("-" + Decimal(cents)))
  {
    assert ("-" + Decimal(whole))[1..] == Decimal(whole);
    assert ("-" + Decimal(cents))[1..] == Decimal(cents);
    PaddedEnds("-" + Decimal(cents));
  }

  /** The least amount prints with three signs, and is read back all the same because its negation wraps twice. */
  lemma LeastRoundTrip(m: Money, whole: nat, cents: nat)
    requires m == -TWO_63 && 100 * whole + cents == TWO_63 && 0 < cents < 10
    ensures Parsed(MoneyString(m)) == Ok(m)
  {
    LeastPrints(m, whole, cents);
    LeastIsAmount(whole, cents);
    AmountIsRead(true, "-" + Decimal(whole), Some("-" + Decimal(cents)));
    ParseIntOfNegated(whole);
    ParseIntOfNegated(cents);
    PaddedEnds("-" + Decimal(cents));
    LeastArithmetic(m, whole, cents);
  }

  /** Printing and parsing give the amount back, for every int64. */
  lemma RoundTrip(m: Money)
    requires Int64(m)
    ensures Parsed(MoneyString(m)) == Ok(m)
  {
    if m == -TWO_63 {
      LeastRoundTrip(m, TWO_63 / 100, TWO_63 % 100);
    } else {
      var n := if m < 0 then -m else m;
      PrintedIsPlain(m);
      PlainIsExact(m < 0, Decimal(n / 100), Some(TwoWide(n % 100)));
    }
  }
}
