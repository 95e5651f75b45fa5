/** Amounts of fiat and crypto money, their decimal printer and their parser. */
module Money {
  import opened Outcomes

  datatype Kind = Fiat | Crypto

  /** `value` counts the smallest units; `decimals` digits of it follow the decimal point. */
  datatype Money = Money(kind: Kind, ticker: string, value: int, decimals: nat) {

    predicate CompatibleTo(other: Money) {
      ticker == other.ticker && decimals == other.decimals
    }

    function Add(other: Money): Outcome<Money> {
      if !CompatibleTo(other) then Err(Incompatible) else Ok(this.(value := value + other.value))
    }

    function SubNegative(other: Money): Outcome<Money> {
      if !CompatibleTo(other) then Err(Incompatible) else Ok(this.(value := value - other.value))
    }

    function Sub(other: Money): Outcome<Money> {
      var difference := SubNegative(other);
      if difference.Ok? && difference.value.value < 0 then Err(Negative) else difference
    }

    predicate Equals(other: Money) {
      CompatibleTo(other) && value == other.value
    }

    predicate GreaterThan(other: Money) {
      CompatibleTo(other) && value > other.value
    }

    predicate GreaterThanOrEqual(other: Money) {
      Equals(other) || GreaterThan(other)
    }

    /** The amount as a decimal fraction without trailing zeros. */
    function String(): string {
      var negative := value < 0;
      var plain := WithPoint(Digits(if negative then -value else value), decimals);
      var trimmed :=
        if kind == Fiat then TrimSuffix(plain, ".00")
        else TrimRight(TrimRight(plain, '0'), '.');
      if negative then "-" + trimmed else trimmed
    }
  }

  /** Places the decimal point, padding with zeros up to one whole digit. */
  function WithPoint(raw: string, decimals: nat): string {
    var l := |raw|;
    if l > decimals then raw[..l - decimals] + "." + raw[l - decimals..]
    else if l == decimals then "0." + raw
    else "0." + Zeros(decimals - l) + raw
  }

  function Zeros(n: nat): string {
    seq(n, _ => '0')
  }

  predicate IsDigit(c: char) {
    '0' <= c <= '9'
  }

  /** The decimal digits of a natural number. */
  function Digits(n: nat): string {
    if n < 10 then [DigitChar(n)] else Digits(n / 10) + [DigitChar(n % 10)]
  }

  function DigitChar(d: nat): char
    requires d < 10
  {
    '0' + d as char
  }

  predicate AllDigits(s: string) {
    forall i | 0 <= i < |s| :: IsDigit(s[i])
  }

  /** The number a string of digits denotes. */
  function DigitsValue(s: string): nat
    requires AllDigits(s)
  {
    if s == "" then 0
    else DigitsValue(s[..|s| - 1]) * 10 + (s[|s| - 1] as int - '0' as int)
  }

  function TrimRight(s: string, c: char): string {
    if s != "" && s[|s| - 1] == c then TrimRight(s[..|s| - 1], c) else s
  }

  function TrimSuffix(s: string, suffix: string): string {
    if |s| >= |suffix| && s[|s| - |suffix|..] == suffix then s[..|s| - |suffix|] else s
  }

  /** The parts of `s` between the occurrences of `c`. */
  function Split(s: string, c: char): (parts: seq<string>)
    ensures parts != []
  {
    if s == "" then [""]
    else
      var rest := Split(s[..|s| - 1], c);
      var last := s[|s| - 1];
      if last == c then rest + [""]
      else rest[..|rest| - 1] + [rest[|rest| - 1] + [last]]
  }

  function Signed(negative: bool, n: nat): int {
    if negative then -(n as int) else n as int
  }

  /** Signed decimal number: an optional sign followed by at least one digit. */
  function ParseInteger(s: string): Outcome<int> {
    if s == "" then Err(Validation)
    else if s[0] == '-' || s[0] == '+' then
      if |s| > 1 && AllDigits(s[1..]) then Ok(Signed(s[0] == '-', DigitsValue(s[1..])))
      else Err(Validation)
    else if AllDigits(s) then Ok(DigitsValue(s))
    else Err(Validation)
  }

  function WithoutUnderscores(s: string): string {
    if s == "" then ""
    else
      var rest := WithoutUnderscores(s[..|s| - 1]);
      if s[|s| - 1] == '_' then rest else rest + [s[|s| - 1]]
  }

  /** A parsed amount, a rejected string, or a panic: more fraction digits than decimals. */
  datatype Parsed = Parsed(money: Money) | Rejected | Panic

  /** CryptoFromStringFloat. */
  function CryptoFromStringFloat(ticker: string, text: string, decimals: nat): Parsed {
    var parts := Split(text, '.');
    if |parts| > 2 then Rejected
    else if |parts| == 1 then CryptoFromRaw(ticker, text + Zeros(decimals), decimals)
    else if |parts[1]| > decimals then Panic
    else CryptoFromRaw(ticker, parts[0] + parts[1] + Zeros(decimals - |parts[1]|), decimals)
  }

  function CryptoFromRaw(ticker: string, raw: string, decimals: nat): Parsed {
    match ParseInteger(WithoutUnderscores(raw))
    case Ok(value) => Parsed(Money(Crypto, ticker, value, decimals))
    case Err(_) => Rejected
  }

  // ----- digits -----

  lemma {:induction false} DigitsDenote(n: nat)
    ensures Digits(n) != "" && AllDigits(Digits(n)) && DigitsValue(Digits(n)) == n
  {
    if n >= 10 {
      DigitsDenote(n / 10);
      assert Digits(n)[..|Digits(n)| - 1] == Digits(n / 10);
    }
  }

  lemma {:induction false} LeadingZeros(n: nat, s: string)
    requires AllDigits(s)
    ensures AllDigits(Zeros(n) + s) && DigitsValue(Zeros(n) + s) == DigitsValue(s)
    decreases |s|, n
  {
    if s != "" {
      LeadingZeros(n, s[..|s| - 1]);
      assert (Zeros(n) + s)[..n + |s| - 1] == Zeros(n) + s[..|s| - 1];
    } else if n > 0 {
      LeadingZeros(n - 1, "");
      assert (Zeros(n) + s)[..n - 1] == Zeros(n - 1) + "";
    }
  }

  // ----- trimming and splitting -----

  /** Trimming zeros stops at the decimal point and removes only zeros of the fraction. */
  lemma {:induction false} TrimZeros(whole: string, fraction: string)
    ensures TrimRight(whole + "." + fraction, '0') == whole + "." + TrimRight(fraction, '0')
    ensures |TrimRight(fraction, '0')| <= |fraction|
    ensures fraction == TrimRight(fraction, '0') + Zeros(|fraction| - |TrimRight(fraction, '0')|)
    ensures TrimRight(fraction, '0') <= fraction
    decreases |fraction|
  {
    var s := whole + "." + fraction;
    if fraction != "" {
      var k := |fraction| - 1;
      TrimZeros(whole, fraction[..k]);
      assert s[..|s| - 1] == whole + "." + fraction[..k];
      assert fraction == fraction[..k] + [fraction[k]];
    }
  }

  lemma {:induction false} SplitWithout(s: string, c: char)
    requires c !in s
    ensures Split(s, c) == [s]
  {
    if s != "" {
      SplitWithout(s[..|s| - 1], c);
      assert s == s[..|s| - 1] + [s[|s| - 1]];
    }
  }

  /** One more character closes the last part or extends it. */
  lemma SplitAppend(s: string, u: char, c: char, earlier: seq<string>, last: string)
    requires Split(s, c) == earlier + [last]
    ensures Split(s + [u], c) == if u == c then earlier + [last, ""] else earlier + [last + [u]]
  {
    assert (s + [u])[..|s|] == s;
    assert (earlier + [last])[..|earlier|] == earlier;
  }

  lemma LastCharacter(prefix: string, b: string)
    requires b != ""
    ensures prefix + b == prefix + b[..|b| - 1] + [b[|b| - 1]]
    ensures b == b[..|b| - 1] + [b[|b| - 1]] && b[|b| - 1] in b
  {
  }

  lemma {:induction false} SplitOnce(a: string, b: string, c: char)
    requires c !in a && c !in b
    ensures Split(a + [c] + b, c) == [a, b]
    decreases |b|
  {
    if b == "" {
      SplitWithout(a, c);
      SplitAppend(a, c, c, [], a);
      assert a + [c] + b == a + [c];
    } else {
      var k := |b| - 1;
      SplitOnce(a, b[..k], c);
      LastCharacter(a + [c], b);
      SplitAppend(a + [c] + b[..k], b[k], c, [a], b[..k]);
    }
  }

  lemma {:induction false} NoUnderscores(s: string)
    requires '_' !in s
    ensures WithoutUnderscores(s) == s
  {
    if s != "" {
      NoUnderscores(s[..|s| - 1]);
      assert s == s[..|s| - 1] + [s[|s| - 1]];
    }
  }

  // ----- round trip -----

  lemma Regroup(a: string, b: string, c: string)
    ensures a + b + c == a + (b + c)
  {
  }

  /** The dot falls inside the digits. */
  lemma PointInside(raw: string, decimals: nat) returns (whole: string, fraction: string)
    requires |raw| > decimals && AllDigits(raw)
    ensures whole != "" && |fraction| == decimals && AllDigits(whole) && AllDigits(fraction)
    ensures whole + fraction == raw && WithPoint(raw, decimals) == whole + "." + fraction
  {
    var l := |raw|;
    whole, fraction := raw[..l - decimals], raw[l - decimals..];
  }

  lemma NoPadding(raw: string)
    ensures Zeros(0) + raw == raw
  {
  }

  /** A point before all digits is written behind one zero, padding or not. */
  lemma PointBefore(raw: string, decimals: nat)
    requires |raw| <= decimals
    ensures WithPoint(raw, decimals) == "0" + "." + (Zeros(decimals - |raw|) + raw)
  {
    assert "0." == "0" + ".";
    if |raw| == decimals {
      NoPadding(raw);
    } else {
      Regroup("0.", Zeros(decimals - |raw|), raw);
    }
  }

  lemma OneMoreZero(n: nat, raw: string)
    ensures "0" + (Zeros(n) + raw) == Zeros(n + 1) + raw
  {
    assert "0" + Zeros(n) == Zeros(n + 1);
    Regroup("0", Zeros(n), raw);
  }

  /** The digits are padded with zeros behind the dot. */
  lemma PointPadded(raw: string, decimals: nat) returns (fraction: string)
    requires |raw| <= decimals && AllDigits(raw)
    ensures |fraction| == decimals && AllDigits(fraction)
    ensures AllDigits("0" + fraction) && DigitsValue("0" + fraction) == DigitsValue(raw)
    ensures WithPoint(raw, decimals) == "0" + "." + fraction
  {
    var n := decimals - |raw|;
    fraction := Zeros(n) + raw;
    LeadingZeros(n, raw);
    LeadingZeros(n + 1, raw);
    OneMoreZero(n, raw);
    PointBefore(raw, decimals);
  }

  /** The text between sign and end: whole digits, a dot, and exactly `decimals` fraction digits. */
  lemma PlainForm(n: nat, decimals: nat) returns (whole: string, fraction: string)
    ensures whole != "" && |fraction| == decimals && AllDigits(whole) && AllDigits(fraction)
    ensures AllDigits(whole + fraction) && DigitsValue(whole + fraction) == n
    ensures WithPoint(Digits(n), decimals) == whole + "." + fraction
  {
    DigitsDenote(n);
    if |Digits(n)| > decimals {
      whole, fraction := PointInside(Digits(n), decimals);
    } else {
      fraction := PointPadded(Digits(n), decimals);
      whole := "0";
    }
  }

  /** Trimming a printed amount leaves the whole digits and a shorter fraction, or no dot at all. */
  lemma Trimmed(whole: string, fraction: string) returns (kept: string)
    requires whole != "" && AllDigits(whole) && AllDigits(fraction)
    ensures |kept| <= |fraction| && fraction == kept + Zeros(|fraction| - |kept|)
    ensures TrimRight(TrimRight(whole + "." + fraction, '0'), '.') ==
            if kept == "" then whole else whole + "." + kept
  {
    TrimZeros(whole, fraction);
    kept := TrimRight(fraction, '0');
    var once := whole + "." + kept;
    if kept == "" {
      assert once[..|once| - 1] == whole;
    } else {
      assert once[|once| - 1] == kept[|kept| - 1];
    }
  }

  /** Digits with or without a sign contain no other character. */
  lemma DigitsArePlain(digits: string, c: char)
    requires AllDigits(digits) && !IsDigit(c) && c != '-'
    ensures c !in digits && c !in "-" + digits
  {
  }

  lemma PositiveReadBack(digits: string, ticker: string, decimals: nat)
    requires digits != "" && AllDigits(digits)
    ensures CryptoFromRaw(ticker, digits, decimals) == Parsed(Money(Crypto, ticker, DigitsValue(digits), decimals))
  {
    DigitsArePlain(digits, '_');
    NoUnderscores(digits);
    assert IsDigit(digits[0]);
  }

  lemma NegativeReadBack(digits: string, ticker: string, decimals: nat)
    requires digits != "" && AllDigits(digits)
    ensures CryptoFromRaw(ticker, "-" + digits, decimals) ==
            Parsed(Money(Crypto, ticker, Signed(true, DigitsValue(digits)), decimals))
  {
    var raw := "-" + digits;
    DigitsArePlain(digits, '_');
    NoUnderscores(raw);
    assert raw[0] == '-' && raw[1..] == digits;
  }

  /** A sign and digits, as they reach the integer parser. */
  lemma RawReadBack(negative: bool, digits: string, ticker: string, decimals: nat)
    requires digits != "" && AllDigits(digits)
    ensures var raw := (if negative then "-" else "") + digits;
            && '.' !in raw
            && CryptoFromRaw(ticker, raw, decimals)
               == Parsed(Money(Crypto, ticker, Signed(negative, DigitsValue(digits)), decimals))
  {
    DigitsArePlain(digits, '.');
    if negative {
      NegativeReadBack(digits, ticker, decimals);
    } else {
      PositiveReadBack(digits, ticker, decimals);
      assert "" + digits == digits;
    }
  }

  lemma PartsLack(a: string, b: string, c: string, ch: char)
    requires ch !in a + b + c
    ensures ch !in a && ch !in b
  {
    assert forall i | 0 <= i < |a| :: a[i] == (a + b + c)[i];
    assert forall i | 0 <= i < |b| :: b[i] == (a + b + c)[|a| + i];
  }

  /** Reading back whole digits and a possibly empty fraction means reading the padded digits. */
  lemma ReadPadded(start: string, kept: string, ticker: string, decimals: nat)
    requires |kept| <= decimals && '.' !in start + kept + Zeros(decimals - |kept|)
    ensures CryptoFromStringFloat(ticker, if kept == "" then start else start + "." + kept, decimals)
            == CryptoFromRaw(ticker, start + kept + Zeros(decimals - |kept|), decimals)
  {
    PartsLack(start, kept, Zeros(decimals - |kept|), '.');
    if kept == "" {
      SplitWithout(start, '.');
      assert start + kept == start;
    } else {
      SplitOnce(start, kept, '.');
    }
  }

  /** Reading back a sign, whole digits and a possibly empty fraction restores the value. */
  lemma ReadBack(negative: bool, whole: string, kept: string, ticker: string, decimals: nat)
    requires whole != "" && |kept| <= decimals && AllDigits(whole + kept + Zeros(decimals - |kept|))
    ensures var start := (if negative then "-" else "") + whole;
            var n := DigitsValue(whole + kept + Zeros(decimals - |kept|));
            CryptoFromStringFloat(ticker, if kept == "" then start else start + "." + kept, decimals)
            == Parsed(Money(Crypto, ticker, Signed(negative, n), decimals))
  {
    var sign := if negative then "-" else "";
    var digits := whole + kept + Zeros(decimals - |kept|);
    RawReadBack(negative, digits, ticker, decimals);
    Regroup(sign, whole + kept, Zeros(decimals - |kept|));
    Regroup(sign, whole, kept);
    ReadPadded(sign + whole, kept, ticker, decimals);
  }

  lemma SignFirst(negative: bool, whole: string, kept: string)
    ensures var sign := if negative then "-" else "";
            var trimmed := if kept == "" then whole else whole + "." + kept;
            (if negative then "-" + trimmed else trimmed)
            == if kept == "" then sign + whole else sign + whole + "." + kept
  {
    if negative {
      assert "-" + (whole + "." + kept) == "-" + whole + "." + kept;
    } else {
      assert "" + whole == whole;
    }
  }

  /** A printed crypto amount: a sign, whole digits, and a fraction whose trailing zeros are left out. */
  lemma Printed(m: Money) returns (whole: string, kept: string)
    requires m.kind == Crypto
    ensures whole != "" && |kept| <= m.decimals && AllDigits(whole + kept + Zeros(m.decimals - |kept|))
    ensures Signed(m.value < 0, DigitsValue(whole + kept + Zeros(m.decimals - |kept|))) == m.value
    ensures var start := (if m.value < 0 then "-" else "") + whole;
            m.String() == if kept == "" then start else start + "." + kept
  {
    var fraction;
    whole, fraction := PlainForm(if m.value < 0 then -m.value else m.value, m.decimals);
    kept := Trimmed(whole, fraction);
    Regroup(whole, kept, Zeros(m.decimals - |kept|));
    SignFirst(m.value < 0, whole, kept);
  }

  /** Parsing a printed crypto amount gives the amount back, negative or not, and never panics. */
  lemma PrintParseRoundTrip(m: Money)
    requires m.kind == Crypto
    ensures CryptoFromStringFloat(m.ticker, m.String(), m.decimals) == Parsed(m)
  {
    var whole, kept := Printed(m);
    ReadBack(m.value < 0, whole, kept, m.ticker, m.decimals);
  }

  /** The parser panics exactly on one dot followed by more characters than there are decimals. */
  lemma ParserPanicsExactly(ticker: string, whole: string, fraction: string, decimals: nat)
    requires '.' !in whole && '.' !in fraction
    ensures CryptoFromStringFloat(ticker, whole + "." + fraction, decimals).Panic? <==> |fraction| > decimals
  {
    SplitOnce(whole, fraction, '.');
  }
}
