/**
 * The texts the dialog computes rather than copies: the transfer-progress line, built
 * from two Kotlin `Long` values, and the endpoint name "<brand>: <model>". Each rendering
 * has a parser beside it, and the round trips show that the text loses nothing beyond
 * what the rendering rounds away.
 */
module Text {
  import opened Wrappers

  predicate IsDigit(c: char) { '0' <= c <= '9' }

  predicate AllDigits(s: string) { forall i :: 0 <= i < |s| ==> IsDigit(s[i]) }

  function DigitValue(c: char): (d: nat)
    requires IsDigit(c)
    ensures d < 10
  {
    c as int - '0' as int
  }

  function DigitChar(d: nat): (c: char)
    requires d < 10
    ensures IsDigit(c) && DigitValue(c) == d
  {
    ('0' as int + d) as char
  }

  /** Decimal digits of `n`, most significant first and without leading zeros. */
  function NatToDecimal(n: nat): (s: string)
    ensures 0 < |s| && AllDigits(s)
    ensures (s[0] == '0') == (n == 0)
    decreases n
  {
    if n < 10 then [DigitChar(n)] else NatToDecimal(n / 10) + [DigitChar(n % 10)]
  }

  /** The number a string of decimal digits denotes. */
  function DecimalToNat(s: string): nat
    requires AllDigits(s)
    decreases |s|
  {
    if s == [] then 0 else 10 * DecimalToNat(s[..|s| - 1]) + DigitValue(s[|s| - 1])
  }

  lemma {:induction false} DecimalRoundTrip(n: nat)
    ensures DecimalToNat(NatToDecimal(n)) == n
  {
    var s := NatToDecimal(n);
    if n < 10 {
      assert s[..|s| - 1] == [];
    } else {
      assert s[..|s| - 1] == NatToDecimal(n / 10);
      DecimalRoundTrip(n / 10);
    }
  }

  /** Reads back an optionally signed decimal number. */
  function ParseLong(s: string): Option<int>
  {
    if 0 < |s| && s[0] == '-' then
      if 1 < |s| && AllDigits(s[1..]) then Some(-(DecimalToNat(s[1..]) as int)) else None
    else if 0 < |s| && AllDigits(s) then Some(DecimalToNat(s))
    else None
  }

  /**
   * Kotlin's rendering of a `Long` inside a string template: a minus sign exactly for a
   * negative value, then the digits of its magnitude.
   */
  function LongToString(n: int): (s: string)
    ensures 0 < |s| && (s[0] == '-') == (n < 0)
    ensures n < 0 ==> 1 < |s| && AllDigits(s[1..])
    ensures 0 <= n ==> AllDigits(s)
  {
    if n < 0 then
      var digits := NatToDecimal(-n);
      assert ("-" + digits)[1..] == digits;
      "-" + digits
    else NatToDecimal(n)
  }

  /** Reading the rendering of a `Long` back gives the value. */
  lemma LongRoundTrip(n: int)
    ensures ParseLong(LongToString(n)) == Some(n)
  {
    var s := LongToString(n);
    if n < 0 {
      assert s[1..] == NatToDecimal(-n);
      DecimalRoundTrip(-n);
    } else {
      DecimalRoundTrip(n);
    }
  }

  lemma LongToStringHasNo(n: int, c: char)
    requires !IsDigit(c) && c != '-'
    ensures c !in LongToString(n)
  {
  }

  /** Position of the first `c` in `s`, if any. */
  function IndexOf(s: string, c: char): (r: Option<nat>)
    ensures r.Some? ==> r.value < |s| && s[r.value] == c && c !in s[..r.value]
    ensures r.None? ==> c !in s
  {
    if s == [] then None
    else if s[0] == c then Some(0)
    else
      match IndexOf(s[1..], c)
      case None => None
      case Some(i) =>
        assert s[..i + 1] == [s[0]] + s[1..][..i];
        Some(i + 1)
  }

  /** The first `c` of `p + q` is the head of `q` when `p` holds none. */
  lemma {:induction false} IndexOfAfter(p: string, q: string, c: char)
    requires c !in p && 0 < |q| && q[0] == c
    ensures IndexOf(p + q, c) == Some(|p|)
  {
    if p != [] {
      assert (p + q)[1..] == p[1..] + q;
      IndexOfAfter(p[1..], q, c);
    }
  }

  /**
   * Kotlin's `Long` division by 1024, which truncates toward zero: the KB count shown
   * for a byte count. (Dafny's own `/` rounds down, which differs for negative counts.)
   */
  function KbOf(bytes: int): (kb: int)
    ensures 0 <= bytes ==> 0 <= kb && kb * 1024 <= bytes < (kb + 1) * 1024
    ensures bytes < 0 ==> kb <= 0 && (kb - 1) * 1024 < bytes <= kb * 1024
  {
    if 0 <= bytes then bytes / 1024 else -((-bytes) / 1024)
  }

  const SENT_PREFIX := "Sent: "
  const TOTAL_INFIX := "KB \nTotal: "
  const KB_SUFFIX := "KB"

  /** Reads the two KB counts back out of a progress line. */
  function ParseProgressText(s: string): Option<(int, int)>
  {
    if |s| < |SENT_PREFIX| || s[..|SENT_PREFIX|] != SENT_PREFIX then None
    else
      var rest := s[|SENT_PREFIX|..];
      match IndexOf(rest, 'K')
      case None => None
      case Some(i) =>
        var tail := rest[i..];
        if |tail| < |TOTAL_INFIX| + |KB_SUFFIX| || tail[..|TOTAL_INFIX|] != TOTAL_INFIX
          || tail[|tail| - |KB_SUFFIX|..] != KB_SUFFIX
        then None
        else
          match (ParseLong(rest[..i]), ParseLong(tail[|TOTAL_INFIX|..|tail| - |KB_SUFFIX|]))
          case (Some(sent), Some(total)) => Some((sent, total))
          case _ => None
  }

  /** The status line of a transfer that has not succeeded yet. */
  function ProgressText(bytesTransferred: int, totalBytes: int): string
  {
    SENT_PREFIX + LongToString(KbOf(bytesTransferred)) + TOTAL_INFIX
      + LongToString(KbOf(totalBytes)) + KB_SUFFIX
  }

  /** The progress line carries exactly the two truncated KB counts. */
  lemma ProgressTextRoundTrip(bytesTransferred: int, totalBytes: int)
    ensures ParseProgressText(ProgressText(bytesTransferred, totalBytes))
         == Some((KbOf(bytesTransferred), KbOf(totalBytes)))
  {
    var x := LongToString(KbOf(bytesTransferred));
    var y := LongToString(KbOf(totalBytes));
    var tail := TOTAL_INFIX + y + KB_SUFFIX;
    var rest := x + tail;
    assert ProgressText(bytesTransferred, totalBytes) == SENT_PREFIX + rest;
    LongToStringHasNo(KbOf(bytesTransferred), 'K');
    IndexOfAfter(x, tail, 'K');
    assert (SENT_PREFIX + rest)[|SENT_PREFIX|..] == rest;
    assert rest[..|x|] == x;
    assert rest[|x|..] == tail;
    assert tail[..|TOTAL_INFIX|] == TOTAL_INFIX;
    assert tail[|tail| - |KB_SUFFIX|..] == KB_SUFFIX;
    assert tail[|TOTAL_INFIX|..|tail| - |KB_SUFFIX|] == y;
    LongRoundTrip(KbOf(bytesTransferred));
    LongRoundTrip(KbOf(totalBytes));
  }

  /** Splits an endpoint name at its first ": ". */
  function SplitEndpointName(name: string): Option<(string, string)>
  {
    match IndexOf(name, ':')
    case None => None
    case Some(i) =>
      if i + 1 < |name| && name[i + 1] == ' ' then Some((name[..i], name[i + 2..])) else None
  }

  /**
   * The name a device advertises and requests connections under, "<brand>: <model>".
   * When the brand holds no colon, the name splits back into brand and model.
   */
  function EndpointName(brand: string, model: string): (name: string)
    ensures ':' !in brand ==> SplitEndpointName(name) == Some((brand, model))
  {
    var rest := ": " + model;
    if ':' in brand then brand + rest
    else
      IndexOfAfter(brand, rest, ':');
      assert (brand + rest)[..|brand|] == brand;
      assert (brand + rest)[|brand| + 2..] == model;
      brand + rest
  }

  /** Devices whose brands hold no colon advertise distinct names. */
  lemma EndpointNameInjective(brand1: string, model1: string, brand2: string, model2: string)
    requires ':' !in brand1 && ':' !in brand2
    requires EndpointName(brand1, model1) == EndpointName(brand2, model2)
    ensures brand1 == brand2 && model1 == model2
  {
  }
}
