/** Decimal text of integers, as the ledger and the chat log print and read their cursors and IDs.
    `Itoa` and `DecimalValue` are the mathematical reading; the methods are the digit-buffer code. */
module Decimal {

  datatype Option<+T> = None | Some(value: T)

  const TWO_TO_63: int := 0x8000_0000_0000_0000
  const TWO_TO_64: int := 0x1_0000_0000_0000_0000

  function DigitChar(d: nat): (c: char)
    requires d < 10
    ensures IsDigit(c) && DigitOf(c) == d
  {
    (d + 48) as char
  }

  predicate IsDigit(c: char) {
    '0' <= c <= '9'
  }

  function DigitOf(c: char): (d: nat)
    requires IsDigit(c)
  {
    c as int - 48
  }

  predicate AllDigits(s: string) {
    forall i :: 0 <= i < |s| ==> IsDigit(s[i])
  }

  function DecimalValue(s: string): (n: nat)
    requires AllDigits(s)
  {
    if s == [] then 0 else DecimalValue(s[..|s| - 1]) * 10 + DigitOf(s[|s| - 1])
  }

  /** The shortest decimal text of n. */
  function Itoa(n: nat): (s: string)
    ensures |s| > 0 && AllDigits(s)
  {
    if n < 10 then [DigitChar(n)] else Itoa(n / 10) + [DigitChar(n % 10)]
  }

  /** What the Go `itoa` returns on any int64. The least int64 has no negation, so its digits are lost. */
  function ItoaSigned(n: int): string {
    if n == -TWO_TO_63 then "-" else if n < 0 then "-" + Itoa(-n) else Itoa(n)
  }

  /** What the Go `parseUint` returns: the value modulo 2^64, or nothing on an empty or non-decimal text. */
  function ParseUint(s: string): Option<nat> {
    if s == [] || !AllDigits(s) then None else Some(DecimalValue(s) % TWO_TO_64)
  }

  lemma {:induction false} ItoaValue(n: nat)
    ensures DecimalValue(Itoa(n)) == n
  {
    if n < 10 {
      assert Itoa(n)[..0] == [];
    } else {
      ItoaValue(n / 10);
      assert Itoa(n)[..|Itoa(n)| - 1] == Itoa(n / 10);
    }
  }

  /** The text of an int64: digits of its value, after a sign if it is negative; of the least one, the sign alone. */
  lemma {:induction false} SignedText(n: int)
    ensures n >= 0 ==> AllDigits(ItoaSigned(n)) && DecimalValue(ItoaSigned(n)) == n
    ensures n < 0 && n != -0x8000_0000_0000_0000 ==>
              && |ItoaSigned(n)| > 1 && ItoaSigned(n)[0] == '-'
              && AllDigits(ItoaSigned(n)[1..]) && DecimalValue(ItoaSigned(n)[1..]) == -n
    ensures ItoaSigned(-0x8000_0000_0000_0000) == "-"
  {
    ItoaValue(if n < 0 then -n else n);
    if n < 0 && n != -TWO_TO_63 { assert ItoaSigned(n)[1..] == Itoa(-n); }
  }

  /** Reading back a printed number gives the number, as long as it fits 64 bits. */
  lemma ParseItoa(n: nat)
    ensures ParseUint(Itoa(n)) == Some(n % TWO_TO_64)
    ensures n < TWO_TO_64 ==> ParseUint(Itoa(n)) == Some(n)
  {
    ItoaValue(n);
  }

  lemma ItoaInjective(m: nat, n: nat)
    requires Itoa(m) == Itoa(n)
    ensures m == n
  {
    ItoaValue(m);
    ItoaValue(n);
  }

  function Pow10(k: nat): nat {
    if k == 0 then 1 else 10 * Pow10(k - 1)
  }

  lemma PowerOfNineteen()
    ensures Pow10(19) == 10_000_000_000_000_000_000
  {
    assert Pow10(5) == 100_000;
    assert Pow10(10) == 10_000_000_000;
    assert Pow10(15) == 1_000_000_000_000_000;
  }

  lemma {:induction false} ItoaLength(n: nat, k: nat)
    requires 1 <= k && n < Pow10(k)
    ensures |Itoa(n)| <= k
  {
    if n >= 10 {
      ItoaLength(n / 10, k - 1);
    }
  }

  lemma WrapStep(x: nat, d: nat)
    ensures (x % TWO_TO_64 * 10 + d) % TWO_TO_64 == (x * 10 + d) % TWO_TO_64
  {
    var q, r := x / TWO_TO_64, x % TWO_TO_64;
    assert x * 10 + d == (r * 10 + d) + (q * 10) * TWO_TO_64;
    ModPlusMultiple(r * 10 + d, q * 10);
  }

  lemma {:induction false} ModPlusMultiple(a: nat, k: nat)
    ensures (a + k * TWO_TO_64) % TWO_TO_64 == a % TWO_TO_64
  {
    if k > 0 {
      ModPlusMultiple(a, k - 1);
      assert (a + (k - 1) * TWO_TO_64 + TWO_TO_64) % TWO_TO_64 == (a + (k - 1) * TWO_TO_64) % TWO_TO_64;
    }
  }

  /** The digits of n still to be written. */
  function Unwritten(n: nat): string {
    if n == 0 then "" else Itoa(n)
  }

  lemma {:induction false} LastDigit(n: nat)
    requires n > 0
    ensures |Unwritten(n)| == |Unwritten(n / 10)| + 1
    ensures Unwritten(n) == Unwritten(n / 10) + [DigitChar(n % 10)]
  {
  }

  /** The digit-buffer loop: least digit first, from the end of the buffer. */
  method WriteDigits(value: nat, buf: array<char>) returns (i: nat)
    requires value < TWO_TO_63 && buf.Length == 20
    modifies buf
    ensures 1 <= i <= 20 && buf[i..] == Unwritten(value)
  {
    hide Itoa, Pow10, Unwritten;
    var n := value;
    i := buf.Length;
    ghost var whole := Unwritten(value);
    UnwrittenLength(value);
    while n > 0
      invariant |whole| <= 19 && i == 20 - (|whole| - |Unwritten(n)|) && |Unwritten(n)| <= |whole|
      invariant Unwritten(n) == whole[..|Unwritten(n)|]
      invariant forall j :: i <= j < 20 ==> buf[j] == whole[j - (20 - |whole|)]
    {
      LastDigit(n);
      ghost var rest := Unwritten(n / 10);
      assert whole[..|rest|] == rest && whole[|rest|] == DigitChar(n % 10);
      i := i - 1;
      buf[i] := DigitChar(n % 10);
      n := n / 10;
    }
    UnwrittenZero();
    assert buf[i..] == whole;
  }

  lemma {:induction false} UnwrittenLength(n: nat)
    requires n < TWO_TO_63
    ensures |Unwritten(n)| <= 19
  {
    hide Itoa, Pow10;
    PowerOfNineteen();
    ItoaLength(n, 19);
  }

  lemma {:induction false} UnwrittenZero()
    ensures Unwritten(0) == ""
  {
  }

  /** `itoaLedger`, and the chat module's `itoa`. */
  method FormatInt(value: int) returns (s: string)
    requires -TWO_TO_63 <= value < TWO_TO_63
    ensures s == ItoaSigned(value)
  {
    if value == 0 {
      return "0";
    }
    var n := value;
    var neg := n < 0;
    if neg {
      n := if n == -TWO_TO_63 then n else -n;  // two's complement: the least value is its own negation
    }
    var buf := new char[20];
    var i := WriteDigits(if n > 0 then n else 0, buf);
    ghost var digits := buf[i..];
    if neg {
      i := i - 1;
      buf[i] := '-';
      assert buf[i..] == "-" + digits;
    }
    s := buf[i..];
  }

  /** The character loop of `parseUintLedger` and of the chat module's `parseUint`, wrapping at 64 bits. */
  method ParseDecimal(s: string) returns (r: Option<nat>)
    ensures r == ParseUint(s)
  {
    if s == "" {
      return None;
    }
    var n: nat := 0;
    for i := 0 to |s|
      invariant AllDigits(s[..i])
      invariant n == DecimalValue(s[..i]) % TWO_TO_64
    {
      if s[i] < '0' || s[i] > '9' {
        return None;
      }
      assert s[..i + 1][..i] == s[..i];
      WrapStep(DecimalValue(s[..i]), DigitOf(s[i]));
      n := (n * 10 + DigitOf(s[i])) % TWO_TO_64;
    }
    assert s[..|s|] == s;
    r := Some(n);
  }
}
