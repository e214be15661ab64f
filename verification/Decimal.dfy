/** Decimal printing of 64-bit integers, and the identifiers built from it. */
module Decimal {

  const MIN_INT64: int := -0x8000_0000_0000_0000
  const MAX_INT64: int := 0x7FFF_FFFF_FFFF_FFFF
  const TWO_64: int := 0x1_0000_0000_0000_0000

  /** The value a 64-bit two's-complement register holds after computing `n`. */
  function Wrap64(n: int): (r: int)
    ensures MIN_INT64 <= r <= MAX_INT64
  {
    (n - MIN_INT64) % TWO_64 + MIN_INT64
  }

  lemma RemaindersAgree(x: int, y: int)
    ensures x % TWO_64 == y % TWO_64 <==> (x - y) % TWO_64 == 0
  {
    var p, q := x / TWO_64, y / TWO_64;
    var r, t := x % TWO_64, y % TWO_64;
    assert x - y == TWO_64 * (p - q) + (r - t);
  }

  /** Two numbers leave the same register value exactly when they differ by a multiple of 2^64. */
  lemma WrapCollides(m: int, n: int)
    ensures Wrap64(m) == Wrap64(n) <==> (m - n) % TWO_64 == 0
  {
    RemaindersAgree(m - MIN_INT64, n - MIN_INT64);
  }

  lemma WrapFixes(n: int)
    requires MIN_INT64 <= n <= MAX_INT64
    ensures Wrap64(n) == n
  {
  }

  function Pow10(n: nat): (p: nat)
    ensures p > 0
  {
    if n == 0 then 1 else 10 * Pow10(n - 1)
  }

  /** Decimal digits of `n`, most significant first; nothing at all for zero. */
  function Digits(n: nat): string {
    if n == 0 then "" else Digits(n / 10) + [DigitChar(n % 10)]
  }

  function DigitChar(d: nat): char
    requires d < 10
  {
    '0' + d as char
  }

  function DigitValue(c: char): nat {
    if '0' <= c <= '9' then (c - '0') as nat else 0
  }

  /** What itoa prints. The least 64-bit integer has no positive counterpart, so only its sign is printed. */
  function Printed(v: int): string {
    if v == 0 then "0"
    else if v == MIN_INT64 then "-"
    else if v < 0 then "-" + Digits(-v)
    else Digits(v)
  }

  /** The printer: it fills a 20-byte buffer from the right. */
  method Itoa(v: int) returns (s: string)
    requires MIN_INT64 <= v <= MAX_INT64
    ensures s == Printed(v)
  {
    if v == 0 {
      return "0";
    }
    var neg := v < 0;
    var n := if neg then Wrap64(-v) else v;
    PrintedParts(v, n);
    var buf := new char[20];
    var i := FillDigits(n, buf);
    if neg {
      ghost var digits := buf[i..];
      i := i - 1;
      buf[i] := '-';
      assert buf[i..] == "-" + digits;
    }
    s := buf[i..];
  }

  /** The digit loop of the printer; the first cell stays free for a sign. */
  method FillDigits(v: int, buf: array<char>) returns (i: int)
    requires buf.Length == 20 && v <= MAX_INT64
    modifies buf
    ensures 1 <= i <= 20 && buf[i..] == DigitsAbove(v)
  {
    var n := v;
    i := buf.Length;
    ghost var whole := DigitsAbove(n);
    AtMostNineteen(n);
    ghost var end := buf.Length - |whole|;
    while n > 0
      invariant end <= i <= buf.Length && DigitsAbove(n) == whole[..i - end]
      invariant forall j :: i <= j < buf.Length ==> buf[j] == whole[j - end]
    {
      LastDigit(n);
      assert whole[i - end - 1] == whole[..i - end][i - end - 1];
      i := i - 1;
      buf[i] := DigitChar(n % 10);
      n := n / 10;
      assert DigitsAbove(n) == whole[..i + 1 - end][..i - end];
    }
  }

  ghost function DigitsAbove(n: int): string {
    if n > 0 then Digits(n) else ""
  }

  lemma LastDigit(n: int)
    requires n > 0
    ensures DigitsAbove(n) == DigitsAbove(n / 10) + [DigitChar(n % 10)]
  {
  }

  lemma {:induction false} DigitCount(n: nat, k: nat)
    requires n < Pow10(k)
    ensures |Digits(n)| <= k
  {
    if n > 0 {
      DigitCount(n / 10, k - 1);
    }
  }

  /** The buffer has room for every 64-bit magnitude and a sign. */
  lemma AtMostNineteen(n: int)
    requires n <= MAX_INT64
    ensures |DigitsAbove(n)| <= 19
  {
    assert Pow10(5) == 100_000;
    assert Pow10(10) == 10_000_000_000;
    assert Pow10(15) == 1_000_000_000_000_000;
    assert Pow10(19) == 10_000_000_000_000_000_000;
    if n > 0 {
      DigitCount(n, 19);
    }
  }

  /** Negating the least number wraps back to it, so no digits are left to print. */
  lemma PrintedParts(v: int, n: int)
    requires MIN_INT64 <= v <= MAX_INT64 && v != 0
    requires n == if v < 0 then Wrap64(-v) else v
    ensures n <= MAX_INT64
    ensures Printed(v) == (if v < 0 then "-" else "") + DigitsAbove(n)
  {
    if v == MIN_INT64 {
      assert (-v - MIN_INT64) % TWO_64 == 0;
    } else if v < 0 {
      WrapFixes(-v);
    }
  }

  // Reading a number back.

  function ParseDigits(s: string): nat {
    if s == "" then 0 else 10 * ParseDigits(s[..|s| - 1]) + DigitValue(s[|s| - 1])
  }

  function ParseInt(s: string): int {
    if s != "" && s[0] == '-' then -(ParseDigits(s[1..]) as int) else ParseDigits(s)
  }

  predicate IsDigit(c: char) {
    '0' <= c <= '9'
  }

  lemma {:induction false} DigitsParse(n: nat)
    ensures ParseDigits(Digits(n)) == n
    ensures forall i :: 0 <= i < |Digits(n)| ==> IsDigit(Digits(n)[i])
    ensures n > 0 ==> Digits(n) != "" && Digits(n)[0] != '0'
  {
    if n > 0 {
      DigitsParse(n / 10);
      var s := Digits(n);
      assert s[..|s| - 1] == Digits(n / 10);
    }
  }

  /** Printing then parsing returns the number, except for the one number whose digits are lost. */
  lemma PrintParse(v: int)
    requires MIN_INT64 <= v <= MAX_INT64
    ensures ParseInt(Printed(v)) == v <==> v != MIN_INT64
    ensures Printed(v) != ""
    ensures v != 0 ==> Printed(v)[0] != '0'
    ensures v < 0 && v != MIN_INT64 ==> |Printed(v)| > 1 && Printed(v)[0] == '-' && Printed(v)[1] != '0'
    ensures v >= 0 ==> Printed(v)[0] != '-'
    ensures forall c :: c in Printed(v) ==> IsDigit(c) || c == '-'
  {
    if v > 0 {
      DigitsParse(v);
    } else if v == MIN_INT64 {
      assert Printed(v)[1..] == "";
    } else if v < 0 {
      DigitsParse(-v);
      assert Printed(v)[1..] == Digits(-v);
    }
  }

  /** Distinct numbers print differently, the misprinted one included. */
  lemma PrintedInjective(v: int, w: int)
    requires MIN_INT64 <= v <= MAX_INT64 && MIN_INT64 <= w <= MAX_INT64
    requires Printed(v) == Printed(w)
    ensures v == w
  {
    PrintParse(v);
    PrintParse(w);
  }

  function FormatID(n: int): string {
    "t-" + Printed(n)
  }

  /** The id given to the k-th task: the counter is a wrapping 64-bit register. */
  function TaskID(k: nat): (id: string)
    ensures id != ""
  {
    FormatID(Wrap64(k))
  }

  /** The id generated for a push configuration at the k-th call. */
  function PushID(k: nat): (id: string)
    ensures id != ""
  {
    "pc-" + Printed(Wrap64(k))
  }

  /** Two issued ids coincide exactly when their call numbers are a multiple of 2^64 apart. */
  lemma IssuedIdsCollide(j: nat, k: nat)
    ensures TaskID(j) == TaskID(k) <==> (j - k) % TWO_64 == 0
    ensures PushID(j) == PushID(k) <==> (j - k) % TWO_64 == 0
  {
    var a, b := Wrap64(j), Wrap64(k);
    WrapCollides(j, k);
    if TaskID(j) == TaskID(k) {
      assert Printed(a) == TaskID(j)[2..] == TaskID(k)[2..] == Printed(b);
      PrintedInjective(a, b);
    }
    if PushID(j) == PushID(k) {
      assert Printed(a) == PushID(j)[3..] == PushID(k)[3..] == Printed(b);
      PrintedInjective(a, b);
    }
  }

  /** All ids issued by the first n calls. */
  function Issued(n: nat): set<string> {
    if n == 0 then {} else Issued(n - 1) + {TaskID(n)}
  }

  lemma NearbyIdsDiffer(j: nat, k: nat)
    requires 0 < k - j < TWO_64
    ensures TaskID(j) != TaskID(k) && PushID(j) != PushID(k)
  {
    IssuedIdsCollide(k, j);
  }

  /** Within 2^64 calls of each other, a later id is not among the earlier ones. */
  lemma {:induction false} LaterIdIsNew(n: nat, k: nat)
    requires n < k <= TWO_64
    ensures TaskID(k) !in Issued(n)
  {
    if n > 0 {
      LaterIdIsNew(n - 1, k);
      NearbyIdsDiffer(n, k);
    }
  }

  /** The ids number exactly the tasks until 2^64 of them exist. */
  lemma {:induction false} IssuedCount(n: nat)
    requires n <= TWO_64
    ensures |Issued(n)| == n
  {
    if n > 0 {
      LaterIdIsNew(n - 1, n);
      IssuedCount(n - 1);
    }
  }

  lemma {:induction false} IssuedMembers(n: nat, id: string)
    ensures id in Issued(n) <==> exists k: nat :: 1 <= k <= n && id == TaskID(k)
  {
    if n > 0 {
      IssuedMembers(n - 1, id);
    }
  }

  lemma TaskIdShape(k: nat)
    ensures TaskID(k) != ""
    ensures forall c :: c in TaskID(k) ==> IsDigit(c) || c == '-' || c == 't'
  {
    PrintParse(Wrap64(k));
  }

  /** Up to the largest counter value, the number of a task or configuration is read off its id. */
  lemma IdsTellTheirNumber(k: nat)
    requires k <= MAX_INT64
    ensures |TaskID(k)| > 2 && TaskID(k)[..2] == "t-" && ParseInt(TaskID(k)[2..]) == k
    ensures |PushID(k)| > 3 && PushID(k)[..3] == "pc-" && ParseInt(PushID(k)[3..]) == k
  {
    WrapFixes(k);
    PrintParse(k);
    assert TaskID(k)[2..] == Printed(k) && PushID(k)[3..] == Printed(k);
  }
}
