/** Byte strings, the width of `uint64_t`, and decimal numerals.
    A byte is modelled as a `char`: the server only ever compares bytes with
    a newline, a space, a slash, NUL and the ten digits. */
module Bytes {

  const U64_MAX: nat := 0xFFFF_FFFF_FFFF_FFFF

  predicate IsDigit(c: char) {
    '0' <= c <= '9'
  }

  predicate AllDigits(s: string) {
    forall i :: 0 <= i < |s| ==> IsDigit(s[i])
  }

  lemma DigitsHaveNo(s: string, c: char)
    requires AllDigits(s) && !IsDigit(c)
    ensures c !in s
  {
  }

  function DigitValue(c: char): nat
    requires IsDigit(c)
  {
    c as int - '0' as int
  }

  function DigitChar(d: nat): (c: char)
    requires d < 10
    ensures IsDigit(c) && DigitValue(c) == d
  {
    (d + '0' as int) as char
  }

  /** `std::to_string` of an unsigned number. */
  function Dec(n: nat): (s: string)
    ensures s != "" && AllDigits(s)
  {
    if n < 10 then [DigitChar(n)] else Dec(n / 10) + [DigitChar(n % 10)]
  }

  function Pow10(k: nat): nat {
    if k == 0 then 1 else 10 * Pow10(k - 1)
  }

  lemma {:induction false} DecLength(n: nat, k: nat)
    requires k > 0 && n < Pow10(k)
    ensures |Dec(n)| <= k
  {
    if n >= 10 {
      DecLength(n / 10, k - 1);
    }
  }

  /** The number a digit string denotes, with no bound on its size. */
  function Val(s: string): nat
    requires AllDigits(s)
  {
    if s == "" then 0 else 10 * Val(s[..|s| - 1]) + DigitValue(s[|s| - 1])
  }

  lemma {:induction false} ValDec(n: nat)
    ensures Val(Dec(n)) == n
  {
    if n >= 10 {
      ValDec(n / 10);
      assert Dec(n)[..|Dec(n)| - 1] == Dec(n / 10);
    }
  }

  /** A printed number has no leading zero. */
  lemma {:induction false} DecCanonical(n: nat)
    ensures n > 0 ==> Dec(n)[0] != '0'
  {
    if n >= 10 {
      DecCanonical(n / 10);
      assert Dec(n)[0] == Dec(n / 10)[0];
    }
  }

  lemma ValLast(s: string, c: char)
    requires AllDigits(s) && IsDigit(c)
    ensures AllDigits(s + [c]) && Val(s + [c]) == 10 * Val(s) + DigitValue(c)
  {
    assert (s + [c])[..|s|] == s;
  }

  lemma PowStep(k: nat)
    ensures Pow10(0) == 1 && Pow10(k + 1) == 10 * Pow10(k)
  {
  }

  lemma Carry(v: nat, p: nat, w: nat, d: nat)
    ensures 10 * (v * p + w) + d == v * (10 * p) + (10 * w + d)
  {
  }

  /** Digits count by position. */
  lemma {:induction false} ValAppend(a: string, b: string)
    requires AllDigits(a) && AllDigits(b)
    ensures AllDigits(a + b) && Val(a + b) == Val(a) * Pow10(|b|) + Val(b)
    decreases |b|, 0
  {
    if b == "" {
      assert a + b == a;
    } else {
      ValAppendStep(a, b[..|b| - 1], b[|b| - 1]);
      assert b == b[..|b| - 1] + [b[|b| - 1]];
      assert a + b == a + b[..|b| - 1] + [b[|b| - 1]];
    }
  }

  lemma {:induction false} ValAppendStep(a: string, init: string, c: char)
    requires AllDigits(a) && AllDigits(init) && IsDigit(c)
    ensures AllDigits(a + init + [c]) && AllDigits(init + [c])
    ensures Val(a + init + [c]) == Val(a) * Pow10(|init + [c]|) + Val(init + [c])
    decreases |init|, 1
  {
    hide *;
    ValAppend(a, init);
    ValLast(a + init, c);
    ValLast(init, c);
    PowStep(|init|);
    Carry(Val(a), Pow10(|init|), Val(init), DigitValue(c));
  }

  lemma DecInjective(m: nat, n: nat)
    requires Dec(m) == Dec(n)
    ensures m == n
  {
    ValDec(m);
    ValDec(n);
  }

  lemma {:induction false} LeadingZero(s: string)
    requires AllDigits(s)
    ensures AllDigits("0" + s) && Val("0" + s) == Val(s)
  {
    if s != "" {
      var init := s[..|s| - 1];
      LeadingZero(init);
      assert ("0" + s)[..|s|] == "0" + init;
    }
  }

  /** A stream put back together from the pieces it arrived in. */
  function Concat(chunks: seq<string>): string {
    if chunks == [] then "" else chunks[0] + Concat(chunks[1..])
  }

  lemma {:induction false} ConcatAppend(chunks: seq<string>, c: string)
    ensures Concat(chunks + [c]) == Concat(chunks) + c
  {
    if chunks == [] {
      assert chunks + [c] == [c];
      assert Concat([c][1..]) == "";
    } else {
      ConcatAppend(chunks[1..], c);
      assert (chunks + [c])[1..] == chunks[1..] + [c];
      assert Concat(chunks + [c]) == chunks[0] + (Concat(chunks[1..]) + c);
    }
  }

  function Sum(s: seq<nat>): nat {
    if s == [] then 0 else Sum(s[..|s| - 1]) + s[|s| - 1]
  }

  lemma SumAppend(s: seq<nat>, n: nat)
    ensures Sum(s + [n]) == Sum(s) + n
  {
    assert (s + [n])[..|s|] == s;
  }

  function Max(a: nat, b: nat): nat {
    if a < b then b else a
  }

  function Min(a: nat, b: nat): nat {
    if a < b then a else b
  }

  /** The least number of pieces of at most `q` bytes that `n` bytes need. */
  function CeilDiv(n: nat, q: nat): nat
    requires q > 0
  {
    (n + q - 1) / q
  }

  /** `CeilDiv` is the one count that covers `n` while one piece fewer does not. */
  lemma CeilDivUnique(n: nat, q: nat, k: nat)
    requires q > 0 && n > 0 && k > 0
    requires (k - 1) * q < n <= k * q
    ensures CeilDiv(n, q) == k
  {
    var a := n + q - 1;
    var r := a - k * q;
    assert k * q == (k - 1) * q + q;
    assert 0 <= r < q;
    DivUnique(a, q, k, r);
  }

  lemma DivUnique(a: int, q: int, k: int, r: int)
    requires q > 0 && a == k * q + r && 0 <= r < q
    ensures a / q == k
  {
    var d := a / q - k;
    assert a == q * (a / q) + a % q;
    assert q * (a / q) == q * d + q * k;
    assert q * d == r - a % q;
    MulGrows(q, d);
  }

  lemma MulGrows(q: int, d: int)
    requires q > 0
    ensures d >= 1 ==> q * d >= q
    ensures d <= -1 ==> q * d <= -q
  {
  }

  lemma DivAtLeast(n: nat, q: nat, m: nat)
    requires q > 0 && m * q <= n
    ensures m <= n / q
  {
    var d := n / q + 1 - m;
    assert n == q * (n / q) + n % q;
    assert q * d == q * (n / q) + q - q * m;
    MulGrows(q, d - 1);
    assert q * (d - 1) == q * d - q;
  }

  /** `k` times `q`, as the sum a run of `k` rounds adds up. */
  function Times(k: nat, q: nat): nat {
    if k == 0 then 0 else Times(k - 1, q) + q
  }

  lemma {:induction false} TimesIsProduct(k: nat, q: nat)
    ensures Times(k, q) == k * q
  {
    if k > 0 {
      TimesIsProduct(k - 1, q);
      assert k * q == (k - 1) * q + q;
    }
  }

  lemma {:induction false} TimesAdd(m: nat, n: nat, q: nat)
    ensures Times(m + n, q) == Times(m, q) + Times(n, q)
  {
    if n > 0 {
      TimesAdd(m, n - 1, q);
    }
  }
}
