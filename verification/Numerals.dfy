/** Numbers written in base 10 or 16, and reading them back. */
module Numerals {

  function DigitChar(d: nat): char
    requires d < 16
  {
    if d < 10 then '0' + d as char else 'a' + (d - 10) as char
  }

  /** The value of a digit of either case, or 16 for any other character. */
  function DigitValue(c: char): nat {
    if '0' <= c <= '9' then (c - '0') as nat
    else if 'a' <= c <= 'f' then (c - 'a') as nat + 10
    else if 'A' <= c <= 'F' then (c - 'A') as nat + 10
    else 16
  }

  predicate IsNumeral(s: string, base: nat) {
    s != [] && forall i :: 0 <= i < |s| ==> DigitValue(s[i]) < base
  }

  predicate IsBase(base: nat) { base == 10 || base == 16 }

  lemma DivMod(n: nat, base: nat)
    requires IsBase(base)
    ensures (n / base) * base + n % base == n && 0 <= n % base < base
    ensures n >= base ==> n / base < n
  {
    if base == 10 { assert n / 10 * 10 + n % 10 == n; } else { assert n / 16 * 16 + n % 16 == n; }
  }

  /** `n.toString(base)`. */
  function NumText(n: nat, base: nat): (s: string)
    requires IsBase(base)
    ensures IsNumeral(s, base)
  {
    DivMod(n, base);
    if n < base then [DigitChar(n)] else NumText(n / base, base) + [DigitChar(n % base)]
  }

  function NumValue(s: string, base: nat): nat {
    if s == [] then 0 else NumValue(s[..|s| - 1], base) * base + DigitValue(s[|s| - 1])
  }

  lemma ValuePush(s: string, c: char, base: nat)
    ensures NumValue(s + [c], base) == NumValue(s, base) * base + DigitValue(c)
  {
    assert (s + [c])[..|s|] == s;
  }

  lemma DigitRoundTrip(d: nat)
    requires d < 16
    ensures DigitValue(DigitChar(d)) == d
  {}

  lemma {:induction false} ValueOfText(n: nat, base: nat)
    requires IsBase(base)
    ensures NumValue(NumText(n, base), base) == n
  {
    DivMod(n, base);
    var d, q := n % base, n / base;
    if n >= base {
      ValueOfText(q, base);
      var front := NumText(q, base);
      assert NumText(n, base) == front + [DigitChar(d)];
      ValuePush(front, DigitChar(d), base);
      DigitRoundTrip(d);
      assert NumValue(front, base) * base == q * base;
    } else {
      DigitRoundTrip(n);
      ValuePush([], DigitChar(n), base);
      assert [] + [DigitChar(n)] == [DigitChar(n)];
    }
  }

  function LowerChar(c: char): char { if 'A' <= c <= 'Z' then c - 'A' + 'a' else c }

  /** `toLowerCase` on ASCII. */
  function Lower(s: string): string {
    seq(|s|, i requires 0 <= i < |s| => LowerChar(s[i]))
  }

  /** Upper-case digits count the same. */
  lemma {:induction false} ValueIgnoresCase(s: string, base: nat)
    ensures NumValue(Lower(s), base) == NumValue(s, base)
    ensures IsNumeral(s, base) && base <= 16 ==> IsNumeral(Lower(s), base)
  {
    if s != [] {
      assert Lower(s)[..|s| - 1] == Lower(s[..|s| - 1]);
      ValueIgnoresCase(s[..|s| - 1], base);
    }
  }

  lemma LowerConcat(a: string, b: string)
    ensures Lower(a + b) == Lower(a) + Lower(b)
  {}
}
