/**
  Decimal identifiers and length-prefixed encodings: different inputs never collide.
 */
module Decimal {
  function Digit(d: nat): char
    requires d < 10
  {
    '0' + d as char
  }

  function Digits(n: nat): (s: string)
    ensures |s| > 0 && forall c :: c in s ==> '0' <= c <= '9'
  {
    if n < 10 then [Digit(n)] else Digits(n / 10) + [Digit(n % 10)]
  }

  /** The number a string of digits stands for. */
  function Value(s: string): int {
    if s == [] then 0 else 10 * Value(s[..|s| - 1]) + (s[|s| - 1] as int - '0' as int)
  }

  lemma {:induction false} ValueOfDigits(n: nat)
    ensures Value(Digits(n)) == n
  {
    if n >= 10 {
      ValueOfDigits(n / 10);
      assert Digits(n)[..|Digits(n)| - 1] == Digits(n / 10);
    } else {
      assert Digits(n)[..0] == [];
    }
  }

  lemma DigitsInjective(a: nat, b: nat)
    ensures Digits(a) == Digits(b) <==> a == b
  {
    ValueOfDigits(a);
    ValueOfDigits(b);
  }

  function Pow10(n: nat): nat { if n == 0 then 1 else 10 * Pow10(n - 1) }

  /** Formats a 64-bit number from the right of a 20-byte buffer, which never overflows. */
  method FormatUint(value: nat) returns (s: string)
    requires value < 0x1_0000_0000_0000_0000
    ensures s == Digits(value)
  {
    if value == 0 {
      return "0";
    }
    var buf := new char[20];
    var i := 20;
    var rest: nat := value;
    assert Pow10(20) == 100_000_000_000_000_000_000 by { PowerOfTwenty(); }
    while rest > 0
      invariant 0 <= i <= 20 && rest < Pow10(i)
      invariant Digits(value) == Leading(rest) + buf[i..]
      decreases rest
    {
      LeadingStep(rest);
      ghost var tail := buf[i..];
      i := i - 1;
      buf[i] := Digit(rest % 10);
      assert buf[i..] == [Digit(rest % 10)] + tail;
      assert Leading(rest / 10) + buf[i..] == Leading(rest / 10) + [Digit(rest % 10)] + tail;
      rest := rest / 10;
    }
    return buf[i..];
  }

  /** The digits still to be written; none once the number is used up. */
  function Leading(rest: nat): string { if rest == 0 then [] else Digits(rest) }

  lemma LeadingStep(rest: nat)
    requires rest > 0
    ensures Leading(rest) == Leading(rest / 10) + [Digit(rest % 10)]
  {
  }

  lemma PowerOfTwenty()
    ensures Pow10(20) == 100_000_000_000_000_000_000
  {
    assert Pow10(5) == 100_000;
    assert Pow10(10) == 10_000_000_000;
    assert Pow10(15) == 1_000_000_000_000_000;
  }

  // ----------------------------------------------------- length-prefixed encoding

  /** What the cache key of a request is hashed from: each field after its length. */
  function Preimage(fields: seq<string>): string {
    if fields == [] then [] else Digits(|fields[0]|) + ":" + fields[0] + Preimage(fields[1..])
  }

  lemma FirstColon(d: string, x: string, e: string, y: string)
    requires ':' !in d && ':' !in e
    requires d + ":" + x == e + ":" + y
    ensures d == e && x == y
  {
    var s := d + ":" + x;
    assert s[|d|] == ':' && s[|e|] == ':';
    assert forall i :: 0 <= i < |d| ==> s[i] == d[i] && d[i] in d;
    assert forall i :: 0 <= i < |e| ==> s[i] == e[i] && e[i] in e;
    assert d == s[..|d|] && e == s[..|e|];
    assert x == s[|d| + 1..] && y == s[|e| + 1..];
  }

  /** Two requests with one preimage are the same request, field by field. */
  lemma {:induction false} PreimageInjective(a: seq<string>, b: seq<string>)
    requires Preimage(a) == Preimage(b)
    ensures a == b
  {
    if a == [] || b == [] {
      assert a == [] && b == [];
    } else {
      var d, e := Digits(|a[0]|), Digits(|b[0]|);
      var x, y := a[0] + Preimage(a[1..]), b[0] + Preimage(b[1..]);
      assert Preimage(a) == d + ":" + x && Preimage(b) == e + ":" + y;
      FirstColon(d, x, e, y);
      DigitsInjective(|a[0]|, |b[0]|);
      assert a[0] == x[..|a[0]|] && b[0] == y[..|b[0]|];
      assert Preimage(a[1..]) == x[|a[0]|..] && Preimage(b[1..]) == y[|b[0]|..];
      PreimageInjective(a[1..], b[1..]);
      assert a == [a[0]] + a[1..] && b == [b[0]] + b[1..];
    }
  }
}
