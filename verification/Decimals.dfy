/** Decimal numbers as texts. */
module Decimals {
  import opened Sorting

  /** No leading zeros. */
  function Digits(n: nat): string { if n < 10 then ["0123456789"[n]] else Digits(n / 10) + ["0123456789"[n % 10]] }

  lemma {:induction false} DigitsStart(n: nat)
    ensures Digits(n) != [] && Digits(n)[0] in "0123456789"
  {
    if n >= 10 {
      DigitsStart(n / 10);
    }
  }

  predicate IsDigit(c: char) { '0' <= c <= '9' }

  lemma {:induction false} DigitsAreDigits(n: nat)
    ensures forall c | c in Digits(n) :: IsDigit(c)
  {
    if n >= 10 {
      DigitsAreDigits(n / 10);
    }
  }

  /** Bytes of the character in UTF-8. */
  function Width(c: char): nat {
    if c as int < 0x80 then 1 else if c as int < 0x800 then 2 else if c as int < 0x1_0000 then 3 else 4
  }

  /** `len`: the bytes of a text. */
  function Bytes(s: string): nat { if s == [] then 0 else Width(s[0]) + Bytes(s[1..]) }

  /** Texts of fewer bytes first, texts of as many bytes by their first difference. */
  predicate ByLength(s: string, t: string) { Bytes(s) < Bytes(t) || (Bytes(s) == Bytes(t) && Lex(s, t)) }

  lemma ByLengthIsOrder()
    ensures Total(ByLength) && Transitive(ByLength) && Antisymmetric(ByLength)
  {
    forall s, t ensures (ByLength(s, t) || ByLength(t, s)) && (ByLength(s, t) && ByLength(t, s) ==> s == t) {
      LexTotal(s, t);
    }
    forall s, t, u | ByLength(s, t) && ByLength(t, u) ensures ByLength(s, u) {
      if Bytes(s) == Bytes(t) == Bytes(u) {
        LexTransitive(s, t, u);
      }
    }
  }

  lemma {:induction false} BytesAdd(s: string, t: string)
    ensures Bytes(s + t) == Bytes(s) + Bytes(t)
  {
    if s == [] {
      assert s + t == t;
    } else {
      BytesAdd(s[1..], t);
      assert (s + t)[1..] == s[1..] + t;
    }
  }

  lemma {:induction false} DigitBytes(n: nat)
    ensures Bytes(Digits(n)) == |Digits(n)|
  {
    if n >= 10 {
      DigitBytes(n / 10);
      BytesAdd(Digits(n / 10), [Digit(n % 10)]);
    }
  }

  lemma {:induction false} LexBehind(p: string, s: string, t: string)
    ensures Lex(p + s, p + t) <==> Lex(s, t)
  {
    if p == [] {
      assert p + s == s && p + t == t;
    } else {
      LexBehind(p[1..], s, t);
      assert (p + s)[1..] == p[1..] + s && (p + t)[1..] == p[1..] + t;
    }
  }

  /** What follows a difference does not matter. */
  lemma {:induction false} LexBefore(p: string, q: string, s: string, t: string)
    requires |p| == |q| && p != q && Lex(p, q)
    ensures Lex(p + s, q + t)
  {
    assert (p + s)[1..] == p[1..] + s && (q + t)[1..] == q[1..] + t;
    if p[0] == q[0] {
      assert p == [p[0]] + p[1..] && q == [q[0]] + q[1..];
      LexBefore(p[1..], q[1..], s, t);
    }
  }

  /** Different, the first not longer, and in order before the suffix. */
  predicate InOrder(p: string, q: string, suffix: string) {
    p != q && |p| <= |q| && (|p| < |q| || Lex(p + suffix, q + suffix))
  }

  function Digit(n: nat): char
    requires n < 10
  {
    "0123456789"[n]
  }

  lemma Appended(n: nat)
    requires n >= 10
    ensures Digits(n) == Digits(n / 10) + [Digit(n % 10)]
  {
  }

  lemma OneDigit(m: nat, n: nat, suffix: string)
    requires m < n < 10
    ensures Lex([Digit(m)] + suffix, [Digit(n)] + suffix) && Digit(m) != Digit(n)
  {
  }

  /** Numbers that differ in their last digit only. */
  lemma LastDigit(p: string, m: nat, n: nat, suffix: string)
    requires m < n < 10
    ensures InOrder(p + [Digit(m)], p + [Digit(n)], suffix)
  {
    OneDigit(m, n, suffix);
    LexBehind(p, [Digit(m)] + suffix, [Digit(n)] + suffix);
    assert p + [Digit(m)] + suffix == p + ([Digit(m)] + suffix) && p + [Digit(n)] + suffix == p + ([Digit(n)] + suffix);
    assert (p + [Digit(m)])[|p|] != (p + [Digit(n)])[|p|];
    hide Lex, Digit;
  }

  /** Numbers that differ before their last digits. */
  lemma EarlierDigits(p: string, q: string, c: char, d: char, suffix: string)
    requires InOrder(p, q, "")
    ensures InOrder(p + [c], q + [d], suffix)
  {
    assert p + "" == p && q + "" == q;
    assert p + [c] + suffix == p + ([c] + suffix) && q + [d] + suffix == q + ([d] + suffix);
    assert (p + [c])[..|p|] == p && (q + [d])[..|q|] == q;
    if |p| == |q| {
      LexBefore(p, q, [c] + suffix, [d] + suffix);
    }
    hide Lex;
  }

  lemma {:induction false} DigitsInOrder(m: nat, n: nat, suffix: string)
    requires m < n
    ensures InOrder(Digits(m), Digits(n), suffix)
  {
    if n < 10 {
      LastDigit("", m, n, suffix);
      assert "" + [Digit(m)] == Digits(m) && "" + [Digit(n)] == Digits(n);
    } else if m < 10 {
      DigitsStart(n / 10);
      Appended(n);
      assert Digits(m) == [Digit(m)];
    } else {
      Appended(m);
      Appended(n);
      if m / 10 == n / 10 {
        LastDigit(Digits(m / 10), m % 10, n % 10, suffix);
      } else {
        DigitsInOrder(m / 10, n / 10, "");
        EarlierDigits(Digits(m / 10), Digits(n / 10), Digit(m % 10), Digit(n % 10), suffix);
      }
    }
    hide Lex;
  }

  /** Fewer bytes first, then by first difference: on numbers that is their order, however long they are. */
  lemma NumericOrder(m: nat, n: nat, suffix: string)
    requires m < n
    ensures ByLength(Digits(m) + suffix, Digits(n) + suffix) && Digits(m) != Digits(n)
  {
    DigitsInOrder(m, n, suffix);
    DigitBytes(m);
    DigitBytes(n);
    BytesAdd(Digits(m), suffix);
    BytesAdd(Digits(n), suffix);
    hide Lex;
  }
}
