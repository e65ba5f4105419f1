/**
 Stored passwords before and after the migration. A legacy record is 96 hexadecimal digits: a salt of 16 bytes and the
 digest of salt and password. The migration wraps that digest once more; the login checks wrapped records only.
 */
module LegacyPasswords {
  import opened Decimals
  import opened Values

  type Byte = b: int | 0 <= b < 256

  /** SHA-256 of a salt and a password, and PBKDF2 of a digest with a salt and a number of iterations. */
  datatype Crypto = Crypto(sha: (seq<Byte>, string) -> seq<Byte>, derive: (seq<Byte>, seq<Byte>, nat) -> seq<Byte>)

  /** Both give 32 bytes. */
  ghost predicate Sized(c: Crypto) {
    && (forall salt, password :: |c.sha(salt, password)| == 32)
    && forall digest, salt, n :: |c.derive(digest, salt, n)| == 32
  }

  // ---------------------------------------------------------------- hexadecimal

  function HexDigit(n: nat): char
    requires n < 16
  {
    "0123456789abcdef"[n]
  }

  function Nibble(c: char): (n: Option<nat>)
    ensures n.Some? ==> n.value < 16
  {
    if '0' <= c <= '9' then Some(c as int - '0' as int)
    else if 'a' <= c <= 'f' then Some(c as int - 'a' as int + 10)
    else if 'A' <= c <= 'F' then Some(c as int - 'A' as int + 10)
    else None
  }

  function Hex(bytes: seq<Byte>): (s: string)
    ensures |s| == 2 * |bytes| && forall c | c in s :: Nibble(c).Some?
  {
    if bytes == [] then [] else [HexDigit(bytes[0] / 16), HexDigit(bytes[0] % 16)] + Hex(bytes[1..])
  }

  function Unhex(s: string): (bytes: Option<seq<Byte>>)
    ensures bytes.Some? ==> 2 * |bytes.value| == |s|
    ensures bytes.Some? <==> |s| % 2 == 0 && forall c | c in s :: Nibble(c).Some?
  {
    if s == [] then Some([])
    else if |s| == 1 then None
    else
      assert s == [s[0], s[1]] + s[2..];
      var high, low, rest := Nibble(s[0]), Nibble(s[1]), Unhex(s[2..]);
      if high.Some? && low.Some? && rest.Some? then Some([16 * high.value + low.value] + rest.value) else None
  }

  lemma {:induction false} UnhexHex(bytes: seq<Byte>)
    ensures Unhex(Hex(bytes)) == Some(bytes)
  {
    hide HexDigit, Nibble;
    if bytes != [] {
      UnhexHex(bytes[1..]);
      var s := Hex(bytes);
      assert s[2..] == Hex(bytes[1..]);
      NibbleOfDigit(bytes[0] / 16);
      NibbleOfDigit(bytes[0] % 16);
      assert bytes == [bytes[0]] + bytes[1..];
    }
  }

  lemma NibbleOfDigit(n: nat)
    requires n < 16
    ensures Nibble(HexDigit(n)) == Some(n)
  {
  }

  // ---------------------------------------------------------------- records

  const PREFIX: string := "pbkdf2_sha256_legacy"
  const MAX_ITERATIONS: nat := 10_000_000

  /** 96 hexadecimal digits of either case. */
  predicate Legacy(stored: string) { |stored| == 96 && forall c | c in stored :: Nibble(c).Some? }

  /** `str::split('$')`. */
  function Split(s: string): (parts: seq<string>)
    ensures parts != []
  {
    if s == [] then [""]
    else if s[0] == '$' then [""] + Split(s[1..])
    else
      var parts := Split(s[1..]);
      [[s[0]] + parts[0]] + parts[1..]
  }

  function NumberOf(s: string): nat
    requires forall c | c in s :: IsDigit(c)
  {
    if s == [] then 0
    else
      assert IsDigit(s[|s| - 1]);
      10 * NumberOf(s[..|s| - 1]) + (s[|s| - 1] as int - '0' as int)
  }

  predicate AllDigits(s: string) { s != [] && forall c | c in s :: IsDigit(c) }

  /** `str::parse::<u32>`, which allows a leading plus sign. */
  function ParseU32(s: string): Option<nat> {
    var digits := if s != [] && s[0] == '+' then s[1..] else s;
    if AllDigits(digits) && NumberOf(digits) < 0x1_0000_0000 then Some(NumberOf(digits)) else None
  }

  /** The pattern of wrapped records, and the bounds on the number of iterations. */
  predicate Wrapped(stored: string) {
    var parts := Split(stored);
    && |parts| == 6 && parts[0] == PREFIX && parts[1] == "v1"
    && AllDigits(parts[2]) && 1 <= NumberOf(parts[2]) <= MAX_ITERATIONS
    && HexOf(parts[3], 32) && HexOf(parts[4], 32) && HexOf(parts[5], 64)
  }

  predicate HexOf(s: string, n: nat) { |s| == n && forall c | c in s :: Nibble(c).Some? }

  function Join(parts: seq<string>): string
    requires parts != []
  {
    if |parts| == 1 then parts[0] else parts[0] + "$" + Join(parts[1..])
  }

  /** The wrapped record of a legacy one. */
  function Wrap(c: Crypto, stored: string, outer: seq<Byte>, iterations: nat): string
    requires Legacy(stored)
  {
    var decoded := Unhex(stored).value;
    Join([PREFIX, "v1", Digits(iterations), Hex(decoded[..16]), Hex(outer), Hex(c.derive(decoded[16..], outer, iterations))])
  }

  // ---------------------------------------------------------------- checking a password

  /** Whether the password is the one of a legacy record. */
  predicate AcceptsLegacy(c: Crypto, password: string, stored: string)
    requires Legacy(stored)
  {
    var decoded := Unhex(stored).value;
    c.sha(decoded[..16], password) == decoded[16..]
  }

  /** What the login reads from a record; nothing, if it cannot be checked. */
  datatype Record = Record(iterations: nat, inner: seq<Byte>, outer: seq<Byte>, expected: seq<Byte>)

  function FixedBytes(parts: seq<string>, k: nat, n: nat): Option<seq<Byte>> {
    var bytes := Unhex(if k < |parts| then parts[k] else "");
    if bytes.Some? && |bytes.value| == n then bytes else None
  }

  function ReadRecord(stored: string): Option<Record> {
    var parts := Split(stored);
    if |parts| < 2 || parts[0] != PREFIX || parts[1] != "v1" || |parts| < 3 then None
    else
      var iterations, inner, outer, expected := ParseU32(parts[2]), FixedBytes(parts, 3, 16), FixedBytes(parts, 4, 16), FixedBytes(parts, 5, 32);
      if iterations.None? || iterations.value == 0 || iterations.value > MAX_ITERATIONS then None
      else if inner.None? || outer.None? || expected.None? || |parts| > 6 then None
      else Some(Record(iterations.value, inner.value, outer.value, expected.value))
  }

  /** `verify`. */
  predicate Verify(c: Crypto, password: string, stored: string) {
    var r := ReadRecord(stored);
    r.Some? && c.derive(c.sha(r.value.inner, password), r.value.outer, r.value.iterations) == r.value.expected
  }

  // ---------------------------------------------------------------- proofs

  lemma {:induction false} SplitJoin(parts: seq<string>)
    requires parts != [] && forall p | p in parts :: '$' !in p
    ensures Split(Join(parts)) == parts
  {
    assert parts[0] in parts;
    if |parts| == 1 {
      SplitPart(parts[0], "");
      assert parts[0] + "" == parts[0] && parts == [parts[0]];
    } else {
      assert forall p | p in parts[1..] :: p in parts;
      SplitJoin(parts[1..]);
      var rest := "$" + Join(parts[1..]);
      SplitPart(parts[0], rest);
      assert Join(parts) == parts[0] + rest && rest[1..] == Join(parts[1..]);
      assert parts == [parts[0]] + parts[1..];
    }
  }

  /** A part without separators comes before whatever the rest splits into. */
  lemma {:induction false} SplitPart(p: string, rest: string)
    requires '$' !in p && (rest == "" || rest[0] == '$')
    ensures Split(p + rest) == [p] + Split(rest)[1..]
  {
    var parts := Split(rest);
    if p == [] {
      assert p + rest == rest;
      assert parts == [""] + parts[1..];
    } else {
      SplitPart(p[1..], rest);
      assert (p + rest)[0] == p[0] && (p + rest)[1..] == p[1..] + rest;
      assert p == [p[0]] + p[1..];
    }
  }

  lemma {:induction false} NumberOfDigits(n: nat)
    ensures AllDigits(Digits(n)) && NumberOf(Digits(n)) == n
  {
    DigitsStart(n);
    DigitsAreDigits(n);
    if n >= 10 {
      NumberOfDigits(n / 10);
      Appended(n);
      assert Digits(n)[..|Digits(n)| - 1] == Digits(n / 10);
    } else {
      assert Digits(n)[..0] == [];
    }
  }

  lemma WrapParts(c: Crypto, stored: string, outer: seq<Byte>, iterations: nat)
    requires Legacy(stored)
    ensures var d := Unhex(stored).value;
      Split(Wrap(c, stored, outer, iterations))
        == [PREFIX, "v1", Digits(iterations), Hex(d[..16]), Hex(outer), Hex(c.derive(d[16..], outer, iterations))]
  {
    var d := Unhex(stored).value;
    DigitsAreDigits(iterations);
    var parts := [PREFIX, "v1", Digits(iterations), Hex(d[..16]), Hex(outer), Hex(c.derive(d[16..], outer, iterations))];
    assert Nibble('$').None?;
    SplitJoin(parts);
  }

  /** The login reads back from a wrapped record what went into it. */
  lemma WrapReads(c: Crypto, stored: string, outer: seq<Byte>, iterations: nat)
    requires Sized(c) && Legacy(stored) && |outer| == 16 && 1 <= iterations <= MAX_ITERATIONS
    ensures var d := Unhex(stored).value;
      ReadRecord(Wrap(c, stored, outer, iterations)) == Some(Record(iterations, d[..16], outer, c.derive(d[16..], outer, iterations)))
    ensures Wrapped(Wrap(c, stored, outer, iterations)) && !Legacy(Wrap(c, stored, outer, iterations))
  {
    hide Wrap, Digits, Hex, Split, ReadRecord, Wrapped;
    var d := Unhex(stored).value;
    WrapParts(c, stored, outer, iterations);
    PartsRead(Wrap(c, stored, outer, iterations), iterations, d[..16], outer, c.derive(d[16..], outer, iterations));
    LegacyIsOnePart(Wrap(c, stored, outer, iterations));
  }

  lemma PartsRead(stored: string, iterations: nat, inner: seq<Byte>, outer: seq<Byte>, expected: seq<Byte>)
    requires Split(stored) == [PREFIX, "v1", Digits(iterations), Hex(inner), Hex(outer), Hex(expected)]
    requires 1 <= iterations <= MAX_ITERATIONS && |inner| == |outer| == 16 && |expected| == 32
    ensures ReadRecord(stored) == Some(Record(iterations, inner, outer, expected)) && Wrapped(stored)
  {
    hide Digits, Hex, Unhex, Split, NumberOf, Nibble;
    NumberOfDigits(iterations);
    assert Digits(iterations)[0] != '+' by {
      assert IsDigit(Digits(iterations)[0]);
    }
    UnhexHex(inner);
    UnhexHex(outer);
    UnhexHex(expected);
  }

  lemma {:induction false} LegacyIsOnePart(s: string)
    requires |Split(s)| > 1
    ensures '$' in s && !Legacy(s)
  {
    if s[0] != '$' {
      LegacyIsOnePart(s[1..]);
    }
    assert Nibble('$').None?;
  }

  /**
   A wrapped record accepts a password exactly when wrapping the digests leads to the same: it accepts the password of
   the legacy record, and no other, unless two digests collide.
   */
  lemma WrapKeepsPassword(c: Crypto, password: string, stored: string, outer: seq<Byte>, iterations: nat)
    requires Sized(c) && Legacy(stored) && |outer| == 16 && 1 <= iterations <= MAX_ITERATIONS
    ensures var d := Unhex(stored).value;
      Verify(c, password, Wrap(c, stored, outer, iterations)) <==>
        c.derive(c.sha(d[..16], password), outer, iterations) == c.derive(d[16..], outer, iterations)
    ensures AcceptsLegacy(c, password, stored) ==> Verify(c, password, Wrap(c, stored, outer, iterations))
  {
    WrapReads(c, stored, outer, iterations);
    hide ReadRecord, Wrap, Wrapped, Legacy;
  }

  /** The login knows no legacy record. */
  lemma LegacyRefused(c: Crypto, password: string, stored: string)
    requires Legacy(stored)
    ensures !Verify(c, password, stored)
  {
    if |Split(stored)| > 1 {
      LegacyIsOnePart(stored);
    }
  }

  /** Whatever the migration lets pass as wrapped, the login can read. */
  lemma WrappedIsRead(stored: string)
    ensures Wrapped(stored) ==> ReadRecord(stored).Some?
    ensures ReadRecord(stored).Some? && '+' !in Split(stored)[2] ==> Wrapped(stored)
  {
    var parts := Split(stored);
    hide Split, NumberOf, Nibble;
    assert !IsDigit('+');
    if Wrapped(stored) {
      assert parts[2][0] in parts[2];
      assert FixedBytes(parts, 3, 16).Some? && FixedBytes(parts, 4, 16).Some? && FixedBytes(parts, 5, 32).Some?;
    }
  }

  function Lengths(parts: seq<string>): nat { if parts == [] then 0 else |parts[0]| + 1 + Lengths(parts[1..]) }

  lemma {:induction false} SplitLength(s: string)
    ensures |s| + 1 == Lengths(Split(s))
  {
    if s != [] {
      SplitLength(s[1..]);
    }
  }

  /** A wrapped record is longer than a legacy one, so counting by length counts legacy records. */
  lemma WrappedIsLonger(s: string)
    requires Wrapped(s)
    ensures |s| > 96 && !Legacy(s)
  {
    SplitLength(s);
    var p := Split(s);
    assert p[0..] == p;
    LengthsFrom(p, 0);
    LengthsFrom(p, 1);
    LengthsFrom(p, 2);
    LengthsFrom(p, 3);
    LengthsFrom(p, 4);
    LengthsFrom(p, 5);
    hide Split, NumberOf, Nibble;
  }

  lemma LengthsFrom(parts: seq<string>, k: nat)
    requires k < |parts|
    ensures Lengths(parts[k..]) == |parts[k]| + 1 + Lengths(parts[k + 1..])
  {
    assert parts[k..][1..] == parts[k + 1..];
  }
}
