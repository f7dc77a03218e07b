/** Substitute-name generation (src/index.js, generateIdentifierFromSeed).

    A seed is written as a bijective numeral: its least-significant digit is
    `seed % 26`, drawn from the upper-case alphabet, and the rest of the seed
    is written in bijective base 62 over upper-case letters, lower-case
    letters and digits, least-significant digit first. Every seed gets a
    distinct name, and every name of that shape is the name of exactly one
    seed; `SeedOfIdentifier` is the decoder that proves it.
 */
module Generator {

  datatype Option<T> = None | Some(value: T)

  /** Alphabet of the first character of a generated name (upper case only). */
  const FirstChars: string := "ABCDEFGHIJKLMNOPQRSTUVWXYZ"

  /** Alphabet of every later character of a generated name. */
  const NextChars: string := FirstChars + "abcdefghijklmnopqrstuvwxyz" + "0123456789"

  /** The d-th character of FirstChars, by character arithmetic. */
  function FirstChar(d: nat): char
    requires d < 26
  {
    ('A' as int + d) as char
  }

  /** The d-th character of NextChars, by character arithmetic. */
  function NextChar(d: nat): char
    requires d < 62
  {
    if d < 26 then ('A' as int + d) as char
    else if d < 52 then ('a' as int + (d - 26)) as char
    else ('0' as int + (d - 52)) as char
  }

  predicate IsFirstChar(c: char) {
    'A' <= c <= 'Z'
  }

  predicate IsNextChar(c: char) {
    'A' <= c <= 'Z' || 'a' <= c <= 'z' || '0' <= c <= '9'
  }

  /** Position of an upper-case letter in FirstChars. */
  function FirstIndex(c: char): int {
    c as int - 'A' as int
  }

  /** Position of a letter or digit in NextChars. */
  function NextIndex(c: char): int {
    if 'A' <= c <= 'Z' then c as int - 'A' as int
    else if 'a' <= c <= 'z' then 26 + (c as int - 'a' as int)
    else 52 + (c as int - '0' as int)
  }

  /** The first alphabet as written is the arithmetic one: 26 characters. */
  lemma FirstCharsAsWritten()
    ensures |FirstChars| == 26
    ensures forall d :: 0 <= d < 26 ==> FirstChars[d] == FirstChar(d)
  {
    assert forall d :: 0 <= d < 26 ==> FirstChars[d] as int == 'A' as int + d;
  }

  /** The second alphabet as written is the arithmetic one: 62 characters. */
  lemma NextCharsAsWritten()
    ensures |NextChars| == 62
    ensures forall d :: 0 <= d < 62 ==> NextChars[d] == NextChar(d)
  {
    var lower, digits := "abcdefghijklmnopqrstuvwxyz", "0123456789";
    FirstCharsAsWritten();
    assert forall d :: 0 <= d < 26 ==> lower[d] as int == 'a' as int + d;
    assert forall d :: 0 <= d < 10 ==> digits[d] as int == '0' as int + d;
    forall d | 0 <= d < 62
      ensures NextChars[d] == NextChar(d)
    {
      if d < 26 {
        assert NextChars[d] == FirstChars[d];
      } else if d < 52 {
        assert NextChars[d] == lower[d - 26];
      } else {
        assert NextChars[d] == digits[d - 52];
      }
    }
  }

  /** Membership in the first alphabet as written is the upper-case test. */
  lemma FirstCharsMembership(c: char)
    ensures c in FirstChars <==> IsFirstChar(c)
  {
    FirstCharsAsWritten();
    if c in FirstChars {
      var d :| 0 <= d < |FirstChars| && FirstChars[d] == c;
      assert c == FirstChar(d);
    }
    if IsFirstChar(c) {
      assert FirstChars[FirstIndex(c)] == c;
    }
  }

  /** Membership in the second alphabet as written is the letter-or-digit test. */
  lemma NextCharsMembership(c: char)
    ensures c in NextChars <==> IsNextChar(c)
  {
    NextCharsAsWritten();
    if c in NextChars {
      var d :| 0 <= d < |NextChars| && NextChars[d] == c;
      assert c == NextChar(d);
    }
    if IsNextChar(c) {
      NextCharOfIndex(c);
      assert NextChars[NextIndex(c)] == c;
    }
  }

  lemma NextCharOfIndex(c: char)
    requires IsNextChar(c)
    ensures 0 <= NextIndex(c) < 62 && NextChar(NextIndex(c)) == c
  {
  }

  /** A number written as a first digit plus 26 times the rest splits back into both. */
  lemma FirstDigitSplit(x: int, d: int, q: int)
    requires 0 <= d < 26 && x == d + 26 * q
    ensures x % 26 == d && (x - d) / 26 == q
  {
  }

  /** Continuation takes a later digit plus one plus 62 times the rest apart
      into that digit's character followed by the rest. */
  lemma ContinuationCons(d: nat, q: nat)
    requires d < 62
    ensures Continuation(d + 1 + 62 * q) == [NextChar(d)] + Continuation(q)
  {
    var t := d + 1 + 62 * q;
    NextDigitSplit(t, d, q);
  }

  /** A number written as a later digit plus one plus 62 times the rest splits back into both. */
  lemma NextDigitSplit(t: int, d: int, q: int)
    requires 0 <= d < 62 && 0 <= q && t == d + 1 + 62 * q
    ensures t > 0 && (t - 1) % 62 == d && (t - (d + 1)) / 62 == q
  {
  }

  /** A seed is its first digit plus 26 times what remains. */
  lemma FirstDigitOf(x: nat)
    ensures var d := x % 26;
      0 <= d < 26 && x == d + 26 * ((x - d) / 26) && 0 <= (x - d) / 26 <= x
  {
  }

  /** A positive remainder is its next digit plus one plus 62 times what
      remains, and what remains is smaller. */
  lemma NextDigitOf(t: nat)
    requires t > 0
    ensures var d := (t - 1) % 62;
      0 <= d < 62 && t == d + 1 + 62 * ((t - (d + 1)) / 62) && 0 <= (t - (d + 1)) / 62 < t
  {
  }

  lemma NextIndexOfChar(d: nat)
    requires d < 62
    ensures NextIndex(NextChar(d)) == d
  {
  }

  /** The characters after the first one: `t` in bijective base 62, least
      significant digit first; the digit is `(t - 1) % 62` and what remains
      is `(t - (digit + 1)) / 62`. */
  function Continuation(t: nat): (r: string)
    ensures (r == []) == (t == 0)
    ensures forall i :: 0 <= i < |r| ==> IsNextChar(r[i])
    decreases t
  {
    if t == 0 then []
    else
      var d := (t - 1) % 62;
      [NextChar(d)] + Continuation((t - (d + 1)) / 62)
  }

  /** The name generated for `seed`: never empty, an upper-case letter first
      and only letters and digits after it. */
  function IdentifierFromSeed(seed: nat): (r: string)
    ensures |r| >= 1
    ensures IsFirstChar(r[0])
    ensures forall i :: 1 <= i < |r| ==> IsNextChar(r[i])
  {
    var d := seed % 26;
    [FirstChar(d)] + Continuation((seed - d) / 26)
  }

  /** One loop iteration of the generator: the next character moves from the
      continuation to the prefix. */
  lemma ContinuationStep(prefix: string, t: nat)
    requires t > 0
    ensures var d := (t - 1) % 62;
      && 0 <= (t - (d + 1)) / 62 < t
      && prefix + Continuation(t) == (prefix + [NextChar(d)]) + Continuation((t - (d + 1)) / 62)
  {
    var d := (t - 1) % 62;
    NextDigitOf(t);
    var rest := Continuation((t - (d + 1)) / 62);
    assert Continuation(t) == [NextChar(d)] + rest;
    assert prefix + ([NextChar(d)] + rest) == (prefix + [NextChar(d)]) + rest;
  }

  /** The imperative generator: the first character from the seed modulo 26,
      then one character per base-62 digit while the remaining seed is positive.
      `FirstChar(d)` and `NextChar(d)` stand for `FirstChars[d]` and
      `NextChars[d]` (FirstCharsAsWritten, NextCharsAsWritten). */
  method GenerateIdentifierFromSeed(seed: nat) returns (ret: string)
    ensures ret == IdentifierFromSeed(seed)
  {
    var s := seed;
    var s1 := s % 26;
    ret := [FirstChar(s1)];
    s := (s - s1) / 26;
    while s > 0
      invariant ret + Continuation(s) == IdentifierFromSeed(seed)
      decreases s
    {
      var s2 := (s - 1) % 62;
      ContinuationStep(ret, s);
      ret := ret + [NextChar(s2)];
      s := (s - (s2 + 1)) / 62;
    }
  }

  /** Strings of the shape every generated name has. */
  predicate IsGeneratedShape(w: string) {
    |w| >= 1 && IsFirstChar(w[0]) && forall i :: 1 <= i < |w| ==> IsNextChar(w[i])
  }

  /** Value of a bijective base-62 numeral written least-significant digit first. */
  function ContinuationValue(r: string): nat
    requires forall i :: 0 <= i < |r| ==> IsNextChar(r[i])
  {
    if r == [] then 0
    else 1 + NextIndex(r[0]) + 62 * ContinuationValue(r[1..])
  }

  /** Decoder: the seed whose generated name is `w`, if `w` has the shape of one. */
  function SeedOfIdentifier(w: string): (r: Option<nat>)
    ensures r.Some? <==> IsGeneratedShape(w)
  {
    if IsGeneratedShape(w) then Some(FirstIndex(w[0]) + 26 * ContinuationValue(w[1..]))
    else None
  }

  lemma {:induction false} ContinuationRoundTrip(t: nat)
    ensures ContinuationValue(Continuation(t)) == t
    decreases t
  {
    if t > 0 {
      var d := (t - 1) % 62;
      var q := (t - (d + 1)) / 62;
      NextDigitOf(t);
      NextIndexOfChar(d);
      ContinuationRoundTrip(q);
      assert Continuation(t)[1..] == Continuation(q);
    }
  }

  lemma {:induction false} ContinuationOfValue(r: string)
    requires forall i :: 0 <= i < |r| ==> IsNextChar(r[i])
    ensures Continuation(ContinuationValue(r)) == r
    decreases |r|
  {
    if r != [] {
      var rest := r[1..];
      assert forall i :: 0 <= i < |rest| ==> IsNextChar(rest[i]) by {
        assert forall i :: 0 <= i < |rest| ==> rest[i] == r[i + 1];
      }
      var q := ContinuationValue(rest);
      ContinuationOfValue(rest);
      var t := ContinuationValue(r);
      var d := NextIndex(r[0]);
      NextCharOfIndex(r[0]);
      ContinuationCons(d, q);
      assert t == d + 1 + 62 * q;
      assert r == [r[0]] + rest;
      assert Continuation(t) == [r[0]] + rest;
    } else {
      assert ContinuationValue(r) == 0;
    }
  }

  /** Decoding a generated name gives back its seed. */
  lemma DecodeGenerated(seed: nat)
    ensures SeedOfIdentifier(IdentifierFromSeed(seed)) == Some(seed)
  {
    var w := IdentifierFromSeed(seed);
    var q := (seed - seed % 26) / 26;
    FirstDigitOf(seed);
    assert w[1..] == Continuation(q);
    ContinuationRoundTrip(q);
  }

  /** Every string of the generated shape is the name of the seed it decodes to,
      so the generator is onto that set of strings. */
  lemma GeneratedFromDecoded(w: string)
    requires IsGeneratedShape(w)
    ensures SeedOfIdentifier(w).Some? && IdentifierFromSeed(SeedOfIdentifier(w).value) == w
  {
    var q := ContinuationValue(w[1..]);
    ContinuationOfValue(w[1..]);
    var s := SeedOfIdentifier(w).value;
    var d := FirstIndex(w[0]);
    FirstDigitSplit(s, d, q);
    assert w == [w[0]] + w[1..];
  }

  /** Distinct seeds give distinct names. */
  lemma IdentifierFromSeedInjective(a: nat, b: nat)
    ensures IdentifierFromSeed(a) == IdentifierFromSeed(b) ==> a == b
  {
    DecodeGenerated(a);
    DecodeGenerated(b);
  }

  /** The first names in the sequence: A, B, C, ..., Z, then two-letter
      names whose first letter varies fastest. */
  lemma FirstGeneratedNames()
    ensures IdentifierFromSeed(0) == "A"
    ensures IdentifierFromSeed(1) == "B"
    ensures IdentifierFromSeed(2) == "C"
    ensures IdentifierFromSeed(25) == "Z"
    ensures IdentifierFromSeed(26) == "AA"
    ensures IdentifierFromSeed(27) == "BA"
  {
    assert Continuation(1) == "A";
  }

  /** The last two-letter name: seed 26 * 63 - 1. */
  lemma LastTwoLetterName()
    ensures IdentifierFromSeed(1637) == "Z9"
  {
    assert Continuation(62) == "9";
  }

  /** The first three-letter name: seed 26 * 63. */
  lemma FirstThreeLetterName()
    ensures IdentifierFromSeed(1638) == "AAA"
  {
    assert ContinuationValue("AA") == 63;
    GeneratedFromDecoded("AAA");
  }
}
