/**
 * The digest under which a subject (an account or a path) is remembered: the 32-bit FNV-1a form
 * over UTF-16 code units, printed in base 36.
 */
module Digest {
  import opened Powers

  const TWO_TO_32: nat := 0x1_0000_0000

  type CodeUnit = c: nat | c < 0x1_0000

  type Word = h: nat | h < TWO_TO_32

  /** A JavaScript string: its UTF-16 code units. */
  type Subject = seq<CodeUnit>

  const OFFSET_BASIS: Word := 2166136261
  const PRIME: nat := 16777619
  /** The inverse of PRIME modulo 2^32. */
  const PRIME_INVERSE: nat := 899433627

  /** Bitwise exclusive or of two naturals. */
  function Xor(a: nat, b: nat): nat {
    if a == 0 && b == 0 then 0
    else 2 * Xor(a / 2, b / 2) + (if a % 2 == b % 2 then 0 else 1)
  }

  /** Math.imul as an unsigned 32-bit value. */
  function Imul(a: nat, b: nat): Word {
    (a * b) % TWO_TO_32
  }

  /** One round: xor in the code unit, then multiply modulo 2^32. */
  function Mix(h: Word, c: CodeUnit): Word {
    Imul(Xor(h, c), PRIME)
  }

  /** The state after absorbing `s` from state `h`. */
  function Absorb(h: Word, s: Subject): Word
    decreases |s|
  {
    if s == [] then h else Mix(Absorb(h, s[..|s| - 1]), s[|s| - 1])
  }

  function Digit(k: nat): char
    requires k < 36
  {
    if k < 10 then '0' + k as char else 'a' + (k - 10) as char
  }

  /** Number.prototype.toString(36) on a non-negative integer. */
  function Base36(n: nat): string {
    if n < 36 then [Digit(n)] else Base36(n / 36) + [Digit(n % 36)]
  }

  function DigestOf(s: Subject): string {
    Base36(Absorb(OFFSET_BASIS, s))
  }

  /** The loop of the source, over the characters of the subject. */
  method Hash(s: Subject) returns (d: string)
    ensures d == DigestOf(s)
  {
    var h: Word := OFFSET_BASIS;
    for i := 0 to |s|
      invariant h == Absorb(OFFSET_BASIS, s[..i])
    {
      assert s[..i + 1][..i] == s[..i];
      var x := Xor(h, s[i]);
      h := Imul(x, PRIME);
    }
    assert s[..|s|] == s;
    d := Base36(h);
  }

  // ── The round is a bijection on 32-bit states ──

  lemma {:induction false} XorCancels(a: nat, b: nat)
    ensures Xor(Xor(a, b), b) == a
    ensures Xor(a, b) == Xor(b, a)
  {
    if a != 0 || b != 0 {
      XorCancels(a / 2, b / 2);
    }
  }

  lemma {:induction false} XorBounded(a: nat, b: nat, bits: nat)
    requires a < Pow2(bits) && b < Pow2(bits)
    ensures Xor(a, b) < Pow2(bits)
  {
    if bits > 0 {
      XorBounded(a / 2, b / 2, bits - 1);
    }
  }

  lemma Pow2At32()
    ensures Pow2(32) == TWO_TO_32
  {
    assert Pow2(8) == 256;
    assert Pow2(16) == 256 * Pow2(8);
    assert Pow2(24) == 256 * Pow2(16);
    assert Pow2(32) == 256 * Pow2(24);
  }

  lemma RemainderIs(x: nat, t: int, y: int)
    requires x < TWO_TO_32 && y == x + TWO_TO_32 * t
    ensures y % TWO_TO_32 == x
  {
  }

  /** Multiplying by `p` and then by an inverse of `p` is the identity on words. */
  lemma ImulInverts(x: Word, p: nat, q: nat, k: nat)
    requires p * q == 1 + k * TWO_TO_32
    ensures Imul(Imul(x, p), q) == x
  {
    var w := (x * p) / TWO_TO_32;
    var r := Imul(x, p);
    calc {
      r * q;
      (x * p - TWO_TO_32 * w) * q;
      x * (p * q) - TWO_TO_32 * (w * q);
      x + TWO_TO_32 * (x * k - w * q);
    }
    RemainderIs(x, x * k - w * q, r * q);
  }

  lemma PrimeInverts(x: Word)
    ensures Imul(Imul(x, PRIME), PRIME_INVERSE) == x
    ensures Imul(Imul(x, PRIME_INVERSE), PRIME) == x
  {
    ImulInverts(x, PRIME, PRIME_INVERSE, 3513497);
    ImulInverts(x, PRIME_INVERSE, PRIME, 3513497);
  }

  /** A round by `c` is a bijection: Unmix is its two-sided inverse. */
  function Unmix(h: Word, c: CodeUnit): nat {
    Xor(Imul(h, PRIME_INVERSE), c)
  }

  lemma MixBijective(h: Word, c: CodeUnit)
    ensures Unmix(h, c) < TWO_TO_32
    ensures Mix(Unmix(h, c), c) == h
    ensures Unmix(Mix(h, c), c) == h
  {
    Pow2At32();
    XorBounded(Imul(h, PRIME_INVERSE), c, 32);
    XorBounded(h, c, 32);
    XorCancels(Imul(h, PRIME_INVERSE), c);
    XorCancels(h, c);
    PrimeInverts(h);
    PrimeInverts(Xor(h, c));
  }

  /** From one state, different code units lead to different states. */
  lemma MixSeparates(h: Word, c: CodeUnit, d: CodeUnit)
    requires Mix(h, c) == Mix(h, d)
    ensures c == d
  {
    MixBijective(h, c);
    MixBijective(h, d);
    Pow2At32();
    XorBounded(h, c, 32);
    XorBounded(h, d, 32);
    PrimeInverts(Xor(h, c));
    PrimeInverts(Xor(h, d));
    XorCancels(c, h);
    XorCancels(d, h);
  }

  lemma {:induction false} AbsorbAppend(h: Word, s: Subject, t: Subject)
    ensures Absorb(h, s + t) == Absorb(Absorb(h, s), t)
    decreases |t|
  {
    if t == [] {
      assert s + t == s;
    } else {
      assert (s + t)[..|s + t| - 1] == s + t[..|t| - 1];
      AbsorbAppend(h, s, t[..|t| - 1]);
    }
  }

  /** A common suffix never merges two states. */
  lemma {:induction false} SuffixKeepsStatesApart(h: Word, h': Word, s: Subject)
    requires Absorb(h, s) == Absorb(h', s)
    ensures h == h'
    decreases |s|
  {
    if s != [] {
      var c, front := s[|s| - 1], s[..|s| - 1];
      MixBijective(Absorb(h, front), c);
      MixBijective(Absorb(h', front), c);
      SuffixKeepsStatesApart(h, h', front);
    }
  }

  function DigitValue(d: char): nat {
    if '0' <= d <= '9' then (d - '0') as nat else if 'a' <= d <= 'z' then (d - 'a') as nat + 10 else 0
  }

  function ParseBase36(s: string): nat
    decreases |s|
  {
    if s == "" then 0 else 36 * ParseBase36(s[..|s| - 1]) + DigitValue(s[|s| - 1])
  }

  /** The printed digest can be read back, and holds no colon. */
  lemma {:induction false} Base36RoundTrip(n: nat)
    ensures ParseBase36(Base36(n)) == n
    ensures ':' !in Base36(n)
  {
    if n < 36 {
      assert Base36(n)[..0] == "";
    } else {
      Base36RoundTrip(n / 36);
      var front := Base36(n / 36);
      assert Base36(n)[..|Base36(n)| - 1] == front;
    }
  }

  lemma DigestHasNoColon(s: Subject)
    ensures ':' !in DigestOf(s)
  {
    Base36RoundTrip(Absorb(OFFSET_BASIS, s));
  }

  /** Digests of two subjects after a common suffix differ whenever the digests of the subjects do. */
  lemma SuffixKeepsDigestsApart(s: Subject, s': Subject, t: Subject)
    ensures DigestOf(s + t) == DigestOf(s' + t) <==> DigestOf(s) == DigestOf(s')
  {
    AbsorbAppend(OFFSET_BASIS, s, t);
    AbsorbAppend(OFFSET_BASIS, s', t);
    Base36RoundTrip(Absorb(OFFSET_BASIS, s + t));
    Base36RoundTrip(Absorb(OFFSET_BASIS, s' + t));
    Base36RoundTrip(Absorb(OFFSET_BASIS, s));
    Base36RoundTrip(Absorb(OFFSET_BASIS, s'));
    if DigestOf(s + t) == DigestOf(s' + t) {
      SuffixKeepsStatesApart(Absorb(OFFSET_BASIS, s), Absorb(OFFSET_BASIS, s'), t);
    }
  }

  /** Two subjects of equal length that differ in exactly one position never collide. */
  lemma OneDifferenceNeverCollides(s: Subject, i: nat, c: CodeUnit)
    requires i < |s| && s[i] != c
    ensures DigestOf(s[i := c]) != DigestOf(s)
  {
    var pre, post := s[..i], s[i + 1..];
    assert s == (pre + [s[i]]) + post;
    assert s[i := c] == (pre + [c]) + post;
    SuffixKeepsDigestsApart(pre + [s[i]], pre + [c], post);
    Base36RoundTrip(Absorb(OFFSET_BASIS, pre + [s[i]]));
    Base36RoundTrip(Absorb(OFFSET_BASIS, pre + [c]));
    assert (pre + [s[i]])[..i] == pre && (pre + [c])[..i] == pre;
    if DigestOf(pre + [s[i]]) == DigestOf(pre + [c]) {
      MixSeparates(Absorb(OFFSET_BASIS, pre), s[i], c);
    }
  }

  lemma OneBit(a: nat, b: nat, q: nat, r: nat)
    requires a == 2 * q + r && r < 2
    ensures Xor(a, b) == 2 * Xor(q, b / 2) + (if r == b % 2 then 0 else 1)
  {
    assert a / 2 == q && a % 2 == r;
  }

  lemma {:induction false} XorZero(a: nat)
    ensures Xor(a, 0) == a
  {
    if a > 0 {
      XorZero(a / 2);
    }
  }

  lemma HighBits(a: nat, q: nat)
    requires a == 16 * q + 8
    ensures Xor(a, 12) == 16 * q + 4
  {
    OneBit(a, 12, 8 * q + 4, 0);
    OneBit(8 * q + 4, 6, 4 * q + 2, 0);
    OneBit(4 * q + 2, 3, 2 * q + 1, 0);
    OneBit(2 * q + 1, 1, q, 1);
    XorZero(q);
  }

  /** The letter `a` over the low bits of the offset basis. */
  lemma LowBits(a: nat, q: nat)
    requires a == 128 * q + 69
    ensures Xor(a, 97) == 128 * q + 36
  {
    OneBit(a, 97, 64 * q + 34, 1);
    OneBit(64 * q + 34, 48, 32 * q + 17, 0);
    OneBit(32 * q + 17, 24, 16 * q + 8, 1);
    HighBits(16 * q + 8, q);
  }

  lemma KnownProduct(x: nat)
    requires x == 0x811c_9da4
    ensures Imul(x, PRIME) == 0xe40c_292c
  {
  }

  lemma KnownMix(h: Word, c: CodeUnit)
    requires h == 0x811c_9dc5 && c == 97
    ensures Mix(h, c) == 0xe40c_292c
  {
    LowBits(h, 16_922_939);
    KnownProduct(Xor(h, c));
  }

  /** The published values of the 32-bit FNV-1a form, for the empty text and for "a". */
  lemma KnownDigests(h: Word, s: Subject)
    requires h == OFFSET_BASIS && (s == [] || s == [97])
    ensures Absorb(h, s) == if s == [] then 0x811c_9dc5 else 0xe40c_292c
  {
    if s != [] {
      assert s[..0] == [] && Absorb(h, s) == Mix(h, s[0]);
      KnownMix(h, s[0]);
    }
  }

  /** Digits first, then letters; the least significant place last. */
  lemma KnownPrints(k: nat)
    requires k < 36
    ensures Base36(k) == ["0123456789abcdefghijklmnopqrstuvwxyz"[k]]
    ensures Base36(36 + k) == "1" + ["0123456789abcdefghijklmnopqrstuvwxyz"[k]]
  {
  }
}
