/** The base64url codec without padding (section 5 of RFC 4648). */
module Base64Url {
  type Byte = b: nat | b < 256

  type Sextet = v: nat | v < 64

  function CharOf(v: Sextet): char {
    if v < 26 then 'A' + v as char
    else if v < 52 then 'a' + (v - 26) as char
    else if v < 62 then '0' + (v - 52) as char
    else if v == 62 then '-' else '_'
  }

  predicate IsDigit(c: char) {
    'A' <= c <= 'Z' || 'a' <= c <= 'z' || '0' <= c <= '9' || c in {'-', '_', '+', '/'}
  }

  /** Decoders also take the two characters of the standard alphabet. */
  function ValueOf(c: char): Sextet
    requires IsDigit(c)
  {
    if 'A' <= c <= 'Z' then (c - 'A') as nat
    else if 'a' <= c <= 'z' then (c - 'a') as nat + 26
    else if '0' <= c <= '9' then (c - '0') as nat + 52
    else if c in {'-', '+'} then 62 else 63
  }

  function Encode(b: seq<Byte>): string {
    if b == [] then ""
    else if |b| == 1 then [CharOf(b[0] / 4), CharOf(b[0] % 4 * 16)]
    else if |b| == 2 then [CharOf(b[0] / 4), CharOf(b[0] % 4 * 16 + b[1] / 16), CharOf(b[1] % 16 * 4)]
    else
      Printed(GroupOf(b[0], b[1], b[2])) + Encode(b[3..])
  }

  function Printed(v: seq<Sextet>): string
    requires |v| == 4
  {
    [CharOf(v[0]), CharOf(v[1]), CharOf(v[2]), CharOf(v[3])]
  }

  /** The four sextets of three bytes. */
  function GroupOf(x: Byte, y: Byte, z: Byte): (v: seq<Sextet>)
    ensures |v| == 4
  {
    [x / 4, x % 4 * 16 + y / 16, y % 16 * 4 + z / 64, z % 64]
  }

  /** Characters outside the alphabet are skipped. */
  function Sextets(s: string): seq<Sextet> {
    if s == "" then []
    else (if IsDigit(s[0]) then [ValueOf(s[0])] else []) + Sextets(s[1..])
  }

  function First(u: Sextet, v: Sextet): Byte { u * 4 + v / 16 }
  function Second(u: Sextet, v: Sextet): Byte { u % 16 * 16 + v / 4 }
  function Third(u: Sextet, v: Sextet): Byte { u % 4 * 64 + v }

  function Octets(v: seq<Sextet>): seq<Byte> {
    if |v| < 2 then []
    else if |v| == 2 then [First(v[0], v[1])]
    else if |v| == 3 then [First(v[0], v[1]), Second(v[1], v[2])]
    else [First(v[0], v[1]), Second(v[1], v[2]), Third(v[2], v[3])] + Octets(v[4..])
  }

  function Decode(s: string): seq<Byte> {
    Octets(Sextets(s))
  }

  lemma CharRoundTrip(v: Sextet)
    ensures IsDigit(CharOf(v)) && ValueOf(CharOf(v)) == v && CharOf(v) != '.'
  {
  }

  lemma {:induction false} SextetsAppend(s: string, t: string)
    ensures Sextets(s + t) == Sextets(s) + Sextets(t)
  {
    if s == "" {
      assert s + t == t;
    } else {
      var first: seq<Sextet> := if IsDigit(s[0]) then [ValueOf(s[0])] else [];
      assert (s + t)[0] == s[0] && (s + t)[1..] == s[1..] + t;
      assert Sextets(s + t) == first + Sextets(s[1..] + t);
      SextetsAppend(s[1..], t);
    }
  }

  lemma SextetsOfOne(v: Sextet)
    ensures Sextets([CharOf(v)]) == [v]
  {
    CharRoundTrip(v);
    assert [CharOf(v)][1..] == "";
  }

  lemma SextetsOfTwo(v: Sextet, w: Sextet)
    ensures Sextets([CharOf(v), CharOf(w)]) == [v, w]
  {
    SextetsOfOne(v);
    SextetsOfOne(w);
    SextetsAppend([CharOf(v)], [CharOf(w)]);
    assert [CharOf(v)] + [CharOf(w)] == [CharOf(v), CharOf(w)];
  }

  lemma SextetsOfFour(a: Sextet, b: Sextet, c: Sextet, d: Sextet)
    ensures Sextets([CharOf(a), CharOf(b), CharOf(c), CharOf(d)]) == [a, b, c, d]
  {
    SextetsOfTwo(a, b);
    SextetsOfTwo(c, d);
    SextetsAppend([CharOf(a), CharOf(b)], [CharOf(c), CharOf(d)]);
    assert [CharOf(a), CharOf(b)] + [CharOf(c), CharOf(d)] == [CharOf(a), CharOf(b), CharOf(c), CharOf(d)];
  }

  /** Decoding inverts encoding, for every byte string. */
  lemma {:induction false} RoundTrip(b: seq<Byte>)
    ensures Decode(Encode(b)) == b
  {
    if b == [] {
    } else if |b| == 1 {
      LoneByte(b[0]);
    } else if |b| == 2 {
      TwoBytes(b[0], b[1]);
    } else {
      RoundTrip(b[3..]);
      FullGroup(b[0], b[1], b[2], Encode(b[3..]));
      assert b == [b[0], b[1], b[2]] + b[3..];
    }
  }

  lemma LoneByte(x: Byte)
    ensures Decode([CharOf(x / 4), CharOf(x % 4 * 16)]) == [x]
  {
    SextetsOfTwo(x / 4, x % 4 * 16);
    assert First(x / 4, x % 4 * 16) == x;
  }

  lemma TwoBytes(x: Byte, y: Byte)
    ensures Decode([CharOf(x / 4), CharOf(x % 4 * 16 + y / 16), CharOf(y % 16 * 4)]) == [x, y]
  {
    var u: Sextet, v: Sextet, w: Sextet := x / 4, x % 4 * 16 + y / 16, y % 16 * 4;
    SextetsOfTwo(u, v);
    SextetsOfOne(w);
    SextetsAppend([CharOf(u), CharOf(v)], [CharOf(w)]);
    assert [CharOf(u), CharOf(v)] + [CharOf(w)] == [CharOf(u), CharOf(v), CharOf(w)];
    assert First(u, v) == x && Second(v, w) == y;
  }

  lemma FullGroup(x: Byte, y: Byte, z: Byte, rest: string)
    ensures Decode(Printed(GroupOf(x, y, z)) + rest) == [x, y, z] + Decode(rest)
  {
    var v := GroupOf(x, y, z);
    SextetsOfFour(v[0], v[1], v[2], v[3]);
    SextetsAppend(Printed(v), rest);
    assert (v + Sextets(rest))[4..] == Sextets(rest);
    assert First(v[0], v[1]) == x && Second(v[1], v[2]) == y && Third(v[2], v[3]) == z;
  }

  /** An encoded field holds no dot, and is empty only for no bytes. */
  lemma {:induction false} NoDot(b: seq<Byte>)
    ensures '.' !in Encode(b)
    ensures Encode(b) == "" <==> b == []
  {
    if |b| > 2 {
      NoDot(b[3..]);
    }
  }

  /** The test values of RFC 4648 (section 10), and the two characters that set this alphabet apart. */
  lemma KnownEncodings()
    ensures Encode([102]) == "Zg" && Encode([102, 111]) == "Zm8" && Encode([102, 111, 111]) == "Zm9v"
    ensures Encode([251, 255]) == "-_8"
  {
  }
}
