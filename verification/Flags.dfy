/** Rollout buckets: the same 32-bit hash computed with signed doubles, with
    `uint32`, and with masked unbounded integers. */
module Flags {
  import opened Numbers
  import opened Utf8

  const SEED: nat := 5381
  const TWO_16: nat := 0x1_0000
  const TWO_31: int := 0x8000_0000
  const TWO_32: nat := 0x1_0000_0000
  const COLON: Unit := 0x3A

  // ---------------------------------------------------------------------
  // Bitwise operations on natural numbers
  // ---------------------------------------------------------------------

  function Xor(a: nat, b: nat): nat
  {
    if a == 0 && b == 0 then 0 else (a + b) % 2 + 2 * Xor(a / 2, b / 2)
  }

  function And(a: nat, b: nat): nat
  {
    if a == 0 || b == 0 then 0 else a % 2 * (b % 2) + 2 * And(a / 2, b / 2)
  }

  function Or(a: nat, b: nat): nat
  {
    if a == 0 && b == 0 then 0 else (if a % 2 + b % 2 > 0 then 1 else 0) + 2 * Or(a / 2, b / 2)
  }

  lemma {:induction false} XorBound(a: nat, b: nat, k: nat)
    requires a < Pow2(k) && b < Pow2(k)
    ensures Xor(a, b) < Pow2(k)
  {
    if k > 0 { XorBound(a / 2, b / 2, k - 1); }
  }

  lemma ModHalf(a: nat, p: nat)
    requires p >= 1
    ensures a % (2 * p) == a % 2 + 2 * (a / 2 % p)
  {
    var q, r := a / 2 / p, a / 2 % p;
    assert a / 2 == p * q + r;
    assert a == (2 * p) * q + (2 * r + a % 2);
    Remainder(a, 2 * p, q, 2 * r + a % 2);
  }

  lemma Multiple(m: nat, d: int)
    requires m >= 1
    ensures (d >= 1 ==> m * d >= m) && (d <= -1 ==> m * d <= -(m as int))
  {
    if d >= 1 { assert m * (d - 1) >= 0; } else if d <= -1 { assert m * (-1 - d) >= 0; }
  }

  lemma Remainder(a: nat, m: nat, q: nat, r: nat)
    requires m >= 1 && a == m * q + r && r < m
    ensures a % m == r
  {
    var d := q - a / m;
    assert m * d == a % m - r;
    Multiple(m, d);
  }

  lemma Bit(x: nat, bit: nat, y: nat)
    requires x == bit + 2 * y && bit < 2
    ensures x % 2 == bit && x / 2 == y
  {
  }

  lemma XorStep(a: nat, b: nat)
    ensures Xor(a, b) == (a + b) % 2 + 2 * Xor(a / 2, b / 2)
    ensures Xor(a, b) % 2 == (a + b) % 2 && Xor(a, b) / 2 == Xor(a / 2, b / 2)
  {
    var bit, rest := (a + b) % 2, Xor(a / 2, b / 2);
    assert Xor(a, b) == bit + 2 * rest;
    Bit(Xor(a, b), bit, rest);
  }

  lemma SameParity(a: nat, b: nat, x: nat, y: nat)
    requires a % 2 == x % 2 && b % 2 == y % 2
    ensures (a + b) % 2 == (x + y) % 2
  {
  }

  /** The low bits of an exclusive or depend on the low bits only. */
  lemma {:induction false} XorLowBits(a: nat, b: nat, k: nat)
    ensures Xor(a, b) % Pow2(k) == Xor(a % Pow2(k), b % Pow2(k))
  {
    if k == 0 {
      assert Xor(0, 0) == 0;
    } else {
      var p := Pow2(k - 1);
      var x, y := a % (2 * p), b % (2 * p);
      XorLowBits(a / 2, b / 2, k - 1);
      ModHalf(a, p);
      ModHalf(b, p);
      ModHalf(Xor(a, b), p);
      Bit(x, a % 2, a / 2 % p);
      Bit(y, b % 2, b / 2 % p);
      XorStep(a, b);
      XorStep(x, y);
      SameParity(a, b, x, y);
    }
  }

  /** Masking with k ones is the remainder modulo 2^k. */
  lemma {:induction false} MaskIsMod(a: nat, k: nat)
    ensures And(a, Pow2(k) - 1) == a % Pow2(k)
  {
    if k > 0 {
      ModHalf(a, Pow2(k - 1));
      MaskIsMod(a / 2, k - 1);
      assert (Pow2(k) - 1) / 2 == Pow2(k - 1) - 1 && (Pow2(k) - 1) % 2 == 1;
    }
  }

  lemma OrStep(a: nat, b: nat, c: nat)
    requires b == 2 * c
    ensures Or(a, b) == a % 2 + 2 * Or(a / 2, c)
  {
    assert b / 2 == c && b % 2 == 0;
    if a == 0 && b == 0 { assert Or(0, 0) == 0; }
  }

  /** Or of numbers without common bits is their sum. */
  lemma {:induction false} OrIsSum(a: nat, b: nat, k: nat)
    requires a < Pow2(k)
    ensures Or(a, b * Pow2(k)) == a + b * Pow2(k)
  {
    if k == 0 {
      OrZero(b);
    } else {
      var c, d := b * Pow2(k - 1), b * Pow2(k);
      OrIsSum(a / 2, b, k - 1);
      Doubled(b, Pow2(k - 1));
      OrStep(a, d, c);
    }
  }

  lemma Doubled(b: nat, p: nat)
    ensures b * (2 * p) == 2 * (b * p)
  {
  }

  lemma {:induction false} OrZero(b: nat)
    ensures Or(0, b) == b
  {
    if b > 0 { OrZero(b / 2); }
  }

  lemma Powers()
    ensures Pow2(8) == 0x100 && Pow2(16) == TWO_16 && Pow2(32) == TWO_32
  {
    assert Pow2(4) == 16;
    assert Pow2(8) == 256;
    assert Pow2(12) == 4096;
    assert Pow2(16) == 0x1_0000;
    assert Pow2(20) == 0x10_0000;
    assert Pow2(24) == 0x100_0000;
    assert Pow2(28) == 0x1000_0000;
    assert Pow2(32) == 0x1_0000_0000;
  }

  // ---------------------------------------------------------------------
  // The hash
  // ---------------------------------------------------------------------

  /** One round on an unsigned 32-bit number. */
  function Mix(h: nat, u: Unit): nat { Xor(h * 33 % TWO_32, u) }

  function Hash(t: Text): (h: nat)
    ensures h < TWO_32
  {
    if t == [] then SEED
    else
      MixBound(Hash(t[..|t|-1]), t[|t|-1]);
      Mix(Hash(t[..|t|-1]), t[|t|-1])
  }

  lemma HashStep(t: Text, i: nat)
    requires i < |t|
    ensures Hash(t[..i + 1]) == Mix(Hash(t[..i]), t[i])
  {
    assert t[..i + 1][..i] == t[..i];
  }

  /** The bucket of a user for a flag: 0 to 99. */
  function Bucket(flagKey: Text, userId: Text): (b: nat)
    ensures b < 100
  {
    Hash(flagKey + [COLON] + userId) % 100
  }

  // ---------------------------------------------------------------------
  // JavaScript: signed 32-bit results of operations on doubles
  // ---------------------------------------------------------------------

  /** ToUint32 of an integer (section 7.1.7 of ECMA-262). */
  function ToUint32(x: int): nat { x % TWO_32 }

  /** ToInt32 of an integer (section 7.1.6 of ECMA-262). */
  function ToInt32(x: int): (r: int)
    ensures -TWO_31 <= r < TWO_31
  {
    if ToUint32(x) >= TWO_31 then ToUint32(x) - TWO_32 else ToUint32(x)
  }

  /** `a ^ b`: the operands are converted to 32 bits, the result is signed. */
  function JsXor(a: int, b: int): int { ToInt32(Xor(ToUint32(a), ToUint32(b))) }

  lemma SignedAgain(h: nat)
    requires h < TWO_32
    ensures ToUint32(ToInt32(h)) == h && ToInt32(ToInt32(h)) == ToInt32(h)
    ensures ToUint32(ToInt32(h) * 33) == h * 33 % TWO_32
  {
    if h >= TWO_31 {
      assert (h - TWO_32) % TWO_32 == h;
      assert (h - TWO_32) * 33 == h * 33 - 33 * TWO_32;
    }
  }

  lemma JsXorIs(a: int, u: Unit, x: nat)
    requires ToUint32(a) == x
    ensures JsXor(a, u) == ToInt32(Xor(x, u))
  {
    SmallMod(u, TWO_32);
  }

  lemma SmallMod(a: nat, m: nat)
    requires a < m
    ensures a % m == a
  {
  }

  /** A round on the signed number is the round on the unsigned one. */
  lemma JsRound(h: nat, u: Unit)
    requires h < TWO_32
    ensures ToInt32(JsXor(ToInt32(h) * 33, u)) == ToInt32(Mix(h, u))
  {
    SignedAgain(h);
    JsXorIs(ToInt32(h) * 33, u, h * 33 % TWO_32);
    MixBound(h, u);
    SignedAgain(Mix(h, u));
  }

  lemma MixBound(h: nat, u: Unit)
    ensures Mix(h, u) < TWO_32
  {
    Powers();
    XorBound(h * 33 % TWO_32, u, 32);
  }

  method JsFlagBucket(flagKey: Text, userId: Text) returns (bucket: int)
    ensures bucket == Bucket(flagKey, userId)
  {
    var str := flagKey + [COLON] + userId;
    var hash: int := 5381;
    for i := 0 to |str|
      invariant hash == ToInt32(Hash(str[..i]))
    {
      HashStep(str, i);
      JsRound(Hash(str[..i]), str[i]);
      hash := ToInt32(JsXor(hash * 33, str[i]));
    }
    assert str[..|str|] == str;
    SignedAgain(Hash(str));
    bucket := ToUint32(hash) % 100;
  }

  // ---------------------------------------------------------------------
  // Go: `uint32` arithmetic over the units of a string of runes
  // ---------------------------------------------------------------------

  /** The code units of one code point (section 2.1 of RFC 2781). */
  function UnitsOf(c: int): (t: Text)
    requires 0 <= c < 0x11_0000
    ensures 1 <= |t| <= 2
  {
    if c < 0x1_0000 then [c] else [0xD800 + (c - 0x1_0000) / 0x400, 0xDC00 + (c - 0x1_0000) % 0x400]
  }

  function Utf16(cs: seq<Scalar>): Text { if cs == [] then [] else UnitsOf(cs[0]) + Utf16(cs[1..]) }

  function GoBucket(flagKey: seq<Scalar>, userId: seq<Scalar>): nat { Hash(Utf16(flagKey + [COLON as Scalar] + userId)) % 100 }

  method GoFlagBucket(flagKey: seq<Scalar>, userId: seq<Scalar>) returns (bucket: int)
    ensures bucket == GoBucket(flagKey, userId) && 0 <= bucket < 100
  {
    var units := Utf16(flagKey + [COLON as Scalar] + userId);
    var h: nat := 5381;
    for i := 0 to |units|
      invariant h == Hash(units[..i])
    {
      HashStep(units, i);
      h := Xor(h * 33 % TWO_32, units[i]);
    }
    assert units[..|units|] == units;
    bucket := h % 100;
  }

  /** No unit is half of a surrogate pair on its own. */
  predicate WellFormed(t: Text)
  {
    t == [] || ((Units(t) == 2 || !(IsHigh(t[0]) || IsLow(t[0]))) && WellFormed(t[Units(t)..]))
  }

  lemma FirstUnits(t: Text)
    requires t != []
    ensures UnitsOf(First(t)) == t[..Units(t)] <==> Units(t) == 2 || !(IsHigh(t[0]) || IsLow(t[0]))
    ensures |UnitsOf(First(t))| == Units(t)
  {
  }

  lemma SamePieces(a: Text, b: Text, c: Text, d: Text)
    requires |a| == |c|
    ensures a + b == c + d <==> a == c && b == d
  {
    if a + b == c + d {
      assert a == (a + b)[..|a|] && c == (c + d)[..|a|];
      assert b == (a + b)[|a|..] && d == (c + d)[|a|..];
    }
  }

  /** What `Decode` and its reverse do to the front of a text. */
  lemma RunesFront(t: Text)
    requires t != []
    ensures var head, tail := t[..Units(t)], t[Units(t)..];
            t == head + tail && Utf16(Decode(t)) == UnitsOf(First(t)) + Utf16(Decode(tail))
  {
    assert Decode(t)[1..] == Decode(t[Units(t)..]);
  }

  /** A text survives Go's conversion to runes exactly if it is well-formed. */
  lemma {:induction false} RunesIff(t: Text)
    ensures Utf16(Decode(t)) == t <==> WellFormed(t)
    decreases |t|
  {
    if t != [] {
      var head, tail := t[..Units(t)], t[Units(t)..];
      RunesIff(tail);
      FirstUnits(t);
      RunesFront(t);
      SamePieces(UnitsOf(First(t)), Utf16(Decode(tail)), head, tail);
    }
  }

  lemma {:induction false} WellFormedAppend(a: Text, b: Text)
    requires WellFormed(a) && WellFormed(b) && !SplitsPair(a, b)
    ensures WellFormed(a + b)
    decreases |a|
  {
    if a == [] {
      assert a + b == b;
    } else {
      FirstAppend(a, b);
      if a[Units(a)..] != [] { assert a[Units(a)..][|a| - Units(a) - 1] == a[|a|-1]; }
      WellFormedAppend(a[Units(a)..], b);
      assert (a + b)[0] == a[0];
    }
  }

  lemma ColonAlone()
    ensures WellFormed([COLON]) && Decode([COLON]) == [COLON as Scalar]
  {
    var t: Text := [COLON];
    assert Units(t) == 1 && First(t) == COLON && t[1..] == [];
  }

  /** What Go hashes is the whole text, as runes and back. */
  lemma GoHashes(flagKey: Text, userId: Text)
    ensures GoBucket(Decode(flagKey), Decode(userId)) == Hash(Utf16(Decode(flagKey + [COLON] + userId))) % 100
  {
    ColonAlone();
    DecodeAppend(flagKey, [COLON]);
    DecodeAppend(flagKey + [COLON], userId);
  }

  /** Go puts every well-formed pair of strings into the same bucket. */
  lemma GoAgrees(flagKey: Text, userId: Text)
    requires WellFormed(flagKey) && WellFormed(userId)
    ensures GoBucket(Decode(flagKey), Decode(userId)) == Bucket(flagKey, userId)
  {
    ColonAlone();
    GoHashes(flagKey, userId);
    WellFormedAppend(flagKey, [COLON]);
    WellFormedAppend(flagKey + [COLON], userId);
    RunesIff(flagKey + [COLON] + userId);
  }

  // ---------------------------------------------------------------------
  // Python: unbounded integers under a mask, over UTF-16 bytes
  // ---------------------------------------------------------------------

  /** Python strings are code points, lone surrogates included. */
  type Point = n: int | 0 <= n < 0x11_0000

  /** The units that `encode("utf-16-le", "surrogatepass")` writes. */
  function PointsToUtf16(cs: seq<Point>): Text { if cs == [] then [] else UnitsOf(cs[0]) + PointsToUtf16(cs[1..]) }

  /** Each unit as two bytes, the low one first. */
  function LittleEndian(t: Text): (b: Bytes)
    ensures |b| == 2 * |t|
    ensures forall i | 0 <= i < |t| :: b[2 * i] == t[i] % 0x100 && b[2 * i + 1] == t[i] / 0x100
  {
    if t == [] then [] else LittleEndian(t[..|t|-1]) + [t[|t|-1] % 0x100, t[|t|-1] / 0x100]
  }

  function PyBucket(flagKey: seq<Point>, userId: seq<Point>): nat
  {
    Hash(PointsToUtf16(flagKey + [COLON as Point] + userId)) % 100
  }

  lemma TwoBytes(lo: nat, hi: nat)
    requires lo < 0x100
    ensures Or(lo, hi * 0x100) == lo + hi * 0x100
  {
    Powers();
    OrIsSum(lo, hi, 8);
  }

  lemma MaskedRound(h: nat, u: Unit)
    ensures And(Xor(h * 33, u), 0xFFFF_FFFF) == Mix(h, u)
  {
    Powers();
    MaskIsMod(Xor(h * 33, u), 32);
    XorLowBits(h * 33, u, 32);
    SmallMod(u, TWO_32);
  }

  method PyMix(h: nat, lo: nat, hi: nat, ghost u: Unit) returns (next: nat)
    requires lo == u % 0x100 && hi == u / 0x100
    ensures next == Mix(h, u)
  {
    TwoBytes(lo, hi);
    MaskedRound(h, u);
    var unit := Or(lo, hi * 0x100);
    next := And(Xor(h * 33, unit), 0xFFFF_FFFF);
  }

  method PyFlagBucket(flagKey: seq<Point>, userId: seq<Point>) returns (bucket: int)
    ensures bucket == PyBucket(flagKey, userId) && 0 <= bucket < 100
  {
    var units := PointsToUtf16(flagKey + [COLON as Point] + userId);
    var data := LittleEndian(units);
    var h := PyHash(data, units);
    bucket := h % 100;
  }

  method PyHash(data: Bytes, ghost units: Text) returns (h: nat)
    requires data == LittleEndian(units)
    ensures h == Hash(units)
  {
    h := 5381;
    var i := 0;
    ghost var k := 0;
    while i < |data|
      invariant i == 2 * k && 0 <= k <= |units| && h == Hash(units[..k])
    {
      HashStep(units, k);
      h := PyMix(h, data[i], data[i + 1], units[k]);
      i, k := i + 2, k + 1;
    }
    assert units[..k] == units;
  }

  /** The code points of a text as Python keeps them: pairs joined, lone
      surrogates as they are. */
  function Points(t: Text): seq<Point>
  {
    if t == [] then []
    else [if Units(t) == 2 then First(t) as int else t[0] as int] + Points(t[Units(t)..])
  }

  lemma {:induction false} PointsRoundTrip(t: Text)
    ensures PointsToUtf16(Points(t)) == t
    decreases |t|
  {
    if t != [] {
      var n := Units(t);
      PointsRoundTrip(t[n..]);
      FirstUnits(t);
      assert Points(t)[1..] == Points(t[n..]);
      assert UnitsOf(Points(t)[0]) == t[..n];
      assert t == t[..n] + t[n..];
    }
  }

  lemma {:induction false} PointsAppend(a: seq<Point>, b: seq<Point>)
    ensures PointsToUtf16(a + b) == PointsToUtf16(a) + PointsToUtf16(b)
  {
    if a == [] {
      assert a + b == b;
    } else {
      assert (a + b)[1..] == a[1..] + b;
      PointsAppend(a[1..], b);
    }
  }

  /** Python puts every pair of strings into the same bucket. */
  lemma PyAgrees(flagKey: Text, userId: Text)
    ensures PyBucket(Points(flagKey), Points(userId)) == Bucket(flagKey, userId)
  {
    PointsAppend(Points(flagKey) + [COLON as Point], Points(userId));
    PointsAppend(Points(flagKey), [COLON as Point]);
    PointsRoundTrip(flagKey);
    PointsRoundTrip(userId);
    assert PointsToUtf16([COLON as Point]) == [COLON] by { assert [COLON as Point][1..] == []; }
  }

  // ---------------------------------------------------------------------
  // Where Go differs
  // ---------------------------------------------------------------------

  predicate IsOdd(n: nat) { n % 2 == 1 }

  /** A bit of the hash is simple: whether it is odd depends on how many units
      are. */
  predicate OddHash(t: Text) { t == [] || OddHash(t[..|t|-1]) != IsOdd(t[|t|-1]) }

  lemma EvenApart(a: nat, b: nat, k: nat)
    requires a == b + 2 * k
    ensures a % 2 == b % 2
  {
  }

  /** Multiplying by an odd number and cutting off high bits keep the lowest bit. */
  lemma LowestBit(h: nat)
    ensures h * 33 % TWO_32 % 2 == h % 2
  {
    var y := h * 33;
    var q := y / TWO_32;
    EvenApart(y, y % TWO_32, TWO_31 * q);
    EvenApart(y, h, 16 * h);
  }

  lemma XorOdd(x: nat, y: nat)
    ensures IsOdd(Xor(x, y)) == (IsOdd(x) != IsOdd(y))
  {
    XorStep(x, y);
  }

  lemma MixParity(h: nat, u: Unit)
    ensures IsOdd(Mix(h, u)) == (IsOdd(h) != IsOdd(u))
  {
    LowestBit(h);
    XorOdd(h * 33 % TWO_32, u);
  }

  lemma {:induction false} HashParity(t: Text)
    ensures IsOdd(Hash(t)) == OddHash(t)
  {
    if t != [] {
      HashParity(t[..|t|-1]);
      MixParity(Hash(t[..|t|-1]), t[|t|-1]);
    }
  }

  lemma {:induction false} OddAppend(a: Text, b: Text)
    ensures OddHash(a + b) == (OddHash(a) == OddHash(b))
  {
    if b == [] {
      assert a + b == a;
    } else {
      assert (a + b)[..|a + b|-1] == a + b[..|b|-1];
      OddAppend(a, b[..|b|-1]);
    }
  }

  /** The text starts with a lone surrogate that has an even number. */
  predicate TurnsFirst(t: Text)
    requires t != []
  {
    Units(t) == 1 && (IsHigh(t[0]) || IsLow(t[0])) && !IsOdd(t[0])
  }

  /** The text has an odd number of them. */
  predicate Turns(t: Text) { t != [] && TurnsFirst(t) != Turns(t[Units(t)..]) }

  lemma OddOfOne(u: Unit)
    ensures OddHash([u]) != IsOdd(u)
  {
    assert [u][..0] == [];
  }

  lemma FirstOdd(t: Text)
    requires t != []
    ensures OddHash(UnitsOf(First(t))) == (OddHash(t[..Units(t)]) != TurnsFirst(t))
  {
    FirstUnits(t);
    if Units(t) == 1 {
      OddOfOne(t[0]);
      OddOfOne(0xFFFD);
      assert t[..1] == [t[0]];
    }
  }

  /** Each of them turns the lowest bit, for U+FFFD has an odd number. */
  lemma {:induction false} RunesOdd(t: Text)
    ensures OddHash(Utf16(Decode(t))) == (OddHash(t) != Turns(t))
    decreases |t|
  {
    if t != [] {
      var head, tail := t[..Units(t)], t[Units(t)..];
      RunesOdd(tail);
      RunesFront(t);
      FirstOdd(t);
      OddAppend(UnitsOf(First(t)), Utf16(Decode(tail)));
      OddAppend(head, tail);
    }
  }

  lemma BucketParity(h: nat)
    ensures IsOdd(h % 100) == IsOdd(h)
  {
  }

  /** A lone surrogate cannot be a rune: when the text is converted for Go, each
      becomes U+FFFD. With an odd number of even ones the bucket is always another
      one. (In a Go string that holds the bytes of a surrogate unconverted, each of
      the three bytes would become U+FFFD; such strings are not modelled.) */
  lemma GoDiffers(flagKey: Text, userId: Text)
    requires Turns(flagKey + [COLON] + userId)
    ensures GoBucket(Decode(flagKey), Decode(userId)) != Bucket(flagKey, userId)
  {
    var t := flagKey + [COLON] + userId;
    GoHashes(flagKey, userId);
    RunesOdd(t);
    HashParity(t);
    HashParity(Utf16(Decode(t)));
    BucketParity(Hash(t));
    BucketParity(Hash(Utf16(Decode(t))));
  }

  /** One is enough. */
  lemma GoDiffersSomewhere()
    ensures GoBucket(Decode([]), Decode([0xD800])) != Bucket([], [0xD800])
  {
    var t: Text := [] + [COLON] + [0xD800];
    assert t == [COLON, 0xD800] && t[1..] == [0xD800 as Unit] && t[1..][1..] == [];
    assert Units(t) == 1 && Units(t[1..]) == 1;
    assert !Turns(t[1..][1..]);
    assert Turns(t[1..]);
    GoDiffers([], [0xD800]);
  }
}
