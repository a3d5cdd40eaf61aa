/** UTF-16 text, its UTF-8 encoding, and the byte-bounded cut of a string.

    JavaScript strings are sequences of 16-bit code units that need not form
    valid UTF-16, so text is modelled on code units and not on `char`. */
module Utf8 {

  type Unit = n: int | 0 <= n < 0x1_0000
  type Byte = n: int | 0 <= n < 0x100
  type Scalar = n: int | 0 <= n < 0x11_0000 && !(0xD800 <= n < 0xE000)

  type Text = seq<Unit>
  type Bytes = seq<Byte>

  predicate IsHigh(u: Unit) { 0xD800 <= u <= 0xDBFF }

  predicate IsLow(u: Unit) { 0xDC00 <= u <= 0xDFFF }

  /** An ASCII string literal as code units. */
  function Ascii(s: string): (t: Text)
    requires forall i | 0 <= i < |s| :: s[i] as int < 0x80
    ensures |t| == |s| && forall i | 0 <= i < |s| :: t[i] == s[i] as int
  {
    seq(|s|, i requires 0 <= i < |s| => s[i] as int)
  }

  predicate IsAscii(t: Text) { forall i | 0 <= i < |t| :: t[i] < 0x80 }

  /** The two units of a surrogate pair meet where `a` and `b` are joined. */
  predicate SplitsPair(a: Text, b: Text)
  {
    a != [] && b != [] && IsHigh(a[|a|-1]) && IsLow(b[0])
  }

  /** Cutting `t` at `k` does not separate a surrogate pair. */
  predicate Aligned(t: Text, k: nat)
    requires k <= |t|
  {
    !SplitsPair(t[..k], t[k..])
  }

  // ---------------------------------------------------------------------
  // Reference definitions: RFC 2781 section 2 and RFC 3629 section 3
  // ---------------------------------------------------------------------

  /** Number of units that the first code point of `t` occupies. */
  function Units(t: Text): (n: nat)
    requires t != []
    ensures 1 <= n <= |t|
  {
    if |t| > 1 && IsHigh(t[0]) && IsLow(t[1]) then 2 else 1
  }

  /** The first code point of `t`; a lone surrogate stands for U+FFFD. */
  function First(t: Text): Scalar
    requires t != []
  {
    if Units(t) == 2 then 0x1_0000 + (t[0] as int - 0xD800) * 0x400 + (t[1] as int - 0xDC00)
    else if IsHigh(t[0]) || IsLow(t[0]) then 0xFFFD
    else t[0]
  }

  function EncodeScalar(c: Scalar): (b: Bytes)
    ensures 1 <= |b| <= 4
  {
    if c < 0x80 then [c]
    else if c < 0x800 then [0xC0 + c / 0x40, 0x80 + c % 0x40]
    else if c < 0x1_0000 then [0xE0 + c / 0x1000, 0x80 + c / 0x40 % 0x40, 0x80 + c % 0x40]
    else [0xF0 + c / 0x4_0000, 0x80 + c / 0x1000 % 0x40, 0x80 + c / 0x40 % 0x40, 0x80 + c % 0x40]
  }

  /** The code points of a text. */
  function Decode(t: Text): seq<Scalar>
  {
    if t == [] then [] else [First(t)] + Decode(t[Units(t)..])
  }

  function Flatten(parts: seq<Bytes>): Bytes
  {
    if parts == [] then [] else parts[0] + Flatten(parts[1..])
  }

  function EncodeAll(cs: seq<Scalar>): (r: seq<Bytes>)
    ensures |r| == |cs|
  {
    seq(|cs|, i requires 0 <= i < |cs| => EncodeScalar(cs[i]))
  }

  function Encode(t: Text): Bytes { Flatten(EncodeAll(Decode(t))) }

  /** Size of a text in UTF-8 bytes. */
  function Size(t: Text): nat { |Encode(t)| }

  /** A byte that starts a code point (`bytes & 0xC0 != 0x80`). */
  predicate IsStart(b: Byte) { !(0x80 <= b < 0xC0) }

  // ---------------------------------------------------------------------
  // Additivity
  // ---------------------------------------------------------------------

  lemma FirstAppend(a: Text, b: Text)
    requires a != [] && !SplitsPair(a, b)
    ensures Units(a + b) == Units(a) && First(a + b) == First(a)
    ensures (a + b)[Units(a)..] == a[Units(a)..] + b
  {
    var ab := a + b;
    assert ab[0] == a[0];
    if |a| > 1 { assert ab[1] == a[1]; } else if |b| > 0 { assert ab[1] == b[0]; }
  }

  lemma {:induction false} DecodeAppend(a: Text, b: Text)
    requires !SplitsPair(a, b)
    ensures Decode(a + b) == Decode(a) + Decode(b)
    decreases |a|
  {
    if a == [] {
      assert a + b == b;
    } else {
      FirstAppend(a, b);
      DecodeAppend(a[Units(a)..], b);
    }
  }

  lemma {:induction false} FlattenAppend(a: seq<Bytes>, b: seq<Bytes>)
    ensures Flatten(a + b) == Flatten(a) + Flatten(b)
  {
    if a == [] {
      assert a + b == b;
    } else {
      assert (a + b)[1..] == a[1..] + b;
      FlattenAppend(a[1..], b);
    }
  }

  lemma EncodeAllAppend(a: seq<Scalar>, b: seq<Scalar>)
    ensures EncodeAll(a + b) == EncodeAll(a) + EncodeAll(b)
  {
  }

  lemma EncodeAppend(a: Text, b: Text)
    requires !SplitsPair(a, b)
    ensures Encode(a + b) == Encode(a) + Encode(b)
  {
    DecodeAppend(a, b);
    EncodeAllAppend(Decode(a), Decode(b));
    FlattenAppend(EncodeAll(Decode(a)), EncodeAll(Decode(b)));
  }

  /** The bytes of the first code point come first. */
  lemma EncodeStep(t: Text)
    requires t != []
    ensures Encode(t) == EncodeScalar(First(t)) + Encode(t[Units(t)..])
    ensures Size(t) == |EncodeScalar(First(t))| + Size(t[Units(t)..])
  {
    var cs := Decode(t);
    assert cs[1..] == Decode(t[Units(t)..]);
    assert EncodeAll(cs)[1..] == EncodeAll(cs[1..]);
  }

  lemma EncodeOne(t: Text)
    requires t != [] && Units(t) == |t|
    ensures Encode(t) == EncodeScalar(First(t))
  {
    EncodeStep(t);
    assert t[|t|..] == [] && Decode([]) == [] && EncodeAll([]) == [];
  }

  lemma EncodeEmpty()
    ensures Encode([]) == [] && Size([]) == 0
  {
    assert EncodeAll([]) == [];
  }

  /** UTF-8 size is additive exactly when no surrogate pair is cut: a cut pair
      is counted as two replacement characters. */
  lemma {:induction false} SizeAdditive(a: Text, b: Text)
    ensures Size(a + b) == Size(a) + Size(b) - (if SplitsPair(a, b) then 2 else 0)
  {
    if SplitsPair(a, b) {
      var a', h, l, b' := a[..|a|-1], a[|a|-1..], b[..1], b[1..];
      assert a == a' + h && b == l + b' && a + b == a' + ((h + l) + b');
      EncodeAppend(a', h);
      EncodeAppend(l, b');
      EncodeAppend(h + l, b');
      EncodeAppend(a', (h + l) + b');
      SizeOfUnits(h, l);
    } else {
      EncodeAppend(a, b);
    }
  }

  lemma SizeOfUnits(h: Text, l: Text)
    requires |h| == |l| == 1 && IsHigh(h[0]) && IsLow(l[0])
    ensures Size(h) == 3 && Size(l) == 3 && Size(h + l) == 4
  {
    assert Units(h + l) == 2;
    EncodeOne(h);
    EncodeOne(l);
    EncodeOne(h + l);
  }

  lemma {:induction false} AsciiSize(t: Text)
    requires IsAscii(t)
    ensures Size(t) == |t|
  {
    EncodeEmpty();
    if t != [] {
      EncodeStep(t);
      AsciiSize(t[1..]);
    }
  }

  /** An aligned prefix encodes to a prefix of the bytes. */
  lemma {:induction false} EncodePrefix(t: Text, k: nat)
    requires k <= |t| && Aligned(t, k)
    ensures Encode(t) == Encode(t[..k]) + Encode(t[k..])
    ensures Encode(t[..k]) == Encode(t)[..Size(t[..k])]
  {
    assert t == t[..k] + t[k..];
    EncodeAppend(t[..k], t[k..]);
  }

  lemma SizeMonotone(t: Text, j: nat, k: nat)
    requires j <= k <= |t| && Aligned(t, j) && Aligned(t, k)
    ensures Size(t[..j]) <= Size(t[..k])
  {
    var p := t[..k];
    assert p[..j] == t[..j];
    if 0 < j < k { assert p[j..][0] == t[j..][0]; }
    EncodePrefix(p, j);
  }

  // ---------------------------------------------------------------------
  // The index loops
  // ---------------------------------------------------------------------

  method ByteLength(value: Text) returns (bytes: nat)
    ensures bytes == Size(value)
  {
    bytes := 0;
    var i := 0;
    while i < |value|
      invariant i <= |value|
      invariant bytes + Size(value[i..]) == Size(value)
    {
      var code := value[i];
      ghost var rest := value[i..];
      assert rest[Units(rest)..] == value[i + Units(rest)..];
      EncodeStep(rest);
      if code < 0x80 {
        bytes := bytes + 1;
      } else if code < 0x800 {
        bytes := bytes + 2;
      } else if IsHigh(code) && i + 1 < |value| && IsLow(value[i + 1]) {
        bytes := bytes + 4;
        i := i + 1;
      } else {
        bytes := bytes + 3;
      }
      i := i + 1;
    }
    EncodeEmpty();
  }

  /** `end` is where the longest prefix of `t` within `max` bytes ends that
      separates no surrogate pair. */
  ghost predicate LongestPrefix(t: Text, max: nat, end: nat)
  {
    && end <= |t| && Aligned(t, end) && Size(t[..end]) <= max
    && forall k | end < k <= |t| && Aligned(t, k) :: Size(t[..k]) > max
  }

  lemma LongestPrefixUnique(t: Text, max: nat, i: nat, j: nat)
    requires LongestPrefix(t, max, i) && LongestPrefix(t, max, j)
    ensures i == j
  {
  }

  lemma NextAligned(t: Text, i: nat)
    requires i < |t| && Aligned(t, i)
    ensures var n := Units(t[i..]);
            && i + n <= |t| && Aligned(t, i + n)
            && (forall k | i < k < i + n :: !Aligned(t, k))
  {
    var n := Units(t[i..]);
    if i + n < |t| { assert t[i..][n - 1] == t[i + n - 1]; }
    if n == 2 { assert t[i..][1] == t[i + 1]; } else if i + 1 < |t| { assert t[i..][1] == t[i + 1]; }
  }

  lemma SizeOfFirst(t: Text)
    requires t != []
    ensures Size(t[..Units(t)]) == |EncodeScalar(First(t))|
  {
    var h := t[..Units(t)];
    assert Units(h) == Units(t) && First(h) == First(t);
    EncodeOne(h);
  }

  lemma NextStop(t: Text, i: nat)
    requires i < |t| && Aligned(t, i)
    ensures var n := Units(t[i..]);
            && i + n <= |t| && Aligned(t, i + n)
            && (forall k | i < k < i + n :: !Aligned(t, k))
            && Size(t[..i + n]) == Size(t[..i]) + |EncodeScalar(First(t[i..]))|
  {
    NextAligned(t, i);
    var rest, n := t[i..], Units(t[i..]);
    SizeOfFirst(rest);
    assert t[..i + n] == t[..i] + rest[..n];
    EncodeAppend(t[..i], rest[..n]);
  }

  method Truncate(value: Text, maxBytes: nat) returns (kept: Text, removed: nat)
    ensures kept <= value && LongestPrefix(value, maxBytes, |kept|)
    ensures Size(kept) + removed == Size(value)
    ensures removed == 0 <==> Size(value) <= maxBytes
  {
    var total := ByteLength(value);
    assert value[..|value|] == value;
    if total <= maxBytes {
      return value, 0;
    }
    EncodeEmpty();
    var bytes, end, i := 0, 0, 0;
    while i < |value|
      invariant i == end <= |value| && Aligned(value, end)
      invariant bytes == Size(value[..end]) <= maxBytes
    {
      var code := value[i];
      NextStop(value, i);
      ghost var rest := value[i..];
      var width, units := 3, 1;
      if code < 0x80 {
        width := 1;
      } else if code < 0x800 {
        width := 2;
      } else if IsHigh(code) && i + 1 < |value| && IsLow(value[i + 1]) {
        width, units := 4, 2;
      }
      assert units == Units(rest) && width == |EncodeScalar(First(rest))|;
      if bytes + width > maxBytes {
        forall k | end < k <= |value| && Aligned(value, k) ensures Size(value[..k]) > maxBytes {
          SizeMonotone(value, i + units, k);
        }
        break;
      }
      bytes := bytes + width;
      i := i + units - 1;
      end := i + 1;
      i := i + 1;
    }
    kept, removed := value[..end], total - bytes;
    EncodePrefix(value, end);
  }

  // ---------------------------------------------------------------------
  // The byte-level cut of the Go and .NET versions
  // ---------------------------------------------------------------------

  /** `cut` is the last code-point start at or before `max`, or the end. */
  ghost predicate LastStart(s: Bytes, max: nat, cut: nat)
  {
    if |s| <= max then cut == |s|
    else cut <= max && (cut == 0 || IsStart(s[cut])) && forall p | cut < p <= max :: !IsStart(s[p])
  }

  /** Backs up from `maxBytes` to the start of a code point. */
  method CutBytes(s: Bytes, maxBytes: nat) returns (cut: nat)
    ensures LastStart(s, maxBytes, cut)
  {
    if |s| <= maxBytes {
      return |s|;
    }
    cut := maxBytes;
    while cut > 0 && !IsStart(s[cut])
      invariant cut <= maxBytes
      invariant forall p | cut < p <= maxBytes :: !IsStart(s[p])
    {
      cut := cut - 1;
    }
  }

  lemma ScalarStarts(c: Scalar)
    ensures IsStart(EncodeScalar(c)[0])
    ensures forall p | 0 < p < |EncodeScalar(c)| :: !IsStart(EncodeScalar(c)[p])
  {
  }

  /** The code-point starts among the bytes are exactly the sizes of the
      aligned prefixes. */
  lemma {:induction false} StartIsAligned(t: Text, p: nat) returns (k: nat)
    requires p < Size(t) && IsStart(Encode(t)[p])
    ensures k < |t| && Aligned(t, k) && Size(t[..k]) == p
    decreases |t|
  {
    var n := Units(t);
    var head := EncodeScalar(First(t));
    EncodeStep(t);
    EncodeEmpty();
    ScalarStarts(First(t));
    NextStop(t, 0);
    if p < |head| {
      k := 0;
      assert t[..0] == [];
    } else {
      assert Encode(t[n..])[p - |head|] == Encode(t)[p];
      var j := StartIsAligned(t[n..], p - |head|);
      k := n + j;
      ShiftAligned(t, n, j);
    }
  }

  /** A cut of the rest of a text is a cut of the text. */
  lemma ShiftAligned(t: Text, n: nat, j: nat)
    requires n <= |t| && Aligned(t, n) && j <= |t[n..]| && Aligned(t[n..], j)
    ensures Aligned(t, n + j) && Size(t[..n + j]) == Size(t[..n]) + Size(t[n..][..j])
  {
    var k, rest := n + j, t[n..];
    assert rest[..j] == t[n..k] && rest[j..] == t[k..];
    assert t[..k] == t[..n] + t[n..k];
    if j == 0 {
      assert t[..k] == t[..n];
    } else {
      assert t[..k][k - 1] == rest[..j][j - 1] && t[n..k][0] == rest[0];
    }
    EncodeAppend(t[..n], t[n..k]);
  }

  lemma {:induction false} AlignedIsStart(t: Text, k: nat)
    requires k < |t| && Aligned(t, k)
    ensures Size(t[..k]) < Size(t) && IsStart(Encode(t)[Size(t[..k])])
  {
    EncodePrefix(t, k);
    var rest := t[k..];
    ScalarStarts(First(rest));
    EncodeStep(rest);
    assert Encode(rest)[0] == EncodeScalar(First(rest))[0];
    assert Encode(t)[Size(t[..k])] == Encode(rest)[0];
  }

  /** Scanning code units and backing up over bytes keep the same text: the
      bytes kept by the byte-level cut are the encoding of the prefix kept by
      the code-unit scan, and no other cut keeps them. */
  lemma CutsAgree(t: Text, max: nat, end: nat, cut: nat)
    requires LongestPrefix(t, max, end)
    requires cut <= Size(t)
    ensures LastStart(Encode(t), max, cut) <==> Encode(t[..end]) == Encode(t)[..cut]
  {
    EncodePrefix(t, end);
    EncodeEmpty();
    assert t[..|t|] == t;
    var p := Size(t[..end]);
    assert LastStart(Encode(t), max, p) by {
      if Size(t) > max {
        AlignedIsStart(t, end);
        forall q | p < q <= max ensures !IsStart(Encode(t)[q]) {
          if IsStart(Encode(t)[q]) {
            var k := StartIsAligned(t, q);
            if k <= end { SizeMonotone(t, k, end); }
          }
        }
      }
    }
    if LastStart(Encode(t), max, cut) {
      assert cut == p by {
        if Size(t) > max && cut < p { AlignedIsStart(t, end); }
      }
    }
  }
}
