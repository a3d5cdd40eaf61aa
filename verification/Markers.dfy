/** What truncation markers say and cost: when a cut makes a string or an item
    longer, and when the number in a marker is not what was removed. */
module Markers {
  import opened Utf8
  import opened Json
  import opened Truncation

  function Long(n: nat): (t: Text)
    ensures |t| == n && Plain(t) && IsAscii(t) && Size(t) == n
  {
    var t := seq(n, i => 0x61);
    assert Size(t) == n by { PlainEscape(t); }
    t
  }

  // ---------------------------------------------------------------------
  // Cuts that do not pay
  // ---------------------------------------------------------------------

  /** One byte too much at the limit for messages: the marker makes the string 21
      bytes longer. */
  lemma CapGrowsSomewhere()
    ensures Size(Capped(Long(MESSAGE_BYTES + 1), MESSAGE_BYTES)) == Size(Long(MESSAGE_BYTES + 1)) + 21
  {
    var t := Long(MESSAGE_BYTES + 1);
    CappedSize(t, MESSAGE_BYTES);
    KeptAtLeast(t, MESSAGE_BYTES);
    assert Decimal(1) == [0x31];
  }

  lemma OneField(key: Text, s: Text)
    requires Plain(key)
    ensures Truncation.Bytes([Field(key, Str(s))]) == |key| + 7 + Size(Escape(s))
  {
    var f := Field(key, Str(s));
    BytesIs([f]);
    assert [f][..0] == [];
    NamedBytes(key, Str(s));
    QuoteSize(s);
  }

  lemma OnlyMessage(s: Text, c: Text)
    ensures var item := [Field(MESSAGE, Str(s))];
            Get(item, MESSAGE) == Some(Str(s)) && Set(item, MESSAGE, Str(c)) == [Field(MESSAGE, Str(c))]
  {
    assert [Field(MESSAGE, Str(s))][..0] == [];
  }

  /** Then the cut of its message makes the item longer as well. */
  lemma CutGrowsItem()
    ensures var d := Draft([Field(MESSAGE, Str(Long(MESSAGE_BYTES + 1)))], false);
            var c := CapField(d, MESSAGE, MESSAGE_BYTES);
            c.truncated && Truncation.Bytes(c.fields) > Truncation.Bytes(d.fields)
  {
    var s := Long(MESSAGE_BYTES + 1);
    var c := Capped(s, MESSAGE_BYTES);
    CapGrowsSomewhere();
    PlainNames();
    PlainEscape(s);
    EscapeSize(c);
    OneField(MESSAGE, s);
    OneField(MESSAGE, c);
    OnlyMessage(s, c);
  }

  // ---------------------------------------------------------------------
  // The marker of the third step
  // ---------------------------------------------------------------------

  /** The bytes that a cut removes; its marker says this number. */
  ghost function Removed(t: Text, max: nat): int { Size(t) - Size(t[..KeptUnits(t, max)]) }

  lemma MarkerSays(t: Text, max: nat)
    requires TooLong(t, max)
    ensures Removed(t, max) > 0 && Capped(t, max) == t[..KeptUnits(t, max)] + Marker(Removed(t, max))
  {
    var kept := t[..KeptUnits(t, max)];
    assert Size(kept) < Size(t) by { CappedSize(t, max); }
    assert Removed(t, max) == Size(t) - Size(kept);
  }

  /** Inside the part that the first cut kept, both strings are cut alike. */
  lemma SameCut(t: Text, more: Text, k: nat, max: nat)
    requires k <= |t| && Aligned(t, k) && more != [] && !IsLow(more[0]) && Size(t[..k]) > max
    ensures KeptUnits(t[..k] + more, max) == KeptUnits(t, max) < k
    ensures (t[..k] + more)[..KeptUnits(t, max)] == t[..KeptUnits(t, max)]
  {
    var c, n := t[..k] + more, KeptUnits(t, max);
    if n >= k { SizeMonotone(t, k, n); }
    assert c[..n] == t[..n] && c[..k] == t[..k];
    assert Aligned(c, k);
    assert Aligned(c, n) by { assert t[n..][0] == t[n] == c[n] == c[n..][0]; }
    forall j | n < j <= |c| && Aligned(c, j) ensures Size(c[..j]) > max {
      if j < k {
        assert c[..j] == t[..j] && c[j..][0] == t[j..][0];
      } else {
        SizeMonotone(c, k, j);
      }
    }
    LongestPrefixUnique(c, max, n, KeptUnits(c, max));
  }

  /** The third step keeps what it would keep of the original string. */
  lemma SecondCutKeeps(s: Text, first: nat, last: nat)
    requires TooLong(s, first) && last + 4 <= first
    ensures var c, n := Capped(s, first), KeptUnits(s, last); KeptUnits(c, last) == n <= |c| && c[..n] == s[..n] && TooLong(c, last)
  {
    var k := KeptUnits(s, first);
    MarkerSays(s, first);
    KeptAtLeast(s, first);
    SameCut(s, Marker(Removed(s, first)), k, last);
    CappedSize(s, first);
  }

  /** A string that is cut to `first` bytes and then to `last` ends with a marker
      that says how many bytes of the original were removed, exactly if the first
      cut left the string alone or removed 23 bytes, as many as its marker has. */
  lemma SecondMarkerIff(s: Text, first: nat, last: nat)
    requires last + 4 <= first && TooLong(Capped(s, first), last)
    ensures var n, said := KeptUnits(s, last), Removed(Capped(s, first), last);
            && said > 0 && Capped(Capped(s, first), last) == s[..n] + Marker(said)
            && (said == Size(s) - Size(s[..n]) <==> !TooLong(s, first) || Removed(s, first) == 23)
  {
    var c := Capped(s, first);
    MarkerSays(c, last);
    if TooLong(s, first) {
      SecondCutKeeps(s, first, last);
      CapShrinksIff(s, first);
    }
  }

  /** For ASCII text: exactly if it has at most `first` bytes, or 23 more. */
  lemma SecondMarkerAscii(s: Text, first: nat, last: nat)
    requires last + 4 <= first && IsAscii(s) && TooLong(s, last)
    ensures TooLong(Capped(s, first), last)
    ensures Removed(Capped(s, first), last) == Size(s) - last <==> Size(s) <= first || Size(s) == first + 23
  {
    KeptAtLeast(s, last);
    if TooLong(s, first) {
      SecondCutKeeps(s, first, last);
      KeptAtLeast(s, first);
    }
    SecondMarkerIff(s, first, last);
  }

  /** An item that reaches the third step has its message and its stack cut twice. */
  lemma CutTwice(item: seq<Field>, budget: int, s: Text)
    requires Unique(item) && Truncation.Bytes(item) < Pow10(10)
    requires Truncation.Bytes(Step1(item).fields) > budget && Truncation.Bytes(Step2(Step1(item), item).fields) > budget
    ensures var d := Drafted(item, budget).fields;
            && (Get(item, MESSAGE) == Some(Str(s)) ==>
                  Get(d, MESSAGE) == Some(Str(Capped(Capped(s, MESSAGE_BYTES), MESSAGE_FINAL_BYTES))))
            && (Get(item, STACK) == Some(Str(s)) ==>
                  Get(d, STACK) == Some(Str(Capped(Capped(s, STACK_BYTES), STACK_FINAL_BYTES))))
  {
    AllStepsLeave(item);
  }

  /** What the marker says instead. */
  lemma SecondMarkerSays(s: Text, first: nat, last: nat)
    requires last + 4 <= first && IsAscii(s) && TooLong(s, first)
    ensures KeptUnits(s, last) == last <= |s|
    ensures Capped(Capped(s, first), last) == s[..last] + Marker(first + 21 + |Decimal(Size(s) - first)| - last)
  {
    KeptAtLeast(s, first);
    KeptAtLeast(s, last);
    AsciiSize(s[..KeptUnits(s, last)]);
    CappedSize(s, first);
    SecondCutKeeps(s, first, last);
    SecondMarkerIff(s, first, last);
  }

  /** A message of 9,000 letters ends up with a marker that says 7,192 bytes,
      although 7,976 were removed. */
  lemma WrongMarker(s: Text)
    requires IsAscii(s) && |s| == 9_000
    ensures Capped(Capped(s, MESSAGE_BYTES), MESSAGE_FINAL_BYTES) == s[..MESSAGE_FINAL_BYTES] + Marker(7_192)
    ensures Size(s) - Size(s[..MESSAGE_FINAL_BYTES]) == 7_976
  {
    AsciiSize(s);
    AsciiSize(s[..MESSAGE_FINAL_BYTES]);
    SecondMarkerSays(s, MESSAGE_BYTES, MESSAGE_FINAL_BYTES);
    DecimalLength(808, 3);
    DecimalLength(808, 2);
    assert Pow10(2) == 100 && Pow10(3) == 1_000;
  }
}
