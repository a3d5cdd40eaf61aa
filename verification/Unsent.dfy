/** The browser's store of chunks that were refused while a page unloaded: keyed,
    and bounded in bytes. */
module Unsent {
  import opened Utf8
  import opened Snapshots

  const MAX_STORED_BYTES: nat := 256 * 1024

  function StoredBytes(list: seq<SavedChunk>): nat
  {
    if list == [] then 0 else StoredBytes(list[..|list|-1]) + list[|list|-1].bytes
  }

  predicate HasKey(list: seq<SavedChunk>, key: Text) { exists i :: 0 <= i < |list| && list[i].key == key }

  /** The list without the chunk of a key. */
  function Without(list: seq<SavedChunk>, key: Text): (r: seq<SavedChunk>)
    ensures !HasKey(r, key)
    ensures forall c :: c in r <==> c in list && c.key != key
  {
    if list == [] then []
    else
      var init, last := list[..|list|-1], list[|list|-1];
      assert list == init + [last];
      if last.key == key then Without(init, key) else Without(init, key) + [last]
  }

  /** Oldest chunks go until the rest is within the bound. */
  function Shortened(list: seq<SavedChunk>): (r: seq<SavedChunk>)
    ensures StoredBytes(r) <= MAX_STORED_BYTES
  {
    if StoredBytes(list) <= MAX_STORED_BYTES then list else Shortened(list[1..])
  }

  function Saved(list: seq<SavedChunk>, c: SavedChunk): seq<SavedChunk> { Shortened(Without(list, c.key) + [c]) }

  lemma {:induction false} StoredAppend(a: seq<SavedChunk>, b: seq<SavedChunk>)
    ensures StoredBytes(a + b) == StoredBytes(a) + StoredBytes(b)
  {
    if b == [] {
      assert a + b == a;
    } else {
      assert (a + b)[..|a + b|-1] == a + b[..|b|-1];
      StoredAppend(a, b[..|b|-1]);
    }
  }

  lemma StoredHead(list: seq<SavedChunk>)
    requires list != []
    ensures StoredBytes(list) == list[0].bytes + StoredBytes(list[1..])
  {
    assert list == [list[0]] + list[1..];
    StoredAppend([list[0]], list[1..]);
    assert [list[0]][..0] == [];
  }

  /** What is kept is the longest run of newest chunks within the bound. */
  lemma {:induction false} ShortenedIsLongest(list: seq<SavedChunk>) returns (n: nat)
    ensures n <= |list| && Shortened(list) == list[n..]
    ensures forall m | 0 <= m < n :: StoredBytes(list[m..]) > MAX_STORED_BYTES
  {
    if StoredBytes(list) <= MAX_STORED_BYTES {
      n := 0;
    } else {
      assert list[0..] == list;
      var k := ShortenedIsLongest(list[1..]);
      n := k + 1;
      forall m | 0 <= m < n ensures StoredBytes(list[m..]) > MAX_STORED_BYTES {
        if m > 0 { assert list[1..][m - 1..] == list[m..]; }
      }
      assert list[1..][k..] == list[n..];
    }
  }

  /** Each key is stored once. */
  predicate OnePerKey(list: seq<SavedChunk>) { forall i, j | 0 <= i < j < |list| :: list[i].key != list[j].key }

  lemma {:induction false} WithoutOnePerKey(list: seq<SavedChunk>, key: Text)
    requires OnePerKey(list)
    ensures OnePerKey(Without(list, key))
  {
    if list != [] {
      var init, last := list[..|list|-1], list[|list|-1];
      WithoutOnePerKey(init, key);
      var rest := Without(init, key);
      forall i | 0 <= i < |rest| ensures rest[i].key != last.key {
        assert rest[i] in init;
      }
    }
  }

  lemma {:induction false} ShortenedKeeps(list: seq<SavedChunk>)
    requires OnePerKey(list)
    ensures OnePerKey(Shortened(list)) && forall d | d in Shortened(list) :: d in list
  {
    if StoredBytes(list) > MAX_STORED_BYTES {
      forall i, j | 0 <= i < j < |list[1..]| ensures list[1..][i].key != list[1..][j].key {
        assert list[i + 1].key != list[j + 1].key;
      }
      ShortenedKeeps(list[1..]);
    }
  }

  /** The newest chunk stays exactly if it fits on its own. */
  lemma {:induction false} NewestStays(list: seq<SavedChunk>)
    requires list != []
    ensures var r, c := Shortened(list), list[|list|-1];
            (c.bytes <= MAX_STORED_BYTES ==> r != [] && r[|r|-1] == c) && (c.bytes > MAX_STORED_BYTES ==> r == [])
  {
    if StoredBytes(list) > MAX_STORED_BYTES {
      if |list| == 1 {
        assert list[..0] == [] && StoredBytes(list) == list[0].bytes;
        assert Shortened(list[1..]) == [];
      } else {
        NewestStays(list[1..]);
      }
    }
  }

  lemma PushOnePerKey(list: seq<SavedChunk>, c: SavedChunk)
    requires OnePerKey(list) && !HasKey(list, c.key)
    ensures OnePerKey(list + [c])
  {
    forall i | 0 <= i < |list| ensures list[i].key != c.key { }
  }

  lemma {:induction false} WithoutAppend(a: seq<SavedChunk>, b: seq<SavedChunk>, key: Text)
    ensures Without(a + b, key) == Without(a, key) + Without(b, key)
  {
    if b == [] {
      assert a + b == a;
    } else {
      assert (a + b)[..|a + b|-1] == a + b[..|b|-1];
      WithoutAppend(a, b[..|b|-1], key);
    }
  }

  /** Filtering looks at each chunk on its own and keeps their order. */
  lemma WithoutAround(a: seq<SavedChunk>, c: SavedChunk, b: seq<SavedChunk>, key: Text)
    ensures Without(a + ([c] + b), key) == Without(a, key) + (if c.key == key then Without(b, key) else [c] + Without(b, key))
  {
    WithoutAppend(a, [c] + b, key);
    WithoutAppend([c], b, key);
    WithoutOne(c, key);
    NothingBefore(Without(b, key));
  }

  lemma WithoutOne(c: SavedChunk, key: Text)
    ensures Without([c], key) == if c.key == key then [] else [c]
  {
    assert [c][..0] == [];
  }

  lemma NothingBefore(list: seq<SavedChunk>)
    ensures [] + list == list
  {
  }

  /** After saving, the chunk is the newest one stored exactly if it fits on its
      own; every key is stored once; the bound holds; and of the chunks with other
      keys the newest are there, as many as fit beside it, in the same order. */
  lemma SavedIs(list: seq<SavedChunk>, c: SavedChunk) returns (n: nat)
    requires OnePerKey(list)
    ensures var r := Saved(list, c);
            && OnePerKey(r) && StoredBytes(r) <= 262_144
            && (c.bytes <= 262_144 ==> r != [] && r[|r|-1] == c)
            && (c.bytes > 262_144 ==> r == [])
            && forall d | d in r :: d == c || d in list
    ensures var others := Without(list, c.key) + [c];
            && n <= |others| && Saved(list, c) == others[n..]
            && forall m | 0 <= m < n :: StoredBytes(others[m..]) > 262_144
  {
    WithoutOnePerKey(list, c.key);
    PushOnePerKey(Without(list, c.key), c);
    ShortenedKeeps(Without(list, c.key) + [c]);
    NewestStays(Without(list, c.key) + [c]);
    n := ShortenedIsLongest(Without(list, c.key) + [c]);
  }

  lemma StoredIff(list: seq<SavedChunk>, c: SavedChunk)
    requires OnePerKey(list)
    ensures HasKey(Saved(list, c), c.key) <==> c.bytes <= MAX_STORED_BYTES
  {
    var n := SavedIs(list, c);
    var r := Saved(list, c);
    if c.bytes <= MAX_STORED_BYTES { assert r[|r|-1].key == c.key; }
  }

  /** Oldest chunks are shifted off until the rest fits. */
  method ShiftToFit(list: seq<SavedChunk>) returns (next: seq<SavedChunk>)
    ensures next == Shortened(list)
  {
    next := list;
    var total := TotalBytes(list);
    while next != [] && total > MAX_STORED_BYTES
      invariant total == StoredBytes(next) && Shortened(next) == Shortened(list)
      decreases |next|
    {
      StoredHead(next);
      total := total - next[0].bytes;
      next := next[1..];
    }
  }

  method TotalBytes(list: seq<SavedChunk>) returns (total: nat)
    ensures total == StoredBytes(list)
  {
    total := 0;
    var i := 0;
    while i < |list|
      invariant i <= |list| && total == StoredBytes(list[..i])
    {
      assert list[..i + 1][..i] == list[..i];
      total := total + list[i].bytes;
      i := i + 1;
    }
    assert list[..i] == list;
  }

  /** The browser's store. It may refuse a write, and then keeps what it has. */
  class UnsentStore {
    var list: seq<SavedChunk>

    constructor ()
      ensures list == []
    {
      list := [];
    }

    method Write(next: seq<SavedChunk>, accepts: bool)
      modifies this
      ensures list == if accepts then next else old(list)
    {
      if accepts { list := next; }
    }

    method Filtered(key: Text) returns (r: seq<SavedChunk>)
      ensures r == Without(list, key)
    {
      r := [];
      var i := 0;
      while i < |list|
        invariant i <= |list| && r == Without(list[..i], key)
      {
        assert list[..i + 1][..i] == list[..i];
        if list[i].key != key { r := r + [list[i]]; }
        i := i + 1;
      }
      assert list[..i] == list;
    }

    /** Keep a chunk for the next page load. What is returned says whether the
        chunk fits, not whether the store took it. */
    method SaveUnsent(c: SavedChunk, accepts: bool) returns (stored: bool)
      requires OnePerKey(list)
      modifies this
      ensures list == (if accepts then Saved(old(list), c) else old(list)) && OnePerKey(list)
      ensures stored == (c.bytes <= MAX_STORED_BYTES) && (accepts ==> stored == HasKey(list, c.key))
    {
      ghost var n := SavedIs(list, c);
      StoredIff(list, c);
      var next := Filtered(c.key);
      next := ShiftToFit(next + [c]);
      Write(next, accepts);
      stored := HasKeyIn(next, c.key);
    }

    /** The server has the chunk. */
    method ForgetUnsent(key: Text, accepts: bool)
      modifies this
      ensures list == if accepts then Without(old(list), key) else old(list)
      ensures old(OnePerKey(list)) ==> OnePerKey(list)
    {
      if OnePerKey(list) { WithoutOnePerKey(list, key); }
      var next := Filtered(key);
      WithoutShorter(list, key);
      if |next| != |list| { Write(next, accepts); }
    }

    /** Remove and return everything that a previous page stored. */
    method TakeUnsent(accepts: bool) returns (chunks: seq<SavedChunk>)
      modifies this
      ensures chunks == old(list) && list == if accepts then [] else old(list)
    {
      chunks := list;
      if list != [] { Write([], accepts); }
    }
  }

  function HasKeyIn(list: seq<SavedChunk>, key: Text): (r: bool)
    ensures r == HasKey(list, key)
  {
    exists i :: 0 <= i < |list| && list[i].key == key
  }

  lemma {:induction false} WithoutShorter(list: seq<SavedChunk>, key: Text)
    ensures |Without(list, key)| <= |list| && (|Without(list, key)| == |list| ==> Without(list, key) == list)
  {
    if list != [] {
      var init, last := list[..|list|-1], list[|list|-1];
      WithoutShorter(init, key);
      assert list == init + [last];
    }
  }

  /** The answer of `saveUnsent` is right exactly if the store took the chunk, or
      has a copy of the key and the chunk fits, or has none and it does not: an
      empty store that refuses a small chunk is said to have kept it. */
  lemma AnswerIsRightIff(list: seq<SavedChunk>, c: SavedChunk, accepts: bool)
    requires OnePerKey(list)
    ensures var after := if accepts then Saved(list, c) else list;
            (c.bytes <= MAX_STORED_BYTES) == HasKey(after, c.key) <==> accepts || HasKey(list, c.key) == (c.bytes <= MAX_STORED_BYTES)
  {
    StoredIff(list, c);
  }
}
