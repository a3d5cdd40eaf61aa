/** What the server reads: the values in the bodies it accepts. */
module ReadBodies {
  import opened Utf8
  import opened Json
  import opened Chunker
  import opened Packing
  import opened Delivery
  import opened Conservation
  import opened Ingestion

  function CountValue(values: seq<Value>, v: Value): nat
  {
    if values == [] then 0 else CountValue(values[..|values|-1], v) + if values[|values|-1] == v then 1 else 0
  }

  /** How many of the items are of a kind and have a value. */
  function CountWith(items: seq<Item>, kind: Kind, v: Value): nat
  {
    if items == [] then 0
    else
      var x := items[|items|-1];
      CountWith(items[..|items|-1], kind, v) + if x.kind == kind && Parse(x.json) == Some(v) then 1 else 0
  }

  lemma {:induction false} CountRead(items: seq<Item>, kind: Kind, v: Value)
    requires Serialized(OfKind(items, kind))
    ensures CountValue(ValuesOf(OfKind(items, kind)), v) == CountWith(items, kind, v)
  {
    if items != [] {
      var init, x := items[..|items|-1], items[|items|-1];
      if x.kind == kind {
        assert OfKind(items, kind) == OfKind(init, kind) + [x];
        SerializedParts(OfKind(init, kind), [x]);
        assert IsPrinted([x][0]);
        ValuesOfAppend(OfKind(init, kind), [x]);
        assert ValuesOf(OfKind(items, kind)) == ValuesOf(OfKind(init, kind)) + [Parse(x.json).value];
      }
      CountRead(init, kind, v);
    }
  }

  lemma {:induction false} CountWithAppend(a: seq<Item>, b: seq<Item>, kind: Kind, v: Value)
    ensures CountWith(a + b, kind, v) == CountWith(a, kind, v) + CountWith(b, kind, v)
  {
    if b == [] {
      assert a + b == a;
    } else {
      assert (a + b)[..|a + b|-1] == a + b[..|b|-1];
      CountWithAppend(a, b[..|b|-1], kind, v);
    }
  }

  lemma Removed(before: seq<Item>, x: Item, after: seq<Item>, kind: Kind, v: Value)
    ensures forall y :: Occurs(before + ([x] + after), y) == Occurs(before + after, y) + if x == y then 1 else 0
    ensures CountWith(before + ([x] + after), kind, v) == CountWith(before + after, kind, v) + CountWith([x], kind, v)
  {
    forall y ensures Occurs(before + ([x] + after), y) == Occurs(before + after, y) + if x == y then 1 else 0 {
      OccursAppend(before, [x] + after, y);
      OccursAppend([x], after, y);
      OccursAppend(before, after, y);
      assert [x][..0] == [];
    }
    CountWithAppend(before, [x] + after, kind, v);
    CountWithAppend([x], after, kind, v);
    CountWithAppend(before, after, kind, v);
  }

  /** Fewer of every item are fewer of every value. */
  lemma {:induction false} CountFewer(a: seq<Item>, b: seq<Item>, kind: Kind, v: Value)
    requires forall x :: Occurs(a, x) <= Occurs(b, x)
    ensures CountWith(a, kind, v) <= CountWith(b, kind, v)
  {
    if a != [] {
      var init, last := a[..|a|-1], a[|a|-1];
      CountIn(a, last);
      CountIn(b, last);
      assert Occurs(a, last) <= Occurs(b, last);
      var i :| 0 <= i < |b| && b[i] == last;
      var before, after := b[..i], b[i+1..];
      assert b == before + ([last] + after);
      Removed(before, last, after, kind, v);
      forall x ensures Occurs(init, x) <= Occurs(before + after, x) {
        assert Occurs(a, x) <= Occurs(b, x);
      }
      CountFewer(init, before + after, kind, v);
      CountOne(last, kind, v);
    }
  }

  lemma CountOne(x: Item, kind: Kind, v: Value)
    ensures CountWith([x], kind, v) == if x.kind == kind && Parse(x.json) == Some(v) then 1 else 0
  {
    assert [x][..0] == [];
  }

  /** In terms of bodies: over every run the server reads a value from the bodies
      it accepts at most as often as items with that value were captured. */
  lemma ReadsAtMostOnce(events: seq<Event>, cfg: Config, kind: Kind, v: Value)
    requires Ingestion.Run(events, cfg).Some?
    ensures var w := Ingestion.Run(events, cfg).value; CountValue(w.read.Of(kind), v) <= CountWith(w.captured, kind, v)
  {
    ReachableKeeps(events, cfg);
    var w := Ingestion.Run(events, cfg).value;
    forall x ensures Occurs(w.ingested, x) <= Occurs(w.captured, x) {
      IngestedOnce(w, cfg, x);
      CountIn(w.captured, x);
    }
    CountRead(w.ingested, kind, v);
    CountFewer(w.ingested, w.captured, kind, v);
  }

  /** Every request says the key under which the server keeps it. */
  lemma RequestsSayTheirKey(events: seq<Event>, cfg: Config, c: Chunk)
    requires Ingestion.Run(events, cfg).Some? && c in Ingestion.Run(events, cfg).value.wire
    ensures ReadMember(c.body, Ascii("idempotency_key")) == Some(Str(c.key))
  {
    ReachableKeeps(events, cfg);
    var w := Ingestion.Run(events, cfg).value;
    var m :| m in w.made && m.key == c.key && m.body == c.body && m.items == c.items;
    ItemsSerialized(w, m);
    var index: nat, env: Envelope :| m == ChunkOf(m.items, index, env);
    BodySays(m.items, index, env);
  }
}
