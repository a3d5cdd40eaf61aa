/** The byte-aware chunker: how pending items are packed into request bodies.

    An `Item` carries the number it was captured under, and a `Chunk` the items
    whose texts were pasted into its body. Neither changes what is sent. */
module Chunker {
  import opened Utf8
  import opened Json

  datatype Kind = Errors | Traces | Events

  /** An item that was serialized once. */
  datatype Item = Item(id: nat, kind: Kind, json: Text, bytes: nat)

  datatype Groups<T> = Groups(errors: seq<T>, traces: seq<T>, events: seq<T>) {
    function Of(kind: Kind): seq<T>
    {
      match kind
      case Errors => errors
      case Traces => traces
      case Events => events
    }

    function With(kind: Kind, list: seq<T>): Groups<T>
    {
      match kind
      case Errors => this.(errors := list)
      case Traces => this.(traces := list)
      case Events => this.(events := list)
    }

    /** Everything in send order. */
    function Flat(): seq<T> { errors + traces + events }

    function Count(): nat { |errors| + |traces| + |events| }
  }

  /** Every item is in the list of its kind. */
  predicate WellKinded(g: Groups<Item>)
  {
    && (forall i | 0 <= i < |g.errors| :: g.errors[i].kind == Errors)
    && (forall i | 0 <= i < |g.traces| :: g.traces[i].kind == Traces)
    && (forall i | 0 <= i < |g.events| :: g.events[i].kind == Events)
  }

  predicate Measured(items: seq<Item>) { forall i | 0 <= i < |items| :: items[i].bytes == Size(items[i].json) }

  datatype Limits = Limits(maxBytes: int, maxItems: int)

  datatype Counts = Counts(errors: nat, traces: nat, events: nat)

  datatype Chunk = Chunk(
    key: Text,
    body: Text,
    bytes: nat,
    counts: Counts,
    items: seq<Item>,
    attempts: nat,
    nextAttemptAt: int)

  // ---------------------------------------------------------------------
  // Bodies
  // ---------------------------------------------------------------------

  const PREFIX_0: Text := Ascii("{\"errors\":[")
  const PREFIX_1: Text := Ascii("],\"traces\":[")
  const PREFIX_2: Text := Ascii("],\"events\":[")
  const PREFIX_3: Text := Ascii("],")
  const FIXED_BYTES: nat := |PREFIX_0| + |PREFIX_1| + |PREFIX_2| + |PREFIX_3|

  const IDEMPOTENCY_KEY: Text := Ascii("idempotency_key")
  const SENT_AT: Text := Ascii("sent_at")

  /** The names that the chunker adds to an envelope. */
  predicate IsReserved(name: Text)
  {
    || name == Ascii("errors") || name == Ascii("traces") || name == Ascii("events")
    || name == IDEMPOTENCY_KEY || name == SENT_AT
  }

  predicate IsBase(fields: seq<Field>) { forall i | 0 <= i < |fields| :: !IsReserved(fields[i].key) }

  /** The envelope fields other than the item arrays, the key and the time. */
  type EnvelopeBase = fields: seq<Field> | IsBase(fields) witness []

  /** `{...base, idempotency_key, sent_at}`. */
  function TailFields(base: EnvelopeBase, key: Text, sentAt: Text): seq<Field>
  {
    base + [Field(IDEMPOTENCY_KEY, Str(key)), Field(SENT_AT, Str(sentAt))]
  }

  /** The serialized tail without the leading brace. */
  function Tail(base: EnvelopeBase, key: Text, sentAt: Text): Text
  {
    Print(Obj(TailFields(base, key, sentAt)))[1..]
  }

  function IdempotencyKey(batchId: Text, index: nat): Text
  {
    Ascii("wu_") + batchId + Ascii("_") + Decimal(index)
  }

  /** The longest key the overhead allows for: a 36-character batch id and a
      six-digit index. */
  const WORST_KEY: Text := IdempotencyKey(Ascii("000000000000000000000000000000000000"), 999_999)

  /** The time that the overhead is measured with; every time is as long. */
  const DEFAULT_SENT_AT: Text := Ascii("2026-01-01T00:00:00.000Z")

  function EnvelopeOverhead(base: EnvelopeBase, sentAt: Text): nat
  {
    FIXED_BYTES + Size(Tail(base, WORST_KEY, sentAt))
  }

  function AssembleBody(groups: Groups<Text>, base: EnvelopeBase, key: Text, sentAt: Text): Text
  {
    PREFIX_0 + Join(groups.errors) + PREFIX_1 + Join(groups.traces) + PREFIX_2 + Join(groups.events) +
    PREFIX_3 + Tail(base, key, sentAt)
  }

  /** The whole envelope as one JSON value. */
  function Envelope(groups: Groups<Value>, base: EnvelopeBase, key: Text, sentAt: Text): Value
  {
    Obj(ArrayFields(groups) + TailFields(base, key, sentAt))
  }

  function ArrayFields(groups: Groups<Value>): seq<Field>
  {
    [Field(Ascii("errors"), Arr(groups.errors)),
     Field(Ascii("traces"), Arr(groups.traces)),
     Field(Ascii("events"), Arr(groups.events))]
  }

  function Printed(groups: Groups<Value>): Groups<Text>
  {
    Groups(PrintAll(groups.errors), PrintAll(groups.traces), PrintAll(groups.events))
  }

  lemma {:induction false} PrintFieldsAppend(a: seq<Field>, b: seq<Field>)
    ensures PrintFields(a + b) == PrintFields(a) + PrintFields(b)
  {
    assert |PrintFields(a + b)| == |PrintFields(a) + PrintFields(b)|;
    forall i | 0 <= i < |a + b| ensures PrintFields(a + b)[i] == (PrintFields(a) + PrintFields(b))[i] {
      assert PrintFields(a + b)[i] == PrintField((a + b)[i]);
    }
  }

  /** `"name":[`. */
  function OpenArray(name: Text): Text { [QUOTE] + name + [QUOTE, COLON, LBRACKET] }

  lemma ArrayField(name: Text, items: seq<Value>)
    requires Plain(name)
    ensures PrintField(Field(name, Arr(items))) == OpenArray(name) + (Join(PrintAll(items)) + [RBRACKET])
  {
    PlainEscape(name);
    var j := Join(PrintAll(items));
    assert PrintField(Field(name, Arr(items))) == [QUOTE] + name + [QUOTE] + [COLON] + ([LBRACKET] + j + [RBRACKET]);
  }

  lemma JoinCons(x: Text, parts: seq<Text>)
    requires parts != []
    ensures Join([x] + parts) == x + ([COMMA] + Join(parts))
  {
    assert ([x] + parts)[1..] == parts;
    Assoc(x, [COMMA], Join(parts));
  }

  lemma Assoc(a: Text, b: Text, c: Text)
    ensures (a + b) + c == a + (b + c)
  {
  }

  /** A body read from the left, piece by piece. */
  lemma BodyPieces(groups: Groups<Text>, base: EnvelopeBase, key: Text, sentAt: Text)
    ensures AssembleBody(groups, base, key, sentAt)
            == PREFIX_0 + (Join(groups.errors) + (PREFIX_1 + (Join(groups.traces) + (PREFIX_2 + (Join(groups.events) +
               (PREFIX_3 + Tail(base, key, sentAt)))))))
  {
    var a, b, c, d, e, f, g := PREFIX_0, Join(groups.errors), PREFIX_1, Join(groups.traces), PREFIX_2, Join(groups.events), PREFIX_3;
    var h := Tail(base, key, sentAt);
    Assoc(a + b + c + d + e + f, g, h);
    Assoc(a + b + c + d + e, f, g + h);
    Assoc(a + b + c + d, e, f + (g + h));
    Assoc(a + b + c, d, e + (f + (g + h)));
    Assoc(a + b, c, d + (e + (f + (g + h))));
    Assoc(a, b, c + (d + (e + (f + (g + h)))));
  }

  lemma Prefixes()
    ensures PREFIX_0 == [LBRACE] + OpenArray(Ascii("errors"))
    ensures PREFIX_1 == [RBRACKET] + ([COMMA] + OpenArray(Ascii("traces")))
    ensures PREFIX_2 == [RBRACKET] + ([COMMA] + OpenArray(Ascii("events")))
    ensures PREFIX_3 == [RBRACKET] + [COMMA]
    ensures Plain(Ascii("errors")) && Plain(Ascii("traces")) && Plain(Ascii("events"))
  {
  }

  /** One array and what follows it, regrouped around the array's text. */
  lemma Regroup(open: Text, j: Text, rb: Text, c: Text, more: Text, close: Text)
    ensures (c + ((open + (j + rb)) + more)) + close == c + (open + (j + (rb + (more + close))))
  {
    Assoc(c, (open + (j + rb)) + more, close);
    Assoc(open + (j + rb), more, close);
    Assoc(open, j + rb, more + close);
    Assoc(j, rb, more + close);
  }

  lemma RegroupAll(lb: Text, oe: Text, je: Text, ot: Text, jt: Text, ov: Text, jv: Text, rb: Text, c: Text, a: Text, close: Text)
    ensures (lb + ((oe + (je + rb)) + (c + ((ot + (jt + rb)) + (c + ((ov + (jv + rb)) + (c + a))))))) + close
            == (lb + oe) + (je + ((rb + (c + ot)) + (jt + ((rb + (c + ov)) + (jv + ((rb + c) + (a + close)))))))
  {
    var tail := a + close;
    Assoc(c, a, close);
    Assoc(rb, c, tail);
    var n3 := c + a;
    Regroup(ov, jv, rb, c, n3, close);
    var t3 := jv + ((rb + c) + tail);
    Assoc(c, ov, t3);
    Assoc(rb, c + ov, t3);
    var n2 := c + ((ov + (jv + rb)) + n3);
    Regroup(ot, jt, rb, c, n2, close);
    var t2 := jt + ((rb + (c + ov)) + t3);
    Assoc(c, ot, t2);
    Assoc(rb, c + ot, t2);
    var n1 := c + ((ot + (jt + rb)) + n2);
    Regroup(oe, je, rb, lb, n1, close);
    var t1 := je + ((rb + (c + ot)) + t2);
    Assoc(lb, oe, t1);
  }

  lemma JoinEnvelope(pe: Text, pt: Text, pv: Text, last: seq<Text>)
    requires last != []
    ensures Join([pe, pt, pv] + last) == pe + ([COMMA] + (pt + ([COMMA] + (pv + ([COMMA] + Join(last))))))
  {
    assert [pe, pt, pv] + last == [pe] + ([pt] + ([pv] + last));
    JoinCons(pe, [pt] + ([pv] + last));
    JoinCons(pt, [pv] + last);
    JoinCons(pv, last);
  }

  lemma PrintEnvelope(groups: Groups<Value>, base: EnvelopeBase, key: Text, sentAt: Text)
    ensures var es, ts, vs := Ascii("errors"), Ascii("traces"), Ascii("events");
            var last := PrintFields(TailFields(base, key, sentAt));
            Print(Envelope(groups, base, key, sentAt)) ==
              ([LBRACE] + (PrintField(Field(es, Arr(groups.errors))) + ([COMMA] + (PrintField(Field(ts, Arr(groups.traces)))
              + ([COMMA] + (PrintField(Field(vs, Arr(groups.events))) + ([COMMA] + Join(last)))))))) + [RBRACE]
  {
    var es, ts, vs := Ascii("errors"), Ascii("traces"), Ascii("events");
    var fe, ft, fv := Field(es, Arr(groups.errors)), Field(ts, Arr(groups.traces)), Field(vs, Arr(groups.events));
    var last := TailFields(base, key, sentAt);
    PrintThree(fe, ft, fv, last);
    JoinEnvelope(PrintField(fe), PrintField(ft), PrintField(fv), PrintFields(last));
    PrintObject([fe, ft, fv] + last);
  }

  lemma PrintObject(fields: seq<Field>)
    ensures Print(Obj(fields)) == [LBRACE] + Join(PrintFields(fields)) + [RBRACE]
  {
  }

  lemma PrintThree(a: Field, b: Field, c: Field, last: seq<Field>)
    ensures PrintFields([a, b, c] + last) == [PrintField(a), PrintField(b), PrintField(c)] + PrintFields(last)
  {
    PrintFieldsAppend([a, b, c], last);
    assert PrintFields([a, b, c]) == [PrintField(a), PrintField(b), PrintField(c)];
  }

  /** Pasting the texts gives the serialization of the whole envelope. */
  lemma BodyIsEnvelope(groups: Groups<Value>, base: EnvelopeBase, key: Text, sentAt: Text)
    ensures AssembleBody(Printed(groups), base, key, sentAt) == Print(Envelope(groups, base, key, sentAt))
  {
    var es, ts, vs := Ascii("errors"), Ascii("traces"), Ascii("events");
    Prefixes();
    ArrayField(es, groups.errors);
    ArrayField(ts, groups.traces);
    ArrayField(vs, groups.events);
    PrintEnvelope(groups, base, key, sentAt);
    BodyPieces(Printed(groups), base, key, sentAt);
    TailIs(base, key, sentAt);
    RegroupAll([LBRACE], OpenArray(es), Join(PrintAll(groups.errors)), OpenArray(ts), Join(PrintAll(groups.traces)),
               OpenArray(vs), Join(PrintAll(groups.events)), [RBRACKET], [COMMA],
               Join(PrintFields(TailFields(base, key, sentAt))), [RBRACE]);
  }

  lemma TailIs(base: EnvelopeBase, key: Text, sentAt: Text)
    ensures Tail(base, key, sentAt) == Join(PrintFields(TailFields(base, key, sentAt))) + [RBRACE]
  {
    var j := Join(PrintFields(TailFields(base, key, sentAt)));
    assert ([LBRACE] + j + [RBRACE])[1..] == j + [RBRACE];
  }

  // ---------------------------------------------------------------------
  // Sizes of bodies
  // ---------------------------------------------------------------------

  function Jsons(items: seq<Item>): (r: seq<Text>)
    ensures |r| == |items| && forall i | 0 <= i < |items| :: r[i] == items[i].json
  {
    seq(|items|, i requires 0 <= i < |items| => items[i].json)
  }

  function GroupJsons(g: Groups<Item>): Groups<Text> { Groups(Jsons(g.errors), Jsons(g.traces), Jsons(g.events)) }

  predicate HasKind(items: seq<Item>, kind: Kind) { exists i :: 0 <= i < |items| && items[i].kind == kind }

  /** Bytes that items add to an empty envelope, counted item by item: an item
      costs its text, and a comma if one of its kind is already there. */
  function Weight(items: seq<Item>): nat
  {
    if items == [] then 0
    else
      var init, last := items[..|items|-1], items[|items|-1];
      Weight(init) + last.bytes + if HasKind(init, last.kind) then 1 else 0
  }

  lemma WeightPush(items: seq<Item>, x: Item)
    ensures Weight(items + [x]) == Weight(items) + x.bytes + if HasKind(items, x.kind) then 1 else 0
  {
    assert (items + [x])[..|items|] == items;
  }

  lemma KindsOfAppend(a: seq<Item>, b: seq<Item>, kind: Kind)
    ensures HasKind(a + b, kind) <==> HasKind(a, kind) || HasKind(b, kind)
  {
    if HasKind(a, kind) {
      var i :| 0 <= i < |a| && a[i].kind == kind;
      assert (a + b)[i].kind == kind;
    }
    if HasKind(b, kind) {
      var i :| 0 <= i < |b| && b[i].kind == kind;
      assert (a + b)[|a| + i].kind == kind;
    }
  }

  predicate OnlyKind(items: seq<Item>, kind: Kind) { forall i | 0 <= i < |items| :: items[i].kind == kind }

  lemma WeightStep(a: seq<Item>, init: seq<Item>, last: Item)
    requires !HasKind(a, last.kind) && OnlyKind(init, last.kind)
    ensures Weight(a + (init + [last])) == Weight(a + init) + last.bytes + if init == [] then 0 else 1
  {
    assert a + (init + [last]) == (a + init) + [last];
    WeightPush(a + init, last);
    KindsOfAppend(a, init, last.kind);
    if init != [] { assert init[0].kind == last.kind; }
  }

  lemma JsonsPush(items: seq<Item>, x: Item)
    ensures Total(Jsons(items + [x])) == Total(Jsons(items)) + Size(x.json)
  {
    assert Jsons(items + [x]) == Jsons(items) + [x.json];
    TotalAppend(Jsons(items), [x.json]);
    TotalOne(x.json);
  }

  lemma {:induction false} WeightOfOneKind(a: seq<Item>, b: seq<Item>, kind: Kind)
    requires !HasKind(a, kind) && OnlyKind(b, kind) && Measured(b)
    ensures Weight(a + b) == Weight(a) + Total(Jsons(b)) + if b == [] then 0 else |b| - 1
  {
    if b == [] {
      assert a + b == a;
    } else {
      var init, last := b[..|b|-1], b[|b|-1];
      assert b == init + [last];
      WeightOfOneKind(a, init, kind);
      WeightStep(a, init, last);
      JsonsPush(init, last);
    }
  }

  lemma TotalOne(a: Text)
    ensures Total([a]) == Size(a)
  {
    assert [a][1..] == [];
  }

  lemma FlatParts(g: Groups<Item>)
    requires Measured(g.Flat())
    ensures Measured(g.errors) && Measured(g.traces) && Measured(g.events)
  {
    var all := g.Flat();
    assert forall i | 0 <= i < |g.errors| :: g.errors[i] == all[i];
    assert forall i | 0 <= i < |g.traces| :: g.traces[i] == all[|g.errors| + i];
    assert forall i | 0 <= i < |g.events| :: g.events[i] == all[|g.errors| + |g.traces| + i];
  }

  lemma WeightOfGroups(g: Groups<Item>)
    requires WellKinded(g) && Measured(g.Flat())
    ensures Weight(g.Flat()) == Size(Join(Jsons(g.errors))) + Size(Join(Jsons(g.traces))) + Size(Join(Jsons(g.events)))
  {
    FlatParts(g);
    JoinSize(Jsons(g.errors));
    JoinSize(Jsons(g.traces));
    JoinSize(Jsons(g.events));
    WeightOfOneKind([], g.errors, Errors);
    assert [] + g.errors == g.errors;
    WeightOfOneKind(g.errors, g.traces, Traces);
    KindsOfAppend(g.errors, g.traces, Events);
    WeightOfOneKind(g.errors + g.traces, g.events, Events);
  }

  lemma QuotedPairSize(name: Text, value: Text)
    requires Plain(name) && Plain(value)
    ensures Size(PrintField(Field(name, Str(value)))) == |name| + |value| + 5
  {
    PlainEscape(name);
    PlainEscape(value);
    QuoteSize(name);
    QuoteSize(value);
    assert Print(Str(value)) == Quote(value);
    SizeBetween(Quote(name), [COLON], Quote(value));
  }

  lemma SizeBetween(x: Text, a: Text, b: Text)
    requires a != [] && IsAscii(a)
    ensures Size(x + a + b) == Size(x) + |a| + Size(b)
  {
    AsciiSize(a);
    SizeConcat(x, a);
    SizeConcat(x + a, b);
  }

  lemma KeyField(key: Text)
    requires Plain(key)
    ensures Size(PrintField(Field(IDEMPOTENCY_KEY, Str(key)))) == |IDEMPOTENCY_KEY| + |key| + 5
  {
    assert Plain(IDEMPOTENCY_KEY);
    QuotedPairSize(IDEMPOTENCY_KEY, key);
  }

  /** The tail grows with the key, byte for byte. */
  lemma TailSize(base: EnvelopeBase, key: Text, sentAt: Text)
    requires Plain(key)
    ensures Size(Tail(base, key, sentAt)) == Size(Tail(base, [], sentAt)) + |key|
  {
    TailParts(base, key, sentAt);
    TailParts(base, [], sentAt);
    KeyField(key);
    KeyField([]);
  }

  lemma TailParts(base: EnvelopeBase, key: Text, sentAt: Text)
    ensures Size(Tail(base, key, sentAt)) ==
            Total(PrintFields(base)) + Size(PrintField(Field(IDEMPOTENCY_KEY, Str(key))))
            + Size(PrintField(Field(SENT_AT, Str(sentAt)))) + |base| + 2
  {
    TailIs(base, key, sentAt);
    TwoMore(base, Field(IDEMPOTENCY_KEY, Str(key)), Field(SENT_AT, Str(sentAt)));
    JoinedSize(PrintFields(TailFields(base, key, sentAt)));
  }

  lemma TwoMore(base: seq<Field>, f1: Field, f2: Field)
    ensures Total(PrintFields(base + [f1, f2])) == Total(PrintFields(base)) + Size(PrintField(f1)) + Size(PrintField(f2))
  {
    PrintFieldsAppend(base, [f1, f2]);
    assert PrintFields([f1, f2]) == [PrintField(f1), PrintField(f2)];
    TotalAppend(PrintFields(base), [PrintField(f1), PrintField(f2)]);
    TotalTwo(PrintField(f1), PrintField(f2));
  }

  lemma JoinedSize(parts: seq<Text>)
    ensures Size(Join(parts) + [RBRACE]) == Total(parts) + (if parts == [] then 0 else |parts| - 1) + 1
  {
    JoinSize(parts);
    AsciiSize([RBRACE]);
    SizeConcat(Join(parts), [RBRACE]);
  }

  lemma TotalTwo(a: Text, b: Text)
    ensures Total([a, b]) == Size(a) + Size(b)
  {
    assert [a, b][1..] == [b];
    TotalOne(b);
  }

  lemma WorstKeyLength()
    ensures Plain(WORST_KEY) && |WORST_KEY| == 46
  {
    DecimalLength(999_999, 6);
    DecimalLength(999_999, 5);
    assert Pow10(5) == 100_000 && Pow10(6) == 1_000_000;
    KeyPlain(Ascii("000000000000000000000000000000000000"), 999_999);
  }

  lemma KeyPlain(batchId: Text, index: nat)
    requires Plain(batchId)
    ensures Plain(IdempotencyKey(batchId, index))
    ensures |IdempotencyKey(batchId, index)| == 4 + |batchId| + |Decimal(index)|
  {
  }

  /** The size of a body in terms of what the packing loop counts: the overhead
      it reserved, plus the weight of the items, less the part of the reserved
      key that the real key does not use. */
  lemma BodySize(g: Groups<Item>, base: EnvelopeBase, batchId: Text, index: nat, sentAt: Text)
    requires WellKinded(g) && Measured(g.Flat()) && Plain(batchId)
    ensures Size(AssembleBody(GroupJsons(g), base, IdempotencyKey(batchId, index), sentAt))
            == EnvelopeOverhead(base, sentAt) + Weight(g.Flat()) - 42 + |batchId| + |Decimal(index)|
  {
    var key := IdempotencyKey(batchId, index);
    KeyPlain(batchId, index);
    TailSize(base, key, sentAt);
    OverheadIs(base, sentAt);
    WeightOfGroups(g);
    AssembledSize(GroupJsons(g), base, key, sentAt);
  }

  lemma OverheadIs(base: EnvelopeBase, sentAt: Text)
    ensures EnvelopeOverhead(base, sentAt) == FIXED_BYTES + Size(Tail(base, [], sentAt)) + 46
  {
    WorstKeyLength();
    TailSize(base, WORST_KEY, sentAt);
  }

  lemma AssembledSize(groups: Groups<Text>, base: EnvelopeBase, key: Text, sentAt: Text)
    ensures Size(AssembleBody(groups, base, key, sentAt)) ==
            FIXED_BYTES + Size(Join(groups.errors)) + Size(Join(groups.traces)) + Size(Join(groups.events))
            + Size(Tail(base, key, sentAt))
  {
    BodyPieces(groups, base, key, sentAt);
    PiecesSize(PREFIX_0, Join(groups.errors), PREFIX_1, Join(groups.traces), PREFIX_2, Join(groups.events), PREFIX_3,
               Tail(base, key, sentAt));
  }

  lemma SizeBefore(x: Text, a: Text, b: Text)
    requires a != [] && IsAscii(a)
    ensures Size(x + (a + b)) == Size(x) + |a| + Size(b)
  {
    AsciiSize(a);
    SizeConcat(a, b);
    SizeConcat(x, a + b);
  }

  lemma PiecesSize(p0: Text, e: Text, p1: Text, t: Text, p2: Text, v: Text, p3: Text, tail: Text)
    requires p0 != [] && p1 != [] && p2 != [] && p3 != []
    requires IsAscii(p0) && IsAscii(p1) && IsAscii(p2) && IsAscii(p3)
    ensures Size(p0 + (e + (p1 + (t + (p2 + (v + (p3 + tail)))))))
            == |p0| + |p1| + |p2| + |p3| + Size(e) + Size(t) + Size(v) + Size(tail)
  {
    SizeBefore(v, p3, tail);
    SizeBefore(t, p2, v + (p3 + tail));
    SizeBefore(e, p1, t + (p2 + (v + (p3 + tail))));
    var rest := e + (p1 + (t + (p2 + (v + (p3 + tail)))));
    AsciiSize(p0);
    SizeConcat(p0, rest);
  }
}
