/** Normalization: a bounded walk over whatever was captured, cyclic or not, that
    gives plain JSON with sensitive fields redacted. Objects are numbered; a heap
    says what each of them holds. */
module Normalize {
  import opened Utf8
  import opened Json
  import opened Truncation

  const MAX_DEPTH: nat := 10
  const MAX_KEYS: nat := 200
  const MAX_ARRAY: nat := 200

  const REDACTED: Text := Ascii("[REDACTED]")
  const CIRCULAR: Text := Ascii("[Circular]")
  const TOO_DEEP: Text := Ascii("[MaxDepth]")
  const UNSERIALIZABLE: Text := Ascii("[Unserializable]")
  const NAME: Text := Ascii("name")
  const DROPPED_KEYS: Text := Ascii("_watchup_dropped_keys")

  type Ref = nat

  datatype Input =
    | Nothing                  // null
    | Missing                  // undefined, a function or a symbol
    | Flag(b: bool)
    | Number(token: Json.Number)
    | NotFinite                // NaN or an infinity
    | Big(digits: Text)
    | String(s: Text)
    | Object(r: Ref)

  datatype Entry = Entry(key: Text, value: Input)

  /** Arrays and Sets are lists; plain objects and Maps are entries in order. An
      error without a stack, or with an empty one, has none here; what `toJSON`
      gives is `None` if it throws. */
  datatype Node =
    | List(items: seq<Input>)
    | Dict(entries: seq<Entry>)
    | Dated(iso: Option<Text>)
    | Buffer(length: nat)
    | Failure(name: Text, message: Text, stack: Option<Text>, own: seq<Entry>)
    | Converts(result: Option<Input>)

  type Heap = Ref -> Node

  /** The string scrubber, which keys are sensitive, and which every object
      inherits. */
  datatype Rules = Rules(scrub: Text -> Text, sensitive: Text -> bool, inherited: Text -> bool)

  // ---------------------------------------------------------------------
  // Sensitive keys
  // ---------------------------------------------------------------------

  predicate IsSeparator(u: Unit) { u == 0x2D || u == 0x5F || u == 0x2E || u == 0x20 }

  function WithoutSeparators(t: Text): Text
  {
    if t == [] then []
    else if IsSeparator(t[0]) then WithoutSeparators(t[1..]) else [t[0]] + WithoutSeparators(t[1..])
  }

  function CanonicalKey(key: Text, lower: Text -> Text): Text { WithoutSeparators(lower(key)) }

  predicate IsSensitiveName(k: Text) { IsHeader(k) || IsSecret(k) || IsPersonal(k) }

  predicate IsHeader(k: Text)
  {
    || k == Ascii("authorization") || k == Ascii("proxyauthorization") || k == Ascii("cookie") || k == Ascii("setcookie")
  }

  predicate IsSecret(k: Text)
  {
    || k == Ascii("password") || k == Ascii("passwd") || k == Ascii("pwd") || k == Ascii("secret") || k == Ascii("clientsecret")
    || k == Ascii("apikey") || k == Ascii("xapikey") || k == Ascii("apisecret") || k == Ascii("privatekey")
    || k == Ascii("sessiontoken")
  }

  predicate IsPersonal(k: Text)
  {
    || k == Ascii("creditcard") || k == Ascii("cardnumber") || k == Ascii("ccnumber") || k == Ascii("cvv") || k == Ascii("cvc")
    || k == Ascii("ssn")
  }

  predicate EndsWith(t: Text, part: Text) { |part| <= |t| && t[|t| - |part|..] == part }

  predicate IsAt(t: Text, part: Text, i: nat) { i + |part| <= |t| && t[i..i + |part|] == part }

  predicate Includes(t: Text, part: Text) { exists i: nat :: i <= |t| && IsAt(t, part, i) }

  predicate IsSensitiveKey(key: Text, lower: Text -> Text, extra: set<Text>)
  {
    var k := CanonicalKey(key, lower);
    || IsSensitiveName(k) || k in extra || EndsWith(k, Ascii("token"))
    || Includes(k, Ascii("password")) || Includes(k, Ascii("secret")) || Includes(k, Ascii("credential"))
  }

  /** The rules for extra names to redact, compared the same way as the built-in
      ones; `lower` is `toLowerCase`. */
  function RulesFor(scrub: Text -> Text, lower: Text -> Text, redactKeys: set<Text>, inherited: Text -> bool): Rules
  {
    var extra := set k | k in redactKeys :: CanonicalKey(k, lower);
    Rules(scrub, key => IsSensitiveKey(key, lower, extra), inherited)
  }

  // ---------------------------------------------------------------------
  // The walk
  // ---------------------------------------------------------------------

  /** `[… <n> more]`. */
  function MoreMarker(n: nat): Text { [0x5B, 0x2026] + (Ascii(" ") + Decimal(n) + Ascii(" more]")) }

  /** What a value becomes at a depth below the objects in `ancestors`; `None` if
      it is left out. */
  function Walked(heap: Heap, input: Input, depth: nat, ancestors: seq<Ref>, rules: Rules): Option<Value>
    requires depth <= MAX_DEPTH
    decreases MAX_DEPTH - depth, 0
  {
    match input
    case Nothing => Some(Null)
    case Missing => None
    case Flag(b) => Some(Bool(b))
    case Number(token) => Some(Num(token))
    case NotFinite => Some(Null)
    case Big(digits) => Some(Str(digits))
    case String(s) => Some(Str(rules.scrub(s)))
    case Object(r) =>
      if r in ancestors then Some(Str(CIRCULAR))
      else if depth >= MAX_DEPTH then Some(Str(TOO_DEEP))
      else
        match heap(r)
        case List(items) => Some(Arr(WalkedList(heap, items, depth + 1, ancestors + [r], rules)))
        case Dict(entries) => Some(Obj(WalkedEntries(heap, entries, 0, [], |entries|, depth + 1, ancestors + [r], rules)))
        case Dated(iso) => Some(if iso.Some? then Str(iso.value) else Null)
        case Buffer(length) => Some(Str(BinaryMarker(length)))
        case Failure(_, _, _, own) =>
          Some(Obj(WalkedOwn(heap, own, FailureStart(heap(r), rules), depth + 1, ancestors + [r], rules)))
        case Converts(result) =>
          if result.Some? then Walked(heap, result.value, depth + 1, ancestors + [r], rules) else Some(Str(UNSERIALIZABLE))
  }

  /** `[Binary <n> bytes]`. */
  function BinaryMarker(n: nat): Text { Ascii("[Binary ") + Decimal(n) + Ascii(" bytes]") }

  /** The fields that every error starts with. */
  function FailureStart(e: Node, rules: Rules): seq<Field>
    requires e.Failure?
  {
    [Field(NAME, Str(e.name)), Field(MESSAGE, Str(rules.scrub(e.message)))]
    + if e.stack.Some? then [Field(STACK, Str(rules.scrub(e.stack.value)))] else []
  }

  /** The other keys of an error, behind the fields in `out`. A key that is left
      out is one whose value becomes undefined. */
  function WalkedOwn(heap: Heap, own: seq<Entry>, out: seq<Field>, depth: nat, ancestors: seq<Ref>, rules: Rules): seq<Field>
    requires depth <= MAX_DEPTH
    decreases MAX_DEPTH - depth, 1, |own|
  {
    if own == [] then out
    else
      var e, rest := own[0], own[1..];
      if rules.inherited(e.key) || Get(out, e.key).Some? then WalkedOwn(heap, rest, out, depth, ancestors, rules)
      else if rules.sensitive(e.key) then
        WalkedOwn(heap, rest, Set(out, e.key, Str(REDACTED)), depth, ancestors, rules)
      else
        match Walked(heap, e.value, depth, ancestors, rules)
        case None => WalkedOwn(heap, rest, out, depth, ancestors, rules)
        case Some(v) => WalkedOwn(heap, rest, Set(out, e.key, v), depth, ancestors, rules)
  }

  function OrNull(v: Option<Value>): Value { if v.Some? then v.value else Null }

  function WalkedItems(heap: Heap, items: seq<Input>, depth: nat, ancestors: seq<Ref>, rules: Rules): (r: seq<Value>)
    requires depth <= MAX_DEPTH
    ensures |r| == |items|
    decreases MAX_DEPTH - depth, 1, |items|
  {
    if items == [] then []
    else
      WalkedItems(heap, items[..|items|-1], depth, ancestors, rules)
      + [OrNull(Walked(heap, items[|items|-1], depth, ancestors, rules))]
  }

  function WalkedList(heap: Heap, items: seq<Input>, depth: nat, ancestors: seq<Ref>, rules: Rules): seq<Value>
    requires depth <= MAX_DEPTH
    decreases MAX_DEPTH - depth, 2
  {
    var limit := if |items| < MAX_ARRAY then |items| else MAX_ARRAY;
    WalkedItems(heap, items[..limit], depth, ancestors, rules)
    + if |items| > limit then [Str(MoreMarker(|items| - limit))] else []
  }

  /** The entries that are left, when `kept` of `total` are in `out`. */
  function WalkedEntries(heap: Heap, entries: seq<Entry>, kept: nat, out: seq<Field>, total: nat, depth: nat, ancestors: seq<Ref>,
                         rules: Rules): seq<Field>
    requires depth <= MAX_DEPTH && kept + |entries| <= total
    decreases MAX_DEPTH - depth, 1, |entries|
  {
    if entries == [] then out
    else if kept >= MAX_KEYS then Set(out, DROPPED_KEYS, Num(Decimal(total - kept)))
    else
      var e, rest := entries[0], entries[1..];
      if rules.sensitive(e.key) then
        WalkedEntries(heap, rest, kept + 1, Set(out, e.key, Str(REDACTED)), total, depth, ancestors, rules)
      else
        match Walked(heap, e.value, depth, ancestors, rules)
        case None => WalkedEntries(heap, rest, kept, out, total, depth, ancestors, rules)
        case Some(v) => WalkedEntries(heap, rest, kept + 1, Set(out, e.key, v), total, depth, ancestors, rules)
  }

  /** The walk with its explicit stack of ancestors. */
  class Walker {
    const heap: Heap
    const rules: Rules
    var ancestors: seq<Ref>

    constructor (heap: Heap, rules: Rules)
      ensures this.heap == heap && this.rules == rules && ancestors == []
    {
      this.heap, this.rules := heap, rules;
      ancestors := [];
    }

    method Walk(input: Input, depth: nat) returns (r: Option<Value>)
      requires depth <= MAX_DEPTH
      modifies this
      ensures r == Walked(heap, input, depth, old(ancestors), rules) && ancestors == old(ancestors)
      decreases MAX_DEPTH - depth, 0
    {
      match input {
        case Nothing => return Some(Null);
        case Missing => return None;
        case Flag(b) => return Some(Bool(b));
        case Number(token) => return Some(Num(token));
        case NotFinite => return Some(Null);
        case Big(digits) => return Some(Str(digits));
        case String(s) => return Some(Str(rules.scrub(s)));
        case Object(ref) =>
          if ref in ancestors { return Some(Str(CIRCULAR)); }
          if depth >= MAX_DEPTH { return Some(Str(TOO_DEEP)); }
          if heap(ref).Dated? { return Some(if heap(ref).iso.Some? then Str(heap(ref).iso.value) else Null); }
          if heap(ref).Buffer? { return Some(Str(BinaryMarker(heap(ref).length))); }
          ancestors := ancestors + [ref];
          match heap(ref) {
            case List(items) =>
              var out := WalkList(items, depth + 1);
              r := Some(Arr(out));
            case Dict(entries) =>
              var out := WalkDict(entries, depth + 1);
              r := Some(Obj(out));
            case Failure(_, _, _, own) =>
              var out := WalkFailure(heap(ref), depth + 1);
              r := Some(Obj(out));
            case Converts(result) =>
              if result.Some? { r := Walk(result.value, depth + 1); } else { r := Some(Str(UNSERIALIZABLE)); }
            case _ =>
          }
          ancestors := ancestors[..|ancestors|-1];
      }
    }

    method WalkList(list: seq<Input>, depth: nat) returns (out: seq<Value>)
      requires depth <= MAX_DEPTH
      modifies this
      ensures out == WalkedList(heap, list, depth, old(ancestors), rules) && ancestors == old(ancestors)
      decreases MAX_DEPTH - depth, 1
    {
      out := [];
      var limit := if |list| < MAX_ARRAY then |list| else MAX_ARRAY;
      var i := 0;
      while i < limit
        invariant i <= limit && ancestors == old(ancestors)
        invariant out == WalkedItems(heap, list[..i], depth, ancestors, rules)
      {
        assert list[..i + 1][..i] == list[..i];
        var v := Walk(list[i], depth);
        out := out + [if v == None then Null else v.value];
        i := i + 1;
      }
      if |list| > limit { out := out + [Str(MoreMarker(|list| - limit))]; }
    }

    method WalkFailure(e: Node, depth: nat) returns (out: seq<Field>)
      requires depth <= MAX_DEPTH && e.Failure?
      modifies this
      ensures out == WalkedOwn(heap, e.own, FailureStart(e, rules), depth, old(ancestors), rules) && ancestors == old(ancestors)
      decreases MAX_DEPTH - depth, 1
    {
      out := [Field(NAME, Str(e.name)), Field(MESSAGE, Str(rules.scrub(e.message)))];
      if e.stack.Some? { out := out + [Field(STACK, Str(rules.scrub(e.stack.value)))]; }
      assert out == FailureStart(e, rules) && e.own[0..] == e.own;
      var i := 0;
      while i < |e.own|
        invariant 0 <= i <= |e.own| && ancestors == old(ancestors)
        invariant WalkedOwn(heap, e.own[i..], out, depth, ancestors, rules)
                  == WalkedOwn(heap, e.own, FailureStart(e, rules), depth, ancestors, rules)
      {
        var f := e.own[i];
        assert e.own[i..][0] == f && e.own[i..][1..] == e.own[i + 1..];
        i := i + 1;
        if rules.inherited(f.key) || Get(out, f.key).Some? { continue; }
        if rules.sensitive(f.key) {
          out := Set(out, f.key, Str(REDACTED));
        } else {
          var v := Walk(f.value, depth);
          if v.Some? { out := Set(out, f.key, v.value); }
        }
      }
    }

    method WalkDict(entries: seq<Entry>, depth: nat) returns (out: seq<Field>)
      requires depth <= MAX_DEPTH
      modifies this
      ensures out == WalkedEntries(heap, entries, 0, [], |entries|, depth, old(ancestors), rules) && ancestors == old(ancestors)
      decreases MAX_DEPTH - depth, 1, 1
    {
      out := [];
      var kept, i := 0, 0;
      ghost var start, whole := ancestors, WalkedEntries(heap, entries, 0, [], |entries|, depth, ancestors, rules);
      assert entries[0..] == entries;
      while i < |entries|
        invariant 0 <= i <= |entries| && kept <= i && ancestors == start
        invariant WalkedEntries(heap, entries[i..], kept, out, |entries|, depth, start, rules) == whole
      {
        if kept >= MAX_KEYS {
          out := Set(out, DROPPED_KEYS, Num(Decimal(|entries| - kept)));
          return;
        }
        var e := entries[i];
        OneEntry(heap, entries, i, kept, out, depth, start, rules);
        var v := WalkEntry(e, depth);
        if v.Some? { out, kept := Set(out, e.key, v.value), kept + 1; }
        i := i + 1;
      }
    }

    /** The value of an entry, unless its key is sensitive. */
    method WalkEntry(e: Entry, depth: nat) returns (r: Option<Value>)
      requires depth <= MAX_DEPTH
      modifies this
      ensures r == Shown(heap, e, depth, old(ancestors), rules) && ancestors == old(ancestors)
      decreases MAX_DEPTH - depth, 1, 0
    {
      if rules.sensitive(e.key) { return Some(Str(REDACTED)); }
      r := Walk(e.value, depth);
    }
  }

  method Normalized(heap: Heap, input: Input, rules: Rules) returns (r: Option<Value>)
    ensures r == Walked(heap, input, 0, [], rules)
  {
    var walker := new Walker(heap, rules);
    r := walker.Walk(input, 0);
  }

  // ---------------------------------------------------------------------
  // What comes out
  // ---------------------------------------------------------------------

  /** At most `levels` containers deep, at most `width` elements or keys in each,
      and every sensitive key redacted. */
  predicate Tame(v: Value, levels: nat, width: nat, rules: Rules)
    decreases v
  {
    match v
    case Arr(items) =>
      levels > 0 && |items| <= width && forall i | 0 <= i < |items| :: Tame(items[i], levels - 1, width, rules)
    case Obj(fields) =>
      && levels > 0 && |fields| <= width
      && forall i | 0 <= i < |fields| :: Redacted(fields[i], rules) && Tame(fields[i].value, levels - 1, width, rules)
    case _ => true
  }

  /** The count of the keys that were dropped. */
  predicate IsMarker(f: Field) { f.key == DROPPED_KEYS && f.value.Num? }

  /** What every error shows of itself. */
  predicate IsErrorPart(f: Field) { (f.key == NAME || f.key == MESSAGE || f.key == STACK) && f.value.Str? }

  predicate Redacted(f: Field, rules: Rules) { rules.sensitive(f.key) ==> f.value == Str(REDACTED) || IsMarker(f) || IsErrorPart(f) }

  predicate TameField(f: Field, levels: nat, width: nat, rules: Rules) { Redacted(f, rules) && Tame(f.value, levels, width, rules) }

  predicate TameFields(fields: seq<Field>, levels: nat, width: nat, rules: Rules)
  {
    forall i | 0 <= i < |fields| :: TameField(fields[i], levels, width, rules)
  }

  /** Lists and dictionaries have at most 200 elements or keys and a marker, and
      no error has more than `width` fields. */
  ghost predicate Fits(heap: Heap, width: nat)
  {
    width > 200 && forall r: Ref :: heap(r).Failure? ==> |heap(r).own| + 3 <= width
  }

  lemma SetTame(out: seq<Field>, key: Text, v: Value, levels: nat, width: nat, rules: Rules)
    requires TameFields(out, levels, width, rules) && TameField(Field(key, v), levels, width, rules)
    ensures TameFields(Set(out, key, v), levels, width, rules) && |Set(out, key, v)| <= |out| + 1
  {
  }

  lemma ArrIsTame(items: seq<Value>, levels: nat, width: nat, rules: Rules)
    requires |items| <= width && forall i | 0 <= i < |items| :: Tame(items[i], levels, width, rules)
    ensures Tame(Arr(items), levels + 1, width, rules)
  {
  }

  lemma ObjIsTame(fields: seq<Field>, levels: nat, width: nat, rules: Rules)
    requires |fields| <= width && TameFields(fields, levels, width, rules)
    ensures Tame(Obj(fields), levels + 1, width, rules)
  {
    forall i | 0 <= i < |fields| ensures Redacted(fields[i], rules) && Tame(fields[i].value, levels, width, rules) {
      assert TameField(fields[i], levels, width, rules);
    }
  }

  /** What is tame is so with one more level. */
  lemma {:induction false} TameBelow(v: Value, levels: nat, width: nat, rules: Rules)
    requires Tame(v, levels, width, rules)
    ensures Tame(v, levels + 1, width, rules)
    decreases v
  {
    match v
    case Arr(items) =>
      forall i | 0 <= i < |items| ensures Tame(items[i], levels, width, rules) {
        TameBelow(items[i], levels - 1, width, rules);
      }
    case Obj(fields) =>
      forall i | 0 <= i < |fields| ensures Tame(fields[i].value, levels, width, rules) {
        TameBelow(fields[i].value, levels - 1, width, rules);
      }
    case _ =>
  }

  /** Whatever the heap holds, cyclic or not, what the walk gives is tame. */
  lemma {:induction false} WalkedIsTame(heap: Heap, input: Input, depth: nat, ancestors: seq<Ref>, width: nat, rules: Rules)
    requires depth <= MAX_DEPTH && Fits(heap, width)
    ensures var v := Walked(heap, input, depth, ancestors, rules); v.Some? ==> Tame(v.value, MAX_DEPTH - depth, width, rules)
    decreases MAX_DEPTH - depth, 0
  {
    if input.Object? && input.r !in ancestors && depth < MAX_DEPTH {
      var inner := ancestors + [input.r];
      match heap(input.r)
      case List(items) =>
        ListIsTame(heap, items, depth + 1, inner, width, rules);
        ArrIsTame(WalkedList(heap, items, depth + 1, inner, rules), MAX_DEPTH - depth - 1, width, rules);
      case Dict(entries) =>
        EntriesAreTame(heap, entries, 0, [], |entries|, depth + 1, inner, width, rules);
        ObjIsTame(WalkedEntries(heap, entries, 0, [], |entries|, depth + 1, inner, rules), MAX_DEPTH - depth - 1, width, rules);
      case Failure(_, _, _, own) =>
        OwnAreTame(heap, own, FailureStart(heap(input.r), rules), depth + 1, inner, width, rules);
        ObjIsTame(WalkedOwn(heap, own, FailureStart(heap(input.r), rules), depth + 1, inner, rules), MAX_DEPTH - depth - 1, width, rules);
      case Converts(result) => if result.Some? { ResultIsTame(heap, result.value, depth, inner, width, rules); }
      case _ =>
    }
  }

  lemma {:induction false} ResultIsTame(heap: Heap, input: Input, depth: nat, ancestors: seq<Ref>, width: nat, rules: Rules)
    requires depth < MAX_DEPTH && Fits(heap, width)
    ensures var v := Walked(heap, input, depth + 1, ancestors, rules); v.Some? ==> Tame(v.value, MAX_DEPTH - depth, width, rules)
    decreases MAX_DEPTH - depth - 1, 3
  {
    WalkedIsTame(heap, input, depth + 1, ancestors, width, rules);
    var v := Walked(heap, input, depth + 1, ancestors, rules);
    if v.Some? { TameBelow(v.value, MAX_DEPTH - depth - 1, width, rules); }
  }

  lemma {:induction false} ItemsAreTame(heap: Heap, items: seq<Input>, depth: nat, ancestors: seq<Ref>, width: nat, rules: Rules)
    requires depth <= MAX_DEPTH && Fits(heap, width)
    ensures forall i | 0 <= i < |items| :: Tame(WalkedItems(heap, items, depth, ancestors, rules)[i], MAX_DEPTH - depth, width, rules)
    decreases MAX_DEPTH - depth, 1, |items|
  {
    if items != [] {
      ItemsAreTame(heap, items[..|items|-1], depth, ancestors, width, rules);
      WalkedIsTame(heap, items[|items|-1], depth, ancestors, width, rules);
    }
  }

  lemma {:induction false} ListIsTame(heap: Heap, items: seq<Input>, depth: nat, ancestors: seq<Ref>, width: nat, rules: Rules)
    requires depth <= MAX_DEPTH && Fits(heap, width)
    ensures var r := WalkedList(heap, items, depth, ancestors, rules);
            |r| <= width && forall i | 0 <= i < |r| :: Tame(r[i], MAX_DEPTH - depth, width, rules)
    decreases MAX_DEPTH - depth, 2
  {
    var limit := if |items| < MAX_ARRAY then |items| else MAX_ARRAY;
    ItemsAreTame(heap, items[..limit], depth, ancestors, width, rules);
  }

  lemma {:induction false} EntriesAreTame(heap: Heap, entries: seq<Entry>, kept: nat, out: seq<Field>, total: nat, depth: nat,
                                          ancestors: seq<Ref>, width: nat, rules: Rules)
    requires depth <= MAX_DEPTH && kept + |entries| <= total && |out| <= kept <= MAX_KEYS && Fits(heap, width)
    requires TameFields(out, MAX_DEPTH - depth, width, rules)
    ensures var r := WalkedEntries(heap, entries, kept, out, total, depth, ancestors, rules);
            |r| <= width && TameFields(r, MAX_DEPTH - depth, width, rules)
    decreases MAX_DEPTH - depth, 1, |entries|
  {
    if entries != [] {
      var e, rest := entries[0], entries[1..];
      if kept >= MAX_KEYS {
        SetTame(out, DROPPED_KEYS, Num(Decimal(total - kept)), MAX_DEPTH - depth, width, rules);
      } else if rules.sensitive(e.key) {
        SetTame(out, e.key, Str(REDACTED), MAX_DEPTH - depth, width, rules);
        EntriesAreTame(heap, rest, kept + 1, Set(out, e.key, Str(REDACTED)), total, depth, ancestors, width, rules);
      } else {
        OpenIsTame(heap, entries, kept, out, total, depth, ancestors, width, rules);
      }
    }
  }

  lemma {:induction false} OpenIsTame(heap: Heap, entries: seq<Entry>, kept: nat, out: seq<Field>, total: nat, depth: nat,
                                      ancestors: seq<Ref>, width: nat, rules: Rules)
    requires depth <= MAX_DEPTH && kept + |entries| <= total && |out| <= kept < MAX_KEYS && Fits(heap, width)
    requires entries != [] && !rules.sensitive(entries[0].key) && TameFields(out, MAX_DEPTH - depth, width, rules)
    ensures var r := WalkedEntries(heap, entries, kept, out, total, depth, ancestors, rules);
            |r| <= width && TameFields(r, MAX_DEPTH - depth, width, rules)
    decreases MAX_DEPTH - depth, 1, |entries|, 0
  {
    var e, rest := entries[0], entries[1..];
    WalkedIsTame(heap, e.value, depth, ancestors, width, rules);
    match Walked(heap, e.value, depth, ancestors, rules)
    case None => EntriesAreTame(heap, rest, kept, out, total, depth, ancestors, width, rules);
    case Some(v) =>
      SetTame(out, e.key, v, MAX_DEPTH - depth, width, rules);
      EntriesAreTame(heap, rest, kept + 1, Set(out, e.key, v), total, depth, ancestors, width, rules);
  }

  lemma {:induction false} OwnAreTame(heap: Heap, own: seq<Entry>, out: seq<Field>, depth: nat, ancestors: seq<Ref>, width: nat,
                                      rules: Rules)
    requires depth <= MAX_DEPTH && Fits(heap, width) && |out| + |own| <= width
    requires TameFields(out, MAX_DEPTH - depth, width, rules)
    ensures var r := WalkedOwn(heap, own, out, depth, ancestors, rules); |r| <= width && TameFields(r, MAX_DEPTH - depth, width, rules)
    decreases MAX_DEPTH - depth, 1, |own|
  {
    if own != [] {
      var e, rest := own[0], own[1..];
      if rules.inherited(e.key) || Get(out, e.key).Some? {
        OwnAreTame(heap, rest, out, depth, ancestors, width, rules);
      } else if rules.sensitive(e.key) {
        SetTame(out, e.key, Str(REDACTED), MAX_DEPTH - depth, width, rules);
        OwnAreTame(heap, rest, Set(out, e.key, Str(REDACTED)), depth, ancestors, width, rules);
      } else {
        WalkedIsTame(heap, e.value, depth, ancestors, width, rules);
        match Walked(heap, e.value, depth, ancestors, rules)
        case None => OwnAreTame(heap, rest, out, depth, ancestors, width, rules);
        case Some(v) =>
          SetTame(out, e.key, v, MAX_DEPTH - depth, width, rules);
          OwnAreTame(heap, rest, Set(out, e.key, v), depth, ancestors, width, rules);
      }
    }
  }

  /** Normalization ends for every heap, and gives something tame. */
  lemma NormalizedIsTame(heap: Heap, input: Input, width: nat, rules: Rules)
    requires Fits(heap, width)
    ensures var v := Walked(heap, input, 0, [], rules); v.Some? ==> Tame(v.value, 10, width, rules)
  {
    WalkedIsTame(heap, input, 0, [], width, rules);
  }

  /** The limit of 200 keys does not hold for errors: all their own keys show. */
  lemma {:induction false} OwnKeysShow(heap: Heap, own: seq<Entry>, out: seq<Field>, depth: nat, ancestors: seq<Ref>, rules: Rules)
    requires depth <= MAX_DEPTH && forall i | 0 <= i < |own| :: own[i].value == Nothing && !rules.inherited(own[i].key)
    requires forall i, j | 0 <= i < j < |own| :: own[i].key != own[j].key
    requires forall i | 0 <= i < |own| :: Get(out, own[i].key) == None
    ensures |WalkedOwn(heap, own, out, depth, ancestors, rules)| == |out| + |own|
    decreases |own|
  {
    if own != [] {
      var e, rest := own[0], own[1..];
      var v := if rules.sensitive(e.key) then Str(REDACTED) else Null;
      forall i | 0 <= i < |rest| ensures Get(Set(out, e.key, v), rest[i].key) == None {
        assert rest[i] == own[i + 1];
        GetSet(out, e.key, v, rest[i].key);
      }
      OwnKeysShow(heap, rest, Set(out, e.key, v), depth, ancestors, rules);
    }
  }

  // ---------------------------------------------------------------------
  // Names
  // ---------------------------------------------------------------------

  /** Hyphens, underscores, dots and spaces. */
  predicate OnlySeparators(t: Text) { forall i | 0 <= i < |t| :: t[i] == 0x2D || t[i] == 0x5F || t[i] == 0x2E || t[i] == 0x20 }

  /** `t` with texts of separators before, between and after its units. */
  function Spaced(t: Text, gaps: seq<Text>): Text
    requires |gaps| == |t| + 1
  {
    if t == [] then gaps[0] else gaps[0] + ([t[0]] + Spaced(t[1..], gaps[1..]))
  }

  lemma {:induction false} SeparatorsGo(gap: Text, t: Text)
    requires OnlySeparators(gap)
    ensures WithoutSeparators(gap + t) == WithoutSeparators(t)
  {
    if gap == [] {
      assert gap + t == t;
    } else {
      assert (gap + t)[1..] == gap[1..] + t;
      SeparatorsGo(gap[1..], t);
    }
  }

  /** Separators anywhere in a name do not change its canonical form. */
  lemma {:induction false} SpacedIsSame(t: Text, gaps: seq<Text>)
    requires |gaps| == |t| + 1 && forall i | 0 <= i < |gaps| :: OnlySeparators(gaps[i])
    ensures WithoutSeparators(Spaced(t, gaps)) == WithoutSeparators(t)
  {
    if t == [] {
      assert gaps[0] + [] == gaps[0];
      SeparatorsGo(gaps[0], []);
    } else {
      var rest := Spaced(t[1..], gaps[1..]);
      SpacedIsSame(t[1..], gaps[1..]);
      SeparatorsGo(gaps[0], [t[0]] + rest);
      assert ([t[0]] + rest)[1..] == rest;
    }
  }

  /** An extra name is redacted in upper or lower case, and with separators
      anywhere in it. */
  lemma ExtraNamesCount(scrub: Text -> Text, lower: Text -> Text, redactKeys: set<Text>, inherited: Text -> bool,
                        name: Text, key: Text, gaps: seq<Text>)
    requires name in redactKeys && |gaps| == |lower(name)| + 1 && forall i | 0 <= i < |gaps| :: OnlySeparators(gaps[i])
    requires lower(key) == Spaced(lower(name), gaps)
    ensures RulesFor(scrub, lower, redactKeys, inherited).sensitive(key)
  {
    SpacedIsSame(lower(name), gaps);
  }

  /** A name in two parts with a separator between them. */
  lemma TwoParts(a: Text, b: Text)
    requires forall i | 0 <= i < |a| :: !IsSeparator(a[i])
    ensures WithoutSeparators([0x5F] + (a + b)) == a + WithoutSeparators(b)
  {
    SeparatorsGo([0x5F], a + b);
    PlainThen(a, b);
  }

  lemma MarkerParts()
    ensures DROPPED_KEYS == [0x5F] + (Ascii("watchup") + ([0x5F] + (Ascii("dropped") + ([0x5F] + (Ascii("keys") + [])))))
  {
  }

  lemma MarkerCanonical()
    ensures WithoutSeparators(DROPPED_KEYS) == Ascii("watchup") + (Ascii("dropped") + (Ascii("keys") + []))
  {
    MarkerParts();
    TwoParts(Ascii("keys"), []);
    TwoParts(Ascii("dropped"), [0x5F] + (Ascii("keys") + []));
    TwoParts(Ascii("watchup"), [0x5F] + (Ascii("dropped") + ([0x5F] + (Ascii("keys") + []))));
  }

  /** The names of headers, secrets and personal data that are always redacted. */
  const BUILT_IN: seq<string> :=
    ["authorization", "proxyauthorization", "cookie", "setcookie", "password", "passwd", "pwd", "secret", "clientsecret", "apikey",
     "xapikey", "apisecret", "privatekey", "sessiontoken", "creditcard", "cardnumber", "ccnumber", "cvv", "cvc", "ssn"]

  predicate IsLower(s: string) { forall j | 0 <= j < |s| :: 'a' <= s[j] <= 'z' }

  lemma BuiltInLower(i: nat)
    requires i < |BUILT_IN|
    ensures IsLower(BUILT_IN[i])
  {
  }

  lemma BuiltInName(i: nat)
    requires i < |BUILT_IN| && IsLower(BUILT_IN[i])
    ensures IsSensitiveName(Ascii(BUILT_IN[i]))
  {
  }

  /** A built-in name is redacted in upper or lower case and with separators
      anywhere in it, whatever the caller lists. */
  lemma BuiltInsAreSensitive(i: nat, scrub: Text -> Text, lower: Text -> Text, redactKeys: set<Text>, inherited: Text -> bool,
                             name: Text, key: Text, gaps: seq<Text>)
    requires i < |BUILT_IN| && |name| == |BUILT_IN[i]| && forall j | 0 <= j < |name| :: name[j] as int == BUILT_IN[i][j] as int
    requires |gaps| == |name| + 1 && forall j | 0 <= j < |gaps| :: OnlySeparators(gaps[j])
    requires lower(key) == Spaced(name, gaps)
    ensures RulesFor(scrub, lower, redactKeys, inherited).sensitive(key)
  {
    BuiltInLower(i);
    assert name == Ascii(BUILT_IN[i]);
    SpacedIsSame(name, gaps);
    PlainThen(name, []);
    assert name + [] == name;
    BuiltInName(i);
  }

  /** So is every name with one of these parts in it, or `token` at its end. */
  lemma PartsAreSensitive(a: Text, b: Text, scrub: Text -> Text, lower: Text -> Text, redactKeys: set<Text>, inherited: Text -> bool,
                          key: Text)
    requires var k := WithoutSeparators(lower(key));
             || k == a + Ascii("token") || k == a + Ascii("password") + b || k == a + Ascii("secret") + b
             || k == a + Ascii("credential") + b
    ensures RulesFor(scrub, lower, redactKeys, inherited).sensitive(key)
  {
    var k := WithoutSeparators(lower(key));
    if k == a + Ascii("password") + b {
      assert IsAt(k, Ascii("password"), |a|);
    } else if k == a + Ascii("secret") + b {
      assert IsAt(k, Ascii("secret"), |a|);
    } else if k == a + Ascii("credential") + b {
      assert IsAt(k, Ascii("credential"), |a|);
    }
  }

  lemma {:induction false} PlainThen(t: Text, more: Text)
    requires forall i | 0 <= i < |t| :: !IsSeparator(t[i])
    ensures WithoutSeparators(t + more) == t + WithoutSeparators(more)
  {
    if t == [] {
      assert t + more == more;
    } else {
      assert (t + more)[1..] == t[1..] + more;
      PlainThen(t[1..], more);
    }
  }

  lemma MarkerName()
    ensures Ascii("watchup") + (Ascii("dropped") + (Ascii("keys") + [])) == Ascii("watchupdroppedkeys")
  {
  }

  /** A name that starts with `w` is none of the listed ones. */
  lemma NotListed(k: Text)
    requires |k| >= 1 && k[0] == 0x77
    ensures !IsSensitiveName(k)
  {
    NotHeader(k);
    NotSecret(k);
    NotPersonal(k);
  }

  lemma NotHeader(k: Text)
    requires |k| >= 1 && k[0] == 0x77
    ensures !IsHeader(k)
  {
  }

  lemma NotSecret(k: Text)
    requires |k| >= 1 && k[0] == 0x77
    ensures !IsSecret(k)
  {
  }

  lemma NotPersonal(k: Text)
    requires |k| >= 1 && k[0] == 0x77
    ensures !IsPersonal(k)
  {
  }

  lemma MarkerUnits(k: Text)
    requires k == Ascii("watchupdroppedkeys")
    ensures |k| == 18 && k == [0x77, 0x61, 0x74, 0x63, 0x68, 0x75, 0x70, 0x64, 0x72, 0x6F, 0x70, 0x70, 0x65, 0x64, 0x6B, 0x65, 0x79, 0x73]
  {
  }

  /** Which units follow `p`, `s` and `c`. */
  lemma MarkerPairs(k: Text)
    requires |k| == 18 && k == [0x77, 0x61, 0x74, 0x63, 0x68, 0x75, 0x70, 0x64, 0x72, 0x6F, 0x70, 0x70, 0x65, 0x64, 0x6B, 0x65, 0x79, 0x73]
    ensures forall i | 0 <= i < 17 :: k[i] == 0x70 ==> k[i + 1] != 0x61
    ensures forall i | 0 <= i < 17 :: k[i] != 0x73
    ensures forall i | 0 <= i < 17 :: k[i] == 0x63 ==> k[i + 1] != 0x72
    ensures k[0] == 0x77 && k[17] == 0x73
  {
  }

  lemma NotToken(k: Text)
    requires |k| == 18 && k[17] == 0x73
    ensures !EndsWith(k, Ascii("token"))
  {
    var t := Ascii("token");
    assert t[4] == 0x6E && k[13..][4] == k[17];
  }

  lemma NotPassword(k: Text)
    requires |k| == 18 && forall i | 0 <= i < 17 :: k[i] == 0x70 ==> k[i + 1] != 0x61
    ensures !Includes(k, Ascii("password"))
  {
    assert Ascii("password")[0] == 0x70 && Ascii("password")[1] == 0x61;
    NotIn(k, Ascii("password"));
  }

  lemma NotIncluded(k: Text)
    requires |k| == 18 && (forall i | 0 <= i < 17 :: k[i] != 0x73) && forall i | 0 <= i < 17 :: k[i] == 0x63 ==> k[i + 1] != 0x72
    ensures !Includes(k, Ascii("secret")) && !Includes(k, Ascii("credential"))
  {
    assert Ascii("secret")[0] == 0x73 && Ascii("credential")[0] == 0x63 && Ascii("credential")[1] == 0x72;
    NotIn(k, Ascii("secret"));
    NotIn(k, Ascii("credential"));
  }

  /** No built-in name covers the marker's. */
  lemma MarkerIsNoSecret(k: Text)
    requires k == Ascii("watchupdroppedkeys")
    ensures !IsSensitiveName(k) && !EndsWith(k, Ascii("token"))
    ensures !Includes(k, Ascii("password")) && !Includes(k, Ascii("secret")) && !Includes(k, Ascii("credential"))
  {
    MarkerUnits(k);
    MarkerPairs(k);
    NotListed(k);
    NotToken(k);
    NotPassword(k);
    NotIncluded(k);
  }

  /** The first two units of `part` do not follow each other in `t`. */
  lemma NotIn(t: Text, part: Text)
    requires |part| >= 2 && forall i | 0 <= i < |t| - 1 :: t[i] == part[0] ==> t[i + 1] != part[1]
    ensures !Includes(t, part)
  {
    forall i: nat | i <= |t| ensures !IsAt(t, part, i) {
      if i + |part| <= |t| { assert t[i..i + |part|][0] == t[i] && t[i..i + |part|][1] == t[i + 1]; }
    }
  }

  /** The marker's name is sensitive exactly if the caller listed it; that is the
      only case in which a sensitive key is not redacted. */
  lemma MarkerIsSensitiveIff(scrub: Text -> Text, lower: Text -> Text, redactKeys: set<Text>, inherited: Text -> bool)
    requires lower(DROPPED_KEYS) == DROPPED_KEYS
    ensures RulesFor(scrub, lower, redactKeys, inherited).sensitive(DROPPED_KEYS)
            <==> exists name :: name in redactKeys && CanonicalKey(name, lower) == Ascii("watchupdroppedkeys")
  {
    MarkerCanonical();
    MarkerName();
    MarkerIsNoSecret(Ascii("watchupdroppedkeys"));
  }

  // ---------------------------------------------------------------------
  // Where everything in the result comes from
  // ---------------------------------------------------------------------

  /** What becomes undefined: it is left out of an object, and null in a list. */
  ghost predicate IsNothing(heap: Heap, input: Input, path: seq<Ref>)
    decreases MAX_DEPTH - |path|
  {
    || input == Missing
    || (input.Object? && input.r !in path && |path| < MAX_DEPTH && heap(input.r).Converts? && heap(input.r).result.Some?
        && IsNothing(heap, heap(input.r).result.value, path + [input.r]))
  }

  /** The entry gives a field. */
  ghost predicate Stays(heap: Heap, e: Entry, path: seq<Ref>, rules: Rules) { rules.sensitive(e.key) || !IsNothing(heap, e.value, path) }

  ghost function Staying(heap: Heap, entries: seq<Entry>, path: seq<Ref>, rules: Rules): (n: nat)
    ensures n <= |entries|
  {
    if entries == [] then 0
    else Staying(heap, entries[..|entries|-1], path, rules) + if Stays(heap, entries[|entries|-1], path, rules) then 1 else 0
  }

  /** Some entry has 200 before it that give a field. */
  ghost predicate Overfull(heap: Heap, entries: seq<Entry>, path: seq<Ref>, rules: Rules)
  {
    exists k :: 0 <= k < |entries| && Staying(heap, entries[..k], path, rules) >= 200
  }

  /** The count of the entries after the first 200, if there are any. */
  ghost function MarkerOf(heap: Heap, entries: seq<Entry>, path: seq<Ref>, rules: Rules): Option<Field>
  {
    if Overfull(heap, entries, path, rules) then Some(Field(DROPPED_KEYS, Num(Decimal(|entries| - 200)))) else None
  }

  /** Every entry that gives a field has one, unless 200 were before it, and the
      marker is there if it should be. */
  ghost predicate AllArrive(heap: Heap, entries: seq<Entry>, fields: seq<Field>, path: seq<Ref>, rules: Rules)
  {
    && (forall k | 0 <= k < |entries| && Stays(heap, entries[k], path, rules) && Staying(heap, entries[..k], path, rules) < 200 ::
          Get(fields, entries[k].key).Some?)
    && (Overfull(heap, entries, path, rules) ==> Get(fields, DROPPED_KEYS) == Some(Num(Decimal(|entries| - 200))))
  }

  /** Every own key of an error that gives a field has one. */
  ghost predicate AllOwnArrive(heap: Heap, own: seq<Entry>, fields: seq<Field>, path: seq<Ref>, rules: Rules)
  {
    forall k | 0 <= k < |own| && !rules.inherited(own[k].key) && Stays(heap, own[k], path, rules) :: Get(fields, own[k].key).Some?
  }

  /** No field takes the name of one that every object inherits. */
  predicate NoneInherited(fields: seq<Field>, rules: Rules) { forall i | 0 <= i < |fields| :: !rules.inherited(fields[i].key) }

  /** `v` is what an input becomes below the objects on `path`: a reference to an
      object on the path is cut, also if it goes round many corners; one below
      ten objects is cut too; every element of a list comes from the element at
      its place; every field of an object comes from an entry with its key, and
      every entry arrives, or is counted by the marker. */
  ghost predicate Unrolls(heap: Heap, input: Input, v: Value, path: seq<Ref>, rules: Rules)
    decreases v, MAX_DEPTH - |path|
  {
    match input
    case Nothing => v == Null
    case Missing => false
    case Flag(b) => v == Bool(b)
    case Number(token) => v == Num(token)
    case NotFinite => v == Null
    case Big(digits) => v == Str(digits)
    case String(s) => v == Str(rules.scrub(s))
    case Object(r) =>
      if r in path then v == Str(CIRCULAR)
      else if |path| >= 10 then v == Str(TOO_DEEP)
      else
        match heap(r)
        case List(items) =>
          && v.Arr? && |v.items| == (if |items| > 200 then 201 else |items|)
          && (|items| > 200 ==> v.items[200] == Str(MoreMarker(|items| - 200)))
          && forall i | 0 <= i < |v.items| && i < 200 ::
               Unrolls(heap, items[i], v.items[i], path + [r], rules) || (IsNothing(heap, items[i], path + [r]) && v.items[i] == Null)
        case Dict(entries) => 
          && v.Obj? && AllComeFrom(heap, entries, v.fields, path + [r], rules, MarkerOf(heap, entries, path + [r], rules))
          && AllArrive(heap, entries, v.fields, path + [r], rules)
        case Dated(iso) => v == if iso.Some? then Str(iso.value) else Null
        case Buffer(length) => v == Str(BinaryMarker(length))
        case Failure(_, _, _, own) =>
          var start := FailureStart(heap(r), rules);
          && v.Obj? && start <= v.fields && AllComeFrom(heap, own, v.fields[|start|..], path + [r], rules, None)
          && AllOwnArrive(heap, own, v.fields, path + [r], rules) && NoneInherited(v.fields[|start|..], rules)
        case Converts(result) =>
          if result.Some? then Unrolls(heap, result.value, v, path + [r], rules) else v == Str(UNSERIALIZABLE)
  }

  ghost predicate AllComeFrom(heap: Heap, entries: seq<Entry>, fields: seq<Field>, path: seq<Ref>, rules: Rules,
                              marker: Option<Field>)
    decreases fields
  {
    forall i | 0 <= i < |fields| :: FieldComesFrom(heap, entries, fields[i], path, rules) || marker == Some(fields[i])
  }

  ghost predicate FieldComesFrom(heap: Heap, entries: seq<Entry>, f: Field, path: seq<Ref>, rules: Rules)
    decreases f
  {
    exists k :: 0 <= k < |entries| && entries[k].key == f.key
      && if rules.sensitive(f.key) then f.value == Str(REDACTED) else Unrolls(heap, entries[k].value, f.value, path, rules)
  }

  lemma {:induction false} WalkedUnrolls(heap: Heap, input: Input, path: seq<Ref>, rules: Rules)
    requires |path| <= MAX_DEPTH
    ensures var v := Walked(heap, input, |path|, path, rules);
            (v == None <==> IsNothing(heap, input, path)) && (v.Some? ==> Unrolls(heap, input, v.value, path, rules))
    decreases MAX_DEPTH - |path|, 0
  {
    if input.Object? && input.r !in path && |path| < MAX_DEPTH {
      if heap(input.r).Converts? {
        ResultUnrolls(heap, input.r, path, rules);
      } else {
        NodeUnrolls(heap, input.r, path, rules);
      }
    }
  }

  lemma {:induction false} ResultUnrolls(heap: Heap, r: Ref, path: seq<Ref>, rules: Rules)
    requires |path| < MAX_DEPTH && r !in path && heap(r).Converts?
    ensures var v := Walked(heap, Object(r), |path|, path, rules);
            (v == None <==> IsNothing(heap, Object(r), path)) && (v.Some? ==> Unrolls(heap, Object(r), v.value, path, rules))
    decreases MAX_DEPTH - |path| - 1, 4
  {
    if heap(r).result.Some? { WalkedUnrolls(heap, heap(r).result.value, path + [r], rules); }
  }

  lemma {:induction false} NodeUnrolls(heap: Heap, r: Ref, path: seq<Ref>, rules: Rules)
    requires |path| < MAX_DEPTH && r !in path && !heap(r).Converts?
    ensures var v := Walked(heap, Object(r), |path|, path, rules); v.Some? && Unrolls(heap, Object(r), v.value, path, rules)
    decreases MAX_DEPTH - |path| - 1, 4
  {
    match heap(r)
    case List(items) => ListUnrolls(heap, items, path + [r], rules);
    case Dict(entries) => DictUnrolls(heap, r, path, rules);
    case Failure(_, _, _, own) => FailureUnrolls(heap, r, path, rules);
    case _ =>
  }

  lemma {:induction false} DictUnrolls(heap: Heap, r: Ref, path: seq<Ref>, rules: Rules)
    requires |path| < MAX_DEPTH && r !in path && heap(r).Dict?
    ensures var inner, entries := path + [r], heap(r).entries;
            var out := WalkedEntries(heap, entries, 0, [], |entries|, |inner|, inner, rules);
            && AllComeFrom(heap, entries, out, inner, rules, MarkerOf(heap, entries, inner, rules))
            && AllArrive(heap, entries, out, inner, rules)
    decreases MAX_DEPTH - |path| - 1, 3
  {
    assert heap(r).entries[0..] == heap(r).entries && heap(r).entries[..0] == [];
    EntriesUnroll(heap, heap(r).entries, 0, 0, [], path + [r], rules);
  }

  lemma {:induction false} FailureUnrolls(heap: Heap, r: Ref, path: seq<Ref>, rules: Rules)
    requires |path| < MAX_DEPTH && r !in path && heap(r).Failure?
    ensures var inner, start := path + [r], FailureStart(heap(r), rules);
            var out := WalkedOwn(heap, heap(r).own, start, |inner|, inner, rules);
            && start <= out && AllComeFrom(heap, heap(r).own, out[|start|..], inner, rules, None)
            && AllOwnArrive(heap, heap(r).own, out, inner, rules) && NoneInherited(out[|start|..], rules)
    decreases MAX_DEPTH - |path| - 1, 3
  {
    var start := FailureStart(heap(r), rules);
    assert heap(r).own[0..] == heap(r).own && start[|start|..] == [] && start[..|start|] == start;
    OwnUnroll(heap, heap(r).own, 0, start, |start|, path + [r], rules);
  }

  lemma {:induction false} ListUnrolls(heap: Heap, items: seq<Input>, path: seq<Ref>, rules: Rules)
    requires |path| <= MAX_DEPTH
    ensures var r := WalkedList(heap, items, |path|, path, rules);
            && |r| == (if |items| > MAX_ARRAY then MAX_ARRAY + 1 else |items|)
            && (|items| > MAX_ARRAY ==> r[MAX_ARRAY] == Str(MoreMarker(|items| - MAX_ARRAY)))
            && forall i | 0 <= i < |r| && i < MAX_ARRAY ::
                 Unrolls(heap, items[i], r[i], path, rules) || (IsNothing(heap, items[i], path) && r[i] == Null)
    decreases MAX_DEPTH - |path|, 2
  {
    ItemsUnroll(heap, items[..if |items| < MAX_ARRAY then |items| else MAX_ARRAY], path, rules);
  }

  lemma {:induction false} ItemsUnroll(heap: Heap, items: seq<Input>, path: seq<Ref>, rules: Rules)
    requires |path| <= MAX_DEPTH
    ensures var r := WalkedItems(heap, items, |path|, path, rules);
            forall i | 0 <= i < |r| :: Unrolls(heap, items[i], r[i], path, rules) || (IsNothing(heap, items[i], path) && r[i] == Null)
    decreases MAX_DEPTH - |path|, 1, |items|
  {
    if items != [] {
      ItemsUnroll(heap, items[..|items|-1], path, rules);
      WalkedUnrolls(heap, items[|items|-1], path, rules);
    }
  }

  lemma SetComesFrom(heap: Heap, entries: seq<Entry>, out: seq<Field>, f: Field, path: seq<Ref>, rules: Rules, marker: Option<Field>)
    requires FieldComesFrom(heap, entries, f, path, rules) || marker == Some(f)
    requires AllComeFrom(heap, entries, out, path, rules, marker)
    ensures AllComeFrom(heap, entries, Set(out, f.key, f.value), path, rules, marker)
  {
    assert Field(f.key, f.value) == f;
  }

  lemma EntryIs(heap: Heap, entries: seq<Entry>, n: nat, v: Value, path: seq<Ref>, rules: Rules)
    requires n < |entries|
    requires if rules.sensitive(entries[n].key) then v == Str(REDACTED) else Unrolls(heap, entries[n].value, v, path, rules)
    ensures FieldComesFrom(heap, entries, Field(entries[n].key, v), path, rules)
  {
  }

  /** What the loop over the entries makes of one: a field or nothing. */
  function Shown(heap: Heap, e: Entry, depth: nat, path: seq<Ref>, rules: Rules): Option<Value>
    requires depth <= MAX_DEPTH
  {
    if rules.sensitive(e.key) then Some(Str(REDACTED)) else Walked(heap, e.value, depth, path, rules)
  }

  /** One turn of the loop over the entries. */
  lemma OneEntry(heap: Heap, entries: seq<Entry>, n: nat, kept: nat, out: seq<Field>, depth: nat, path: seq<Ref>, rules: Rules)
    requires depth <= MAX_DEPTH && kept <= n < |entries| && kept < MAX_KEYS
    ensures var w := Shown(heap, entries[n], depth, path, rules);
            WalkedEntries(heap, entries[n..], kept, out, |entries|, depth, path, rules) ==
            if w == None then WalkedEntries(heap, entries[n + 1..], kept, out, |entries|, depth, path, rules)
            else WalkedEntries(heap, entries[n + 1..], kept + 1, Set(out, entries[n].key, w.value), |entries|, depth, path, rules)
  {
    assert entries[n..][0] == entries[n] && entries[n..][1..] == entries[n + 1..];
  }

  lemma {:induction false} StayingGrows(heap: Heap, entries: seq<Entry>, i: nat, j: nat, path: seq<Ref>, rules: Rules)
    requires i <= j <= |entries|
    ensures Staying(heap, entries[..i], path, rules) <= Staying(heap, entries[..j], path, rules)
  {
    if i < j {
      assert entries[..j][..j - 1] == entries[..j - 1];
      StayingGrows(heap, entries, i, j - 1, path, rules);
    }
  }

  lemma StayingNext(heap: Heap, entries: seq<Entry>, n: nat, path: seq<Ref>, rules: Rules)
    requires n < |entries|
    ensures Staying(heap, entries[..n + 1], path, rules)
            == Staying(heap, entries[..n], path, rules) + if Stays(heap, entries[n], path, rules) then 1 else 0
  {
    assert entries[..n + 1][..n] == entries[..n];
  }

  /** What the loop has done after n entries. */
  ghost predicate Done(heap: Heap, entries: seq<Entry>, n: nat, kept: nat, out: seq<Field>, path: seq<Ref>, rules: Rules)
  {
    && n <= |entries| && kept <= n && kept == Staying(heap, entries[..n], path, rules) <= 200
    && (n > 0 ==> Staying(heap, entries[..n - 1], path, rules) < 200)
    && (forall k | 0 <= k < n && Stays(heap, entries[k], path, rules) :: Get(out, entries[k].key).Some?)
  }

  lemma SetArrives(heap: Heap, entries: seq<Entry>, n: nat, out: seq<Field>, key: Text, v: Value, path: seq<Ref>, rules: Rules)
    requires n <= |entries| && forall k | 0 <= k < n && Stays(heap, entries[k], path, rules) :: Get(out, entries[k].key).Some?
    ensures forall k | 0 <= k < n && Stays(heap, entries[k], path, rules) :: Get(Set(out, key, v), entries[k].key).Some?
    ensures Get(Set(out, key, v), key) == Some(v)
  {
    forall k | 0 <= k < n ensures Get(out, entries[k].key).Some? ==> Get(Set(out, key, v), entries[k].key).Some? {
      GetSet(out, key, v, entries[k].key);
    }
    GetSet(out, key, v, key);
  }

  /** All entries are done: no marker is due. */
  lemma DoneArrives(heap: Heap, entries: seq<Entry>, kept: nat, out: seq<Field>, path: seq<Ref>, rules: Rules)
    requires Done(heap, entries, |entries|, kept, out, path, rules)
    ensures AllArrive(heap, entries, out, path, rules)
  {
    if Overfull(heap, entries, path, rules) {
      var k :| 0 <= k < |entries| && Staying(heap, entries[..k], path, rules) >= 200;
      StayingGrows(heap, entries, k, |entries| - 1, path, rules);
      assert false;
    }
  }

  /** 200 entries gave a field and another one is left: the marker is due. */
  lemma FullArrives(heap: Heap, entries: seq<Entry>, n: nat, out: seq<Field>, path: seq<Ref>, rules: Rules)
    requires Done(heap, entries, n, 200, out, path, rules) && n < |entries|
    ensures AllArrive(heap, entries, Set(out, DROPPED_KEYS, Num(Decimal(|entries| - 200))), path, rules)
    ensures MarkerOf(heap, entries, path, rules) == Some(Field(DROPPED_KEYS, Num(Decimal(|entries| - 200))))
  {
    SetArrives(heap, entries, n, out, DROPPED_KEYS, Num(Decimal(|entries| - 200)), path, rules);
    forall k | n <= k < |entries| ensures Staying(heap, entries[..k], path, rules) >= 200 {
      StayingGrows(heap, entries, n, k, path, rules);
    }
    assert Staying(heap, entries[..n], path, rules) >= 200;
  }

  lemma DoneNext(heap: Heap, entries: seq<Entry>, n: nat, kept: nat, out: seq<Field>, w: Option<Value>, path: seq<Ref>, rules: Rules)
    requires Done(heap, entries, n, kept, out, path, rules) && n < |entries| && kept < 200
    requires w.Some? <==> Stays(heap, entries[n], path, rules)
    ensures if w == None then Done(heap, entries, n + 1, kept, out, path, rules)
            else Done(heap, entries, n + 1, kept + 1, Set(out, entries[n].key, w.value), path, rules)
  {
    StayingNext(heap, entries, n, path, rules);
    if w.Some? { SetArrives(heap, entries, n, out, entries[n].key, w.value, path, rules); }
  }

  lemma {:induction false} EntriesUnroll(heap: Heap, entries: seq<Entry>, n: nat, kept: nat, out: seq<Field>, path: seq<Ref>, rules: Rules)
    requires |path| <= MAX_DEPTH && Done(heap, entries, n, kept, out, path, rules)
    requires AllComeFrom(heap, entries, out, path, rules, MarkerOf(heap, entries, path, rules))
    ensures var r := WalkedEntries(heap, entries[n..], kept, out, |entries|, |path|, path, rules);
            AllComeFrom(heap, entries, r, path, rules, MarkerOf(heap, entries, path, rules)) && AllArrive(heap, entries, r, path, rules)
    decreases MAX_DEPTH - |path|, 1, |entries| - n
  {
    if n == |entries| {
      DoneArrives(heap, entries, kept, out, path, rules);
    } else if kept >= MAX_KEYS {
      FullArrives(heap, entries, n, out, path, rules);
      SetComesFrom(heap, entries, out, Field(DROPPED_KEYS, Num(Decimal(|entries| - 200))), path, rules,
                   MarkerOf(heap, entries, path, rules));
    } else {
      OpenEntry(heap, entries, n, kept, out, path, rules);
    }
  }

  lemma {:induction false} ShownIs(heap: Heap, entries: seq<Entry>, n: nat, path: seq<Ref>, rules: Rules)
    requires |path| <= MAX_DEPTH && n < |entries|
    ensures var w := Shown(heap, entries[n], |path|, path, rules);
            && (w.Some? <==> Stays(heap, entries[n], path, rules))
            && (w.Some? ==> FieldComesFrom(heap, entries, Field(entries[n].key, w.value), path, rules))
    decreases MAX_DEPTH - |path|, 1, 0
  {
    WalkedUnrolls(heap, entries[n].value, path, rules);
    var w := Shown(heap, entries[n], |path|, path, rules);
    if w.Some? { EntryIs(heap, entries, n, w.value, path, rules); }
  }

  lemma {:induction false} OpenEntry(heap: Heap, entries: seq<Entry>, n: nat, kept: nat, out: seq<Field>, path: seq<Ref>, rules: Rules)
    requires |path| <= MAX_DEPTH && Done(heap, entries, n, kept, out, path, rules) && n < |entries| && kept < 200
    requires AllComeFrom(heap, entries, out, path, rules, MarkerOf(heap, entries, path, rules))
    ensures var r := WalkedEntries(heap, entries[n..], kept, out, |entries|, |path|, path, rules);
            AllComeFrom(heap, entries, r, path, rules, MarkerOf(heap, entries, path, rules)) && AllArrive(heap, entries, r, path, rules)
    decreases MAX_DEPTH - |path|, 1, |entries| - n, 0
  {
    var w, e := Shown(heap, entries[n], |path|, path, rules), entries[n];
    ShownIs(heap, entries, n, path, rules);
    OneEntry(heap, entries, n, kept, out, |path|, path, rules);
    DoneNext(heap, entries, n, kept, out, w, path, rules);
    if w == None {
      EntriesUnroll(heap, entries, n + 1, kept, out, path, rules);
    } else {
      SetComesFrom(heap, entries, out, Field(e.key, w.value), path, rules, MarkerOf(heap, entries, path, rules));
      EntriesUnroll(heap, entries, n + 1, kept + 1, Set(out, e.key, w.value), path, rules);
    }
  }

  lemma OwnGrows(heap: Heap, own: seq<Entry>, out: seq<Field>, n: nat, f: Field, path: seq<Ref>, rules: Rules)
    requires n <= |out| && AllComeFrom(heap, own, out[n..], path, rules, None) && FieldComesFrom(heap, own, f, path, rules)
    requires Get(out, f.key) == None
    ensures Set(out, f.key, f.value) == out + [f] && AllComeFrom(heap, own, (out + [f])[n..], path, rules, None)
    ensures (out + [f])[..n] == out[..n]
  {
    assert (out + [f])[n..] == out[n..] + [f];
  }

  /** One turn of the loop over the own keys of an error. */
  lemma OneOwn(heap: Heap, own: seq<Entry>, k: nat, out: seq<Field>, depth: nat, path: seq<Ref>, rules: Rules)
    requires depth <= MAX_DEPTH && k < |own|
    ensures var e := own[k];
            var w := Shown(heap, e, depth, path, rules);
            WalkedOwn(heap, own[k..], out, depth, path, rules) ==
            if rules.inherited(e.key) || Get(out, e.key).Some? || w == None then WalkedOwn(heap, own[k + 1..], out, depth, path, rules)
            else WalkedOwn(heap, own[k + 1..], Set(out, e.key, w.value), depth, path, rules)
  {
    assert own[k..][0] == own[k] && own[k..][1..] == own[k + 1..];
  }

  /** The first k own keys have arrived. */
  ghost predicate OwnDone(heap: Heap, own: seq<Entry>, k: nat, out: seq<Field>, path: seq<Ref>, rules: Rules)
  {
    forall j | 0 <= j < k <= |own| && !rules.inherited(own[j].key) && Stays(heap, own[j], path, rules) :: Get(out, own[j].key).Some?
  }

  lemma OwnDoneNext(heap: Heap, own: seq<Entry>, k: nat, out: seq<Field>, v: Value, path: seq<Ref>, rules: Rules)
    requires k < |own| && OwnDone(heap, own, k, out, path, rules)
    ensures OwnDone(heap, own, k + 1, Set(out, own[k].key, v), path, rules)
  {
    forall j | 0 <= j <= k ensures j == k || Get(out, own[j].key).Some? ==> Get(Set(out, own[k].key, v), own[j].key).Some? {
      GetSet(out, own[k].key, v, own[j].key);
    }
  }

  lemma {:induction false} OwnUnroll(heap: Heap, own: seq<Entry>, k: nat, out: seq<Field>, n: nat, path: seq<Ref>, rules: Rules)
    requires |path| <= MAX_DEPTH && k <= |own| && n <= |out| && AllComeFrom(heap, own, out[n..], path, rules, None)
    requires OwnDone(heap, own, k, out, path, rules) && NoneInherited(out[n..], rules)
    ensures var r := WalkedOwn(heap, own[k..], out, |path|, path, rules);
            && n <= |r| && r[..n] == out[..n] && AllComeFrom(heap, own, r[n..], path, rules, None)
            && AllOwnArrive(heap, own, r, path, rules) && NoneInherited(r[n..], rules)
    decreases MAX_DEPTH - |path|, 1, |own| - k
  {
    if k < |own| {
      var e := own[k];
      OneOwn(heap, own, k, out, |path|, path, rules);
      ShownIs(heap, own, k, path, rules);
      var w := Shown(heap, e, |path|, path, rules);
      if rules.inherited(e.key) || Get(out, e.key).Some? || w == None {
        OwnUnroll(heap, own, k + 1, out, n, path, rules);
      } else {
        OwnGrows(heap, own, out, n, Field(e.key, w.value), path, rules);
        assert (out + [Field(e.key, w.value)])[n..] == out[n..] + [Field(e.key, w.value)];
        OwnDoneNext(heap, own, k, out, w.value, path, rules);
        OwnUnroll(heap, own, k + 1, out + [Field(e.key, w.value)], n, path, rules);
      }
    }
  }

  /** For every heap the result unrolls the input: cycles of any length are cut
      where they come back to an object that is being walked, and nowhere else. */
  lemma CyclesAreCut(heap: Heap, input: Input, rules: Rules)
    ensures var v := Walked(heap, input, 0, [], rules);
            (v == None <==> IsNothing(heap, input, [])) && (v.Some? ==> Unrolls(heap, input, v.value, [], rules))
  {
    WalkedUnrolls(heap, input, [], rules);
  }

  lemma {:induction false} GotAt(fields: seq<Field>, key: Text) returns (i: nat)
    requires Get(fields, key).Some?
    ensures i < |fields| && fields[i] == Field(key, Get(fields, key).value)
  {
    i := |fields| - 1;
    if fields[i].key != key { i := GotAt(fields[..i], key); }
  }

  /** So with keys that are all different, each of the first 200 entries that give
      a field is under its key: redacted, or unrolled. */
  lemma EntryShows(heap: Heap, r: Ref, v: Value, path: seq<Ref>, rules: Rules, k: nat)
    requires heap(r).Dict? && r !in path && |path| < MAX_DEPTH && Unrolls(heap, Object(r), v, path, rules) && k < |heap(r).entries|
    requires forall i, j | 0 <= i < j < |heap(r).entries| :: heap(r).entries[i].key != heap(r).entries[j].key
    requires Stays(heap, heap(r).entries[k], path + [r], rules) && Staying(heap, heap(r).entries[..k], path + [r], rules) < 200
    requires heap(r).entries[k].key != DROPPED_KEYS
    ensures var e := heap(r).entries[k];
            && v.Obj? && Get(v.fields, e.key).Some?
            && if rules.sensitive(e.key) then Get(v.fields, e.key).value == Str(REDACTED)
               else Unrolls(heap, e.value, Get(v.fields, e.key).value, path + [r], rules)
  {
    var entries := heap(r).entries;
    var i := GotAt(v.fields, entries[k].key);
    assert FieldComesFrom(heap, entries, v.fields[i], path + [r], rules);
  }

  // ---------------------------------------------------------------------
  // Trees within the limits
  // ---------------------------------------------------------------------

  /** `input` is the JSON tree `v`, with no object inside itself. */
  ghost predicate Shows(heap: Heap, input: Input, v: Value, ancestors: seq<Ref>)
    decreases v
  {
    match v
    case Null => input == Nothing
    case Bool(b) => input == Flag(b)
    case Num(token) => input == Number(token)
    case Str(s) => input == String(s)
    case Arr(items) =>
      && input.Object? && input.r !in ancestors && heap(input.r).List? && |heap(input.r).items| == |items|
      && forall i | 0 <= i < |items| :: Shows(heap, heap(input.r).items[i], items[i], ancestors + [input.r])
    case Obj(fields) =>
      && input.Object? && input.r !in ancestors && heap(input.r).Dict? && |heap(input.r).entries| == |fields|
      && forall i | 0 <= i < |fields| ::
           heap(input.r).entries[i].key == fields[i].key
           && Shows(heap, heap(input.r).entries[i].value, fields[i].value, ancestors + [input.r])
  }

  /** At most `levels` deep and 200 wide, without a sensitive or repeated key. */
  predicate InLimits(v: Value, levels: nat, rules: Rules)
    decreases v
  {
    match v
    case Arr(items) => levels > 0 && |items| <= MAX_ARRAY && forall i | 0 <= i < |items| :: InLimits(items[i], levels - 1, rules)
    case Obj(fields) =>
      && levels > 0 && |fields| <= MAX_KEYS && Unique(fields)
      && forall i | 0 <= i < |fields| :: !rules.sensitive(fields[i].key) && InLimits(fields[i].value, levels - 1, rules)
    case _ => true
  }

  /** The scrubber mapped over the strings of a tree. */
  function Scrubbed(v: Value, rules: Rules): Value
    decreases v, 0
  {
    match v
    case Str(s) => Str(rules.scrub(s))
    case Arr(items) => Arr(ScrubbedAll(items, rules))
    case Obj(fields) => Obj(ScrubbedFields(fields, rules))
    case _ => v
  }

  function ScrubbedAll(items: seq<Value>, rules: Rules): (r: seq<Value>)
    ensures |r| == |items| && forall i | 0 <= i < |items| :: r[i] == Scrubbed(items[i], rules)
    decreases items, 0
  {
    if items == [] then [] else [Scrubbed(items[0], rules)] + ScrubbedAll(items[1..], rules)
  }

  function ScrubbedFields(fields: seq<Field>, rules: Rules): (r: seq<Field>)
    ensures |r| == |fields| && forall i | 0 <= i < |fields| :: r[i] == Field(fields[i].key, Scrubbed(fields[i].value, rules))
    decreases fields, 0
  {
    if fields == [] then [] else [Field(fields[0].key, Scrubbed(fields[0].value, rules))] + ScrubbedFields(fields[1..], rules)
  }

  /** A tree within the limits comes out as it is, with its strings scrubbed. */
  lemma {:induction false} TreesAreKept(heap: Heap, input: Input, v: Value, depth: nat, ancestors: seq<Ref>, rules: Rules)
    requires depth <= MAX_DEPTH && Shows(heap, input, v, ancestors) && InLimits(v, MAX_DEPTH - depth, rules)
    ensures Walked(heap, input, depth, ancestors, rules) == Some(Scrubbed(v, rules))
    decreases v
  {
    match v
    case Arr(items) => ArrayIsKept(heap, input, items, depth, ancestors, rules);
    case Obj(fields) => ObjectIsKept(heap, input, fields, depth, ancestors, rules);
    case _ =>
  }

  lemma {:induction false} ArrayIsKept(heap: Heap, input: Input, items: seq<Value>, depth: nat, ancestors: seq<Ref>, rules: Rules)
    requires depth <= MAX_DEPTH && Shows(heap, input, Arr(items), ancestors) && InLimits(Arr(items), MAX_DEPTH - depth, rules)
    ensures Walked(heap, input, depth, ancestors, rules) == Some(Scrubbed(Arr(items), rules))
    decreases items
  {
    var inputs, inner := heap(input.r).items, ancestors + [input.r];
    forall i | 0 <= i < |items| ensures Walked(heap, inputs[i], depth + 1, inner, rules) == Some(Scrubbed(items[i], rules)) {
      TreesAreKept(heap, inputs[i], items[i], depth + 1, inner, rules);
    }
    ItemsAreKept(heap, inputs, items, depth + 1, inner, rules);
    assert inputs[..|inputs|] == inputs;
    assert ScrubbedAll(items, rules) + [] == ScrubbedAll(items, rules);
  }

  lemma {:induction false} ItemsAreKept(heap: Heap, inputs: seq<Input>, items: seq<Value>, depth: nat, ancestors: seq<Ref>, rules: Rules)
    requires depth <= MAX_DEPTH && |inputs| == |items|
    requires forall i | 0 <= i < |items| :: Walked(heap, inputs[i], depth, ancestors, rules) == Some(Scrubbed(items[i], rules))
    ensures WalkedItems(heap, inputs, depth, ancestors, rules) == ScrubbedAll(items, rules)
    decreases |items|
  {
    if items != [] {
      var n := |items| - 1;
      ItemsAreKept(heap, inputs[..n], items[..n], depth, ancestors, rules);
      ScrubPush(items, rules);
    }
  }

  lemma {:induction false} ObjectIsKept(heap: Heap, input: Input, fields: seq<Field>, depth: nat, ancestors: seq<Ref>, rules: Rules)
    requires depth <= MAX_DEPTH && Shows(heap, input, Obj(fields), ancestors) && InLimits(Obj(fields), MAX_DEPTH - depth, rules)
    ensures Walked(heap, input, depth, ancestors, rules) == Some(Scrubbed(Obj(fields), rules))
    decreases fields
  {
    var entries, inner := heap(input.r).entries, ancestors + [input.r];
    forall i | 0 <= i < |fields|
      ensures Walked(heap, entries[i].value, depth + 1, inner, rules) == Some(Scrubbed(fields[i].value, rules))
    {
      TreesAreKept(heap, entries[i].value, fields[i].value, depth + 1, inner, rules);
    }
    EntriesAreKept(heap, entries, fields, 0, depth + 1, inner, rules);
    assert entries[0..] == entries && fields[..0] == [] && ScrubbedFields([], rules) == [];
  }

  lemma SetNext(fields: seq<Field>, i: nat, rules: Rules)
    requires i < |fields| && Unique(fields)
    ensures Set(ScrubbedFields(fields[..i], rules), fields[i].key, Scrubbed(fields[i].value, rules))
            == ScrubbedFields(fields[..i + 1], rules)
  {
    var out, more := ScrubbedFields(fields[..i], rules), ScrubbedFields(fields[..i + 1], rules);
    var f := Field(fields[i].key, Scrubbed(fields[i].value, rules));
    GetIs(out, fields[i].key);
    forall k | 0 <= k < |more| ensures more[k] == (out + [f])[k] { }
    assert more == out + [f];
  }

  lemma ScrubPush(items: seq<Value>, rules: Rules)
    requires items != []
    ensures ScrubbedAll(items, rules) == ScrubbedAll(items[..|items|-1], rules) + [Scrubbed(items[|items|-1], rules)]
  {
  }

  /** From the i-th entry on, with those before it in place. */
  lemma {:induction false} EntriesAreKept(heap: Heap, entries: seq<Entry>, fields: seq<Field>, i: nat, depth: nat, ancestors: seq<Ref>,
                                          rules: Rules)
    requires depth <= MAX_DEPTH && |entries| == |fields| <= MAX_KEYS && i <= |fields| && Unique(fields)
    requires forall k | 0 <= k < |fields| ::
               entries[k].key == fields[k].key && !rules.sensitive(fields[k].key)
               && Walked(heap, entries[k].value, depth, ancestors, rules) == Some(Scrubbed(fields[k].value, rules))
    ensures WalkedEntries(heap, entries[i..], i, ScrubbedFields(fields[..i], rules), |entries|, depth, ancestors, rules)
            == ScrubbedFields(fields, rules)
    decreases |fields| - i
  {
    if i == |fields| {
      assert fields[..i] == fields;
    } else {
      SetNext(fields, i, rules);
      assert entries[i..][0] == entries[i] && entries[i..][1..] == entries[i + 1..];
      EntriesAreKept(heap, entries, fields, i + 1, depth, ancestors, rules);
    }
  }
}
