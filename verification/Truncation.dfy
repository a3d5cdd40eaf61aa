/** The truncation policy: how an item that would not fit in an otherwise empty
    chunk is made to fit. */
module Truncation {
  import opened Utf8
  import opened Json

  const FLAG: Text := Ascii("_watchup_truncated")
  const ORIGINAL_BYTES: Text := Ascii("original_bytes")
  const MESSAGE: Text := Ascii("message")
  const STACK: Text := Ascii("stack")
  const CONTEXT: Text := Ascii("context")
  const META: Text := Ascii("meta")
  const PROPERTIES: Text := Ascii("properties")

  const MESSAGE_BYTES: nat := 8_192
  const STACK_BYTES: nat := 32_768
  const FIELD_BYTES: nat := 8_192
  const MESSAGE_FINAL_BYTES: nat := 1_024
  const STACK_FINAL_BYTES: nat := 4_096

  predicate IsContainer(key: Text) { key == CONTEXT || key == META || key == PROPERTIES }

  // ---------------------------------------------------------------------
  // Truncation with a marker
  // ---------------------------------------------------------------------

  /** `…[truncated <n> bytes]`. */
  function Marker(n: nat): Text { [0x2026] + (Ascii("[truncated ") + Decimal(n) + Ascii(" bytes]")) }

  lemma MarkerSize(n: nat)
    ensures Size(Marker(n)) == 21 + |Decimal(n)|
  {
    var ascii := Ascii("[truncated ") + Decimal(n) + Ascii(" bytes]");
    assert IsAscii(Decimal(n));
    AsciiSize(ascii);
    EncodeOne([0x2026]);
    EncodeAppend([0x2026], ascii);
  }

  lemma {:induction false} LongestPrefixExists(t: Text, max: nat, from: nat) returns (end: nat)
    requires from <= |t| && Aligned(t, from) && Size(t[..from]) <= max
    ensures LongestPrefix(t, max, end)
    decreases |t| - from
  {
    if from == |t| {
      end := from;
    } else {
      NextStop(t, from);
      var next := from + Units(t[from..]);
      if Size(t[..next]) <= max {
        end := LongestPrefixExists(t, max, next);
      } else {
        end := from;
        forall k | from < k <= |t| && Aligned(t, k) ensures Size(t[..k]) > max {
          SizeMonotone(t, next, k);
        }
      }
    }
  }

  /** How many units the cut of `t` to `max` bytes keeps. */
  ghost function KeptUnits(t: Text, max: nat): (n: nat)
    ensures LongestPrefix(t, max, n)
  {
    assert exists n: nat :: LongestPrefix(t, max, n) by {
      EncodeEmpty();
      var n := LongestPrefixExists(t, max, 0);
    }
    var n: nat :| LongestPrefix(t, max, n);
    n
  }

  predicate TooLong(t: Text, max: nat) { Size(t) > max }

  /** The string with the part past `max` bytes replaced by the marker. */
  ghost function Capped(t: Text, max: nat): Text
  {
    if TooLong(t, max) then
      var kept := t[..KeptUnits(t, max)];
      assert Size(kept) <= Size(t) by { EncodePrefix(t, KeptUnits(t, max)); }
      kept + Marker(Size(t) - Size(kept))
    else t
  }

  method TruncateWithMarker(value: Text, maxBytes: nat) returns (r: Text, truncated: bool)
    ensures r == Capped(value, maxBytes) && truncated == TooLong(value, maxBytes)
  {
    var kept, removed := Truncate(value, maxBytes);
    LongestPrefixUnique(value, maxBytes, |kept|, KeptUnits(value, maxBytes));
    if removed == 0 { return value, false; }
    assert kept == value[..KeptUnits(value, maxBytes)];
    return kept + Marker(removed), true;
  }

  /** A capped string has at most `max` bytes before its marker. */
  lemma CappedSize(t: Text, max: nat)
    ensures !TooLong(t, max) ==> Size(Capped(t, max)) <= max
    ensures TooLong(t, max) ==>
              var kept := t[..KeptUnits(t, max)];
              Size(kept) <= max && Size(kept) < Size(t) && Size(Capped(t, max)) == Size(kept) + 21 + |Decimal(Size(t) - Size(kept))|
  {
    if TooLong(t, max) {
      var kept := t[..KeptUnits(t, max)];
      EncodePrefix(t, KeptUnits(t, max));
      MarkerSize(Size(t) - Size(kept));
      EncodeAppend(kept, Marker(Size(t) - Size(kept)));
    }
  }

  /** A marker does not always pay: a capped string is shorter than the original
      exactly if more than 23 bytes were cut. */
  lemma CapShrinksIff(t: Text, max: nat)
    requires TooLong(t, max)
    ensures Size(Capped(t, max)) < Size(t) <==> Size(t) - Size(t[..KeptUnits(t, max)]) > 23
    ensures Size(Capped(t, max)) > Size(t) <==> Size(t) - Size(t[..KeptUnits(t, max)]) < 23
  {
    CappedSize(t, max);
    DigitsPay(Size(t) - Size(t[..KeptUnits(t, max)]));
  }

  /** The cut wastes less than one code point. */
  lemma KeptAtLeast(t: Text, max: nat)
    requires TooLong(t, max)
    ensures Size(t[..KeptUnits(t, max)]) + 4 > max
    ensures IsAscii(t) ==> Size(t[..KeptUnits(t, max)]) == max
  {
    var end := KeptUnits(t, max);
    assert t[..|t|] == t;
    assert end < |t|;
    NextStop(t, end);
    if IsAscii(t) { assert First(t[end..]) == t[end]; }
  }

  /** What a caller can tell before the cut: more than 23 bytes above the limit it
      shortens the string, up to 20 bytes it does not; for ASCII text, which can
      be cut anywhere, 23 is exact. */
  lemma CapShrinks(t: Text, max: nat)
    requires TooLong(t, max)
    ensures Size(t) > max + 23 ==> Size(Capped(t, max)) < Size(t)
    ensures Size(t) <= max + 20 ==> Size(Capped(t, max)) >= Size(t)
    ensures IsAscii(t) ==> (Size(Capped(t, max)) < Size(t) <==> Size(t) > max + 23)
  {
    CappedSize(t, max);
    KeptAtLeast(t, max);
    CapShrinksIff(t, max);
  }

  lemma {:induction false} DigitsPay(n: nat)
    requires n > 0
    ensures 21 + |Decimal(n)| < n <==> n > 23
    ensures 21 + |Decimal(n)| > n <==> n < 23
  {
    if n > 23 {
      DigitsBelow(n);
    } else {
      DecimalLength(n, 2);
      DecimalLength(n, 1);
      assert Pow10(1) == 10 && Pow10(2) == 100;
    }
  }

  lemma {:induction false} DigitsBelow(n: nat)
    requires n > 23
    ensures 21 + |Decimal(n)| < n
  {
    if n >= 240 {
      DigitsBelow(n / 10);
    } else {
      DecimalLength(n, 2);
      DecimalLength(n, 3);
      assert Pow10(2) == 100 && Pow10(3) == 1_000;
    }
  }

  // ---------------------------------------------------------------------
  // Strings inside the metadata containers
  // ---------------------------------------------------------------------

  ghost function CapStrings(v: Value, max: nat): Value
    decreases v, 0
  {
    match v
    case Str(s) => Str(Capped(s, max))
    case Arr(items) => Arr(CapAll(items, max))
    case Obj(fields) => Obj(CapFields(fields, max))
    case _ => v
  }

  ghost function CapAll(items: seq<Value>, max: nat): (r: seq<Value>)
    ensures |r| == |items|
    decreases items, 0
  {
    if items == [] then [] else [CapStrings(items[0], max)] + CapAll(items[1..], max)
  }

  ghost function CapFields(fields: seq<Field>, max: nat): (r: seq<Field>)
    ensures |r| == |fields| && forall i | 0 <= i < |fields| :: r[i].key == fields[i].key
    decreases fields, 0
  {
    if fields == [] then [] else [Field(fields[0].key, CapStrings(fields[0].value, max))] + CapFields(fields[1..], max)
  }

  /** Some string in the value is longer than `max` bytes. */
  predicate HasLong(v: Value, max: nat)
    decreases v, 0
  {
    match v
    case Str(s) => TooLong(s, max)
    case Arr(items) => AnyLong(items, max)
    case Obj(fields) => AnyFieldLong(fields, max)
    case _ => false
  }

  predicate AnyLong(items: seq<Value>, max: nat)
    decreases items, 0
  {
    items != [] && (HasLong(items[0], max) || AnyLong(items[1..], max))
  }

  predicate AnyFieldLong(fields: seq<Field>, max: nat)
    decreases fields, 0
  {
    fields != [] && (HasLong(fields[0].value, max) || AnyFieldLong(fields[1..], max))
  }

  /** A value without long strings is left as it is. */
  lemma {:induction false} ShortIsKept(v: Value, max: nat)
    requires !HasLong(v, max)
    ensures CapStrings(v, max) == v
    decreases v, 0
  {
    match v
    case Arr(items) => ShortAreKept(items, max);
    case Obj(fields) => ShortFieldsAreKept(fields, max);
    case _ =>
  }

  lemma {:induction false} ShortAreKept(items: seq<Value>, max: nat)
    requires !AnyLong(items, max)
    ensures CapAll(items, max) == items
    decreases items, 0
  {
    if items != [] {
      ShortIsKept(items[0], max);
      ShortAreKept(items[1..], max);
    }
  }

  lemma {:induction false} ShortFieldsAreKept(fields: seq<Field>, max: nat)
    requires !AnyFieldLong(fields, max)
    ensures CapFields(fields, max) == fields
    decreases fields, 0
  {
    if fields != [] {
      ShortIsKept(fields[0].value, max);
      ShortFieldsAreKept(fields[1..], max);
    }
  }

  lemma CappedBound(t: Text, max: nat, k: nat)
    requires k >= 1 && Size(t) < Pow10(k)
    ensures Size(Capped(t, max)) <= max + 21 + k
  {
    CappedSize(t, max);
    if TooLong(t, max) { DecimalLength(Size(t) - Size(t[..KeptUnits(t, max)]), k); }
  }

  /** Afterwards no string is longer than the limit and its marker. */
  lemma {:induction false} StringsAreCapped(v: Value, max: nat, k: nat)
    requires k >= 1 && !HasLong(v, Pow10(k) - 1)
    ensures !HasLong(CapStrings(v, max), max + 21 + k)
    decreases v, 0
  {
    match v
    case Str(s) => CappedBound(s, max, k);
    case Arr(items) => AllStringsAreCapped(items, max, k);
    case Obj(fields) => FieldStringsAreCapped(fields, max, k);
    case _ =>
  }

  lemma {:induction false} AllStringsAreCapped(items: seq<Value>, max: nat, k: nat)
    requires k >= 1 && !AnyLong(items, Pow10(k) - 1)
    ensures !AnyLong(CapAll(items, max), max + 21 + k)
    decreases items, 0
  {
    if items != [] {
      StringsAreCapped(items[0], max, k);
      AllStringsAreCapped(items[1..], max, k);
      assert CapAll(items, max)[1..] == CapAll(items[1..], max);
    }
  }

  lemma {:induction false} FieldStringsAreCapped(fields: seq<Field>, max: nat, k: nat)
    requires k >= 1 && !AnyFieldLong(fields, Pow10(k) - 1)
    ensures !AnyFieldLong(CapFields(fields, max), max + 21 + k)
    decreases fields, 0
  {
    if fields != [] {
      StringsAreCapped(fields[0].value, max, k);
      FieldStringsAreCapped(fields[1..], max, k);
      assert CapFields(fields, max)[1..] == CapFields(fields[1..], max);
    }
  }

  lemma Regroup<T>(a: seq<T>, x: T, b: seq<T>)
    ensures a + ([x] + b) == (a + [x]) + b
  {
  }

  lemma CapAllStep(items: seq<Value>, i: nat, max: nat)
    requires i < |items|
    ensures CapAll(items[i..], max) == [CapStrings(items[i], max)] + CapAll(items[i + 1..], max)
    ensures AnyLong(items[i..], max) == (HasLong(items[i], max) || AnyLong(items[i + 1..], max))
  {
    assert items[i..][1..] == items[i + 1..];
  }

  lemma CapFieldsStep(fields: seq<Field>, i: nat, max: nat)
    requires i < |fields|
    ensures CapFields(fields[i..], max) == [Field(fields[i].key, CapStrings(fields[i].value, max))] + CapFields(fields[i + 1..], max)
    ensures AnyFieldLong(fields[i..], max) == (HasLong(fields[i].value, max) || AnyFieldLong(fields[i + 1..], max))
  {
    assert fields[i..][1..] == fields[i + 1..];
  }

  method CapStringsIn(value: Value, maxBytes: nat) returns (r: Value, changed: bool)
    ensures r == CapStrings(value, maxBytes) && changed == HasLong(value, maxBytes)
    decreases value, 0
  {
    match value {
      case Str(s) =>
        var cut, truncated := TruncateWithMarker(s, maxBytes);
        return Str(cut), truncated;
      case Arr(items) =>
        var out, any := CapItemsIn(items, maxBytes);
        return Arr(out), any;
      case Obj(fields) =>
        var out, any := CapFieldsIn(fields, maxBytes);
        return Obj(out), any;
      case _ =>
        return value, false;
    }
  }

  method CapItemsIn(items: seq<Value>, maxBytes: nat) returns (out: seq<Value>, changed: bool)
    ensures out == CapAll(items, maxBytes) && changed == AnyLong(items, maxBytes)
    decreases items, 0
  {
    out, changed := [], false;
    var i := 0;
    assert items[0..] == items;
    while i < |items|
      invariant i <= |items|
      invariant out + CapAll(items[i..], maxBytes) == CapAll(items, maxBytes)
      invariant changed || AnyLong(items[i..], maxBytes) <==> AnyLong(items, maxBytes)
    {
      var v, c := CapStringsIn(items[i], maxBytes);
      CapAllStep(items, i, maxBytes);
      Regroup(out, v, CapAll(items[i + 1..], maxBytes));
      out, changed, i := out + [v], changed || c, i + 1;
    }
    assert out + [] == out;
  }

  method CapFieldsIn(fields: seq<Field>, maxBytes: nat) returns (out: seq<Field>, changed: bool)
    ensures out == CapFields(fields, maxBytes) && changed == AnyFieldLong(fields, maxBytes)
    decreases fields, 0
  {
    out, changed := [], false;
    var i := 0;
    assert fields[0..] == fields;
    while i < |fields|
      invariant i <= |fields|
      invariant out + CapFields(fields[i..], maxBytes) == CapFields(fields, maxBytes)
      invariant changed || AnyFieldLong(fields[i..], maxBytes) <==> AnyFieldLong(fields, maxBytes)
    {
      var v, c := CapStringsIn(fields[i].value, maxBytes);
      var f := Field(fields[i].key, v);
      CapFieldsStep(fields, i, maxBytes);
      Regroup(out, f, CapFields(fields[i + 1..], maxBytes));
      out, changed, i := out + [f], changed || c, i + 1;
    }
    assert out + [] == out;
  }

  // ---------------------------------------------------------------------
  // Fields of an item
  // ---------------------------------------------------------------------

  predicate Unique(item: seq<Field>) { forall i, j | 0 <= i < j < |item| :: item[i].key != item[j].key }

  function Get(item: seq<Field>, key: Text): Option<Value>
  {
    if item == [] then None
    else if item[|item|-1].key == key then Some(item[|item|-1].value)
    else Get(item[..|item|-1], key)
  }

  function Replace(item: seq<Field>, key: Text, v: Value): (r: seq<Field>)
    ensures |r| == |item| && forall i | 0 <= i < |item| :: r[i] == if item[i].key == key then Field(key, v) else item[i]
  {
    if item == [] then []
    else
      var f := item[|item|-1];
      Replace(item[..|item|-1], key, v) + [if f.key == key then Field(key, v) else f]
  }

  /** Assigning a field keeps its place; a new field goes last. */
  function Set(item: seq<Field>, key: Text, v: Value): seq<Field>
  {
    if Get(item, key).Some? then Replace(item, key, v) else item + [Field(key, v)]
  }

  function Remove(item: seq<Field>, key: Text): seq<Field>
  {
    if item == [] then []
    else
      var rest := Remove(item[..|item|-1], key);
      if item[|item|-1].key == key then rest else rest + [item[|item|-1]]
  }

  lemma {:induction false} GetIs(item: seq<Field>, key: Text)
    ensures Get(item, key) == None <==> forall i | 0 <= i < |item| :: item[i].key != key
  {
    if item != [] { GetIs(item[..|item|-1], key); }
  }

  lemma {:induction false} GetReplaced(item: seq<Field>, key: Text, v: Value, j: Text)
    ensures Get(Replace(item, key, v), j) == if j == key && Get(item, key).Some? then Some(v) else Get(item, j)
  {
    if item != [] {
      var init := item[..|item|-1];
      GetReplaced(init, key, v, j);
      assert Replace(item, key, v)[..|item|-1] == Replace(init, key, v);
    }
  }

  lemma GetSet(item: seq<Field>, key: Text, v: Value, j: Text)
    ensures Get(Set(item, key, v), j) == if j == key then Some(v) else Get(item, j)
  {
    GetReplaced(item, key, v, j);
    assert (item + [Field(key, v)])[..|item|] == item;
  }

  lemma SetUnique(item: seq<Field>, key: Text, v: Value)
    requires Unique(item)
    ensures Unique(Set(item, key, v))
  {
    GetIs(item, key);
  }

  lemma {:induction false} RemoveAbsent(item: seq<Field>, key: Text)
    requires forall i | 0 <= i < |item| :: item[i].key != key
    ensures Remove(item, key) == item
  {
    if item != [] { RemoveAbsent(item[..|item|-1], key); }
  }

  /** Deleting a field that was added gives the item back. */
  lemma RemoveAdded(item: seq<Field>, key: Text, v: Value)
    requires Get(item, key) == None
    ensures Remove(Set(item, key, v), key) == item
  {
    GetIs(item, key);
    RemoveAbsent(item, key);
    assert Set(item, key, v)[..|item|] == item;
  }

  // ---------------------------------------------------------------------
  // The three steps
  // ---------------------------------------------------------------------

  datatype Draft = Draft(fields: seq<Field>, truncated: bool)

  datatype FitResult = FitResult(item: seq<Field>, json: Text, bytes: nat, truncated: bool, oversized: bool)

  function Bytes(item: seq<Field>): nat { Size(Print(Obj(item))) }

  ghost function CapField(d: Draft, key: Text, max: nat): Draft
  {
    match Get(d.fields, key)
    case Some(Str(s)) => if TooLong(s, max) then Draft(Set(d.fields, key, Str(Capped(s, max))), true) else d
    case _ => d
  }

  ghost function CapContainer(d: Draft, key: Text): Draft
  {
    match Get(d.fields, key)
    case Some(v) => if HasLong(v, FIELD_BYTES) then Draft(Set(d.fields, key, CapStrings(v, FIELD_BYTES)), true) else d
    case None => d
  }

  function SizeMarker(n: nat): Value { Obj([Field(FLAG, Bool(true)), Field(ORIGINAL_BYTES, Num(Decimal(n)))]) }

  function DropContainer(d: Draft, item: seq<Field>, key: Text): Draft
  {
    match Get(item, key)
    case Some(v) => Draft(Set(d.fields, key, SizeMarker(Size(Print(v)))), true)
    case None => d
  }

  function WithFlag(d: Draft): Draft { d.(fields := Set(d.fields, FLAG, Bool(true))) }

  const CONTAINERS: seq<Text> := [CONTEXT, META, PROPERTIES]

  /** The draft after the first `n` containers. */
  ghost function ContainersCapped(d: Draft, n: nat): Draft
    requires n <= 3
  {
    if n == 0 then d else CapContainer(ContainersCapped(d, n - 1), CONTAINERS[n - 1])
  }

  function ContainersDropped(d: Draft, item: seq<Field>, n: nat): Draft
    requires n <= 3
  {
    if n == 0 then d else DropContainer(ContainersDropped(d, item, n - 1), item, CONTAINERS[n - 1])
  }

  ghost function Step1(item: seq<Field>): Draft
  {
    var d := CapField(CapField(Draft(item, false), MESSAGE, MESSAGE_BYTES), STACK, STACK_BYTES);
    WithFlag(ContainersCapped(d, 3))
  }

  function Step2(d: Draft, item: seq<Field>): Draft
  {
    ContainersDropped(d, item, 3)
  }

  ghost function Step3(d: Draft): Draft
  {
    CapField(CapField(d, MESSAGE, MESSAGE_FINAL_BYTES), STACK, STACK_FINAL_BYTES)
  }

  /** The steps that are taken: each one only if what there is does not fit. */
  ghost function Drafted(item: seq<Field>, budget: int): Draft
  {
    var d1 := Step1(item);
    var d2 := if Bytes(d1.fields) > budget then Step2(d1, item) else d1;
    if Bytes(d2.fields) > budget then Step3(d2) else d2
  }

  ghost function Fit(item: seq<Field>, budget: int): FitResult
  {
    if Bytes(item) <= budget then FitResult(item, Print(Obj(item)), Bytes(item), false, false)
    else
      var d := Drafted(item, budget);
      var out := if d.truncated then d.fields else Remove(d.fields, FLAG);
      FitResult(out, Print(Obj(out)), Bytes(out), d.truncated, Bytes(out) > budget)
  }

  method Measure(item: seq<Field>) returns (json: Text, bytes: nat)
    ensures json == Print(Obj(item)) && bytes == Bytes(item)
  {
    json := Print(Obj(item));
    bytes := ByteLength(json);
  }

  method CapFieldOf(item: seq<Field>, key: Text, maxBytes: nat, ghost d: Draft) returns (out: seq<Field>, truncated: bool)
    requires d.fields == item
    ensures var c := CapField(d, key, maxBytes); out == c.fields && (truncated || d.truncated) == c.truncated
  {
    out, truncated := item, false;
    match Get(item, key) {
      case Some(Str(s)) =>
        var cut, t := TruncateWithMarker(s, maxBytes);
        if t { out := Set(item, key, Str(cut)); }
        truncated := t;
      case _ =>
    }
  }

  method CapContainers(item: seq<Field>, ghost d: Draft) returns (out: seq<Field>, truncated: bool)
    requires d.fields == item
    ensures var c := ContainersCapped(d, 3); out == c.fields && (truncated || d.truncated) == c.truncated
  {
    out, truncated := item, false;
    for i := 0 to 3
      invariant var c := ContainersCapped(d, i); out == c.fields && (truncated || d.truncated) == c.truncated
    {
      match Get(out, CONTAINERS[i]) {
        case Some(value) =>
          var v, changed := CapStringsIn(value, FIELD_BYTES);
          if changed { out, truncated := Set(out, CONTAINERS[i], v), true; }
        case None =>
      }
    }
  }

  method DropContainers(fields: seq<Field>, item: seq<Field>, ghost d: Draft) returns (out: seq<Field>, truncated: bool)
    requires d.fields == fields
    ensures var c := ContainersDropped(d, item, 3); out == c.fields && (truncated || d.truncated) == c.truncated
  {
    out, truncated := fields, false;
    for i := 0 to 3
      invariant var c := ContainersDropped(d, item, i); out == c.fields && (truncated || d.truncated) == c.truncated
    {
      match Get(item, CONTAINERS[i]) {
        case Some(value) =>
          var n := ByteLength(Print(value));
          out, truncated := Set(out, CONTAINERS[i], SizeMarker(n)), true;
        case None =>
      }
    }
  }

  method FitItem(item: seq<Field>, budget: int) returns (r: FitResult)
    ensures r == Fit(item, budget)
  {
    var json, bytes := Measure(item);
    if bytes <= budget { return FitResult(item, json, bytes, false, false); }
    var out, truncated := item, false;
    ghost var d := Draft(item, false);
    var t: bool;
    out, t := CapFieldOf(out, MESSAGE, MESSAGE_BYTES, d);
    truncated := t || truncated;
    d := CapField(d, MESSAGE, MESSAGE_BYTES);
    out, t := CapFieldOf(out, STACK, STACK_BYTES, d);
    truncated := t || truncated;
    d := CapField(d, STACK, STACK_BYTES);
    out, t := CapContainers(out, d);
    truncated := t || truncated;
    out := Set(out, FLAG, Bool(true));
    d := Step1(item);
    assert Draft(out, truncated) == d;
    json, bytes := Measure(out);
    if bytes > budget {
      out, t := DropContainers(out, item, d);
      truncated := t || truncated;
      d := Step2(d, item);
      json, bytes := Measure(out);
    }
    assert Draft(out, truncated) == d;
    if bytes > budget {
      out, t := CapFieldOf(out, MESSAGE, MESSAGE_FINAL_BYTES, d);
      truncated := t || truncated;
      d := CapField(d, MESSAGE, MESSAGE_FINAL_BYTES);
      out, t := CapFieldOf(out, STACK, STACK_FINAL_BYTES, d);
      truncated := t || truncated;
      d := CapField(d, STACK, STACK_FINAL_BYTES);
      json, bytes := Measure(out);
    }
    assert Draft(out, truncated) == Drafted(item, budget);
    if !truncated {
      out := Remove(out, FLAG);
      json, bytes := Measure(out);
    }
    return FitResult(out, json, bytes, truncated, bytes > budget);
  }

  // ---------------------------------------------------------------------
  // Marked items, and items that are left as they were
  // ---------------------------------------------------------------------

  lemma {:induction false} CapContainersUntouched(d: Draft, n: nat)
    requires n <= 3
    ensures d.truncated ==> ContainersCapped(d, n).truncated
    ensures !ContainersCapped(d, n).truncated ==> ContainersCapped(d, n) == d
  {
    if n > 0 { CapContainersUntouched(d, n - 1); }
  }

  lemma {:induction false} DropContainersUntouched(d: Draft, item: seq<Field>, n: nat)
    requires n <= 3
    ensures d.truncated ==> ContainersDropped(d, item, n).truncated
    ensures !ContainersDropped(d, item, n).truncated ==> ContainersDropped(d, item, n) == d
  {
    if n > 0 { DropContainersUntouched(d, item, n - 1); }
  }

  /** Steps that truncate nothing add the flag and change nothing else. */
  lemma DraftUntouched(item: seq<Field>, budget: int)
    requires !Drafted(item, budget).truncated
    ensures Drafted(item, budget).fields == Set(item, FLAG, Bool(true))
  {
    var d := CapField(CapField(Draft(item, false), MESSAGE, MESSAGE_BYTES), STACK, STACK_BYTES);
    CapContainersUntouched(d, 3);
    DropContainersUntouched(Step1(item), item, 3);
  }

  /** An item that does not carry the flag and is not marked truncated is exactly
      as it was, and so is its text. */
  lemma UnmarkedIsIdentical(item: seq<Field>, budget: int)
    requires Get(item, FLAG) == None && !Fit(item, budget).truncated
    ensures Fit(item, budget).item == item && Fit(item, budget).json == Print(Obj(item))
  {
    if Bytes(item) > budget {
      DraftUntouched(item, budget);
      RemoveAdded(item, FLAG, Bool(true));
    }
  }

  lemma OtherNames()
    ensures !IsContainer(FLAG) && FLAG != MESSAGE && FLAG != STACK && MESSAGE != STACK && !IsContainer(MESSAGE) && !IsContainer(STACK)
    ensures CONTEXT != META && CONTEXT != PROPERTIES && META != PROPERTIES
  {
    assert |FLAG| == 18 && |MESSAGE| == 7 && |STACK| == 5 && |CONTEXT| == 7 && |META| == 4 && |PROPERTIES| == 10;
    assert MESSAGE[0] != CONTEXT[0];
  }

  predicate Flagged(item: seq<Field>) { Get(item, FLAG) == Some(Bool(true)) }

  lemma CapFieldFlagged(d: Draft, key: Text, max: nat)
    requires Flagged(d.fields) && key != FLAG
    ensures Flagged(CapField(d, key, max).fields)
  {
    match Get(d.fields, key)
    case Some(Str(s)) => GetSet(d.fields, key, Str(Capped(s, max)), FLAG);
    case _ =>
  }

  lemma {:induction false} DropContainersFlagged(d: Draft, item: seq<Field>, n: nat)
    requires n <= 3 && Flagged(d.fields)
    ensures Flagged(ContainersDropped(d, item, n).fields)
  {
    if n > 0 {
      DropContainersFlagged(d, item, n - 1);
      OtherNames();
      match Get(item, CONTAINERS[n - 1])
      case Some(v) => GetSet(ContainersDropped(d, item, n - 1).fields, CONTAINERS[n - 1], SizeMarker(Size(Print(v))), FLAG);
      case None =>
    }
  }

  /** An item that is marked truncated carries the flag. */
  lemma MarkedCarriesFlag(item: seq<Field>, budget: int)
    requires Fit(item, budget).truncated
    ensures Flagged(Fit(item, budget).item)
  {
    OtherNames();
    var d := CapField(CapField(Draft(item, false), MESSAGE, MESSAGE_BYTES), STACK, STACK_BYTES);
    GetSet(ContainersCapped(d, 3).fields, FLAG, Bool(true), FLAG);
    DropContainersFlagged(Step1(item), item, 3);
    var d2 := if Bytes(Step1(item).fields) > budget then Step2(Step1(item), item) else Step1(item);
    CapFieldFlagged(d2, MESSAGE, MESSAGE_FINAL_BYTES);
    CapFieldFlagged(CapField(d2, MESSAGE, MESSAGE_FINAL_BYTES), STACK, STACK_FINAL_BYTES);
  }

  // ---------------------------------------------------------------------
  // Sizes of items
  // ---------------------------------------------------------------------

  /** Bytes of a field and the comma before or the brace after it. */
  function FieldBytes(f: Field): nat { Size(PrintField(f)) + 1 }

  function Weigh(item: seq<Field>): nat
  {
    if item == [] then 0 else Weigh(item[..|item|-1]) + FieldBytes(item[|item|-1])
  }

  lemma TotalPush(parts: seq<Text>, p: Text)
    ensures Total(parts + [p]) == Total(parts) + Size(p)
  {
    TotalAppend(parts, [p]);
    assert [p][1..] == [];
  }

  lemma LastApart(a: seq<Text>, b: seq<Text>)
    requires |a| == |b| + 1 && forall i | 0 <= i < |b| :: a[i] == b[i]
    ensures a == b + [a[|b|]]
  {
  }

  lemma PrintFieldsPush(item: seq<Field>)
    requires item != []
    ensures PrintFields(item) == PrintFields(item[..|item|-1]) + [PrintField(item[|item|-1])]
  {
    LastApart(PrintFields(item), PrintFields(item[..|item|-1]));
  }

  lemma {:induction false} WeighIsTotal(item: seq<Field>)
    ensures Weigh(item) == Total(PrintFields(item)) + |item|
  {
    if item == [] {
      assert PrintFields(item) == [];
    } else {
      WeighIsTotal(item[..|item|-1]);
      PrintFieldsPush(item);
      TotalPush(PrintFields(item[..|item|-1]), PrintField(item[|item|-1]));
    }
  }

  lemma BytesIs(item: seq<Field>)
    ensures Bytes(item) == if item == [] then 2 else 1 + Weigh(item)
  {
    var inner := Join(PrintFields(item));
    WeighIsTotal(item);
    JoinSize(PrintFields(item));
    AsciiSize([LBRACE]);
    AsciiSize([RBRACE]);
    SizeConcat([LBRACE], inner);
    SizeConcat([LBRACE] + inner, [RBRACE]);
  }

  /** Fields that the policy may change. */
  predicate Special(f: Field) { ((f.key == MESSAGE || f.key == STACK) && f.value.Str?) || IsContainer(f.key) }

  /** The other fields. */
  function Rest(item: seq<Field>): seq<Field>
  {
    if item == [] then []
    else
      var rest := Rest(item[..|item|-1]);
      if Special(item[|item|-1]) then rest else rest + [item[|item|-1]]
  }

  function BytesAt(item: seq<Field>, key: Text): nat
  {
    match Get(item, key)
    case Some(v) => if Special(Field(key, v)) then FieldBytes(Field(key, v)) else 0
    case None => 0
  }

  lemma BytesAtLast(item: seq<Field>, key: Text)
    requires item != []
    ensures item[|item|-1].key != key ==> BytesAt(item, key) == BytesAt(item[..|item|-1], key)
    ensures item[|item|-1].key == key ==> BytesAt(item, key) == if Special(item[|item|-1]) then FieldBytes(item[|item|-1]) else 0
  {
  }

  function SpecialBytes(item: seq<Field>): nat
  {
    BytesAt(item, MESSAGE) + BytesAt(item, STACK) + BytesAt(item, CONTEXT) + BytesAt(item, META) + BytesAt(item, PROPERTIES)
  }

  lemma SpecialLast(item: seq<Field>)
    requires item != [] && Unique(item)
    ensures SpecialBytes(item) ==
            SpecialBytes(item[..|item|-1]) + if Special(item[|item|-1]) then FieldBytes(item[|item|-1]) else 0
  {
    OtherNames();
    BytesAtLast(item, MESSAGE);
    BytesAtLast(item, STACK);
    BytesAtLast(item, CONTEXT);
    BytesAtLast(item, META);
    BytesAtLast(item, PROPERTIES);
    GetIs(item[..|item|-1], item[|item|-1].key);
  }

  lemma WeighPush(item: seq<Field>, f: Field)
    ensures Weigh(item + [f]) == Weigh(item) + FieldBytes(f)
  {
    assert (item + [f])[..|item|] == item;
  }

  lemma {:induction false} WeighSplit(item: seq<Field>)
    requires Unique(item)
    ensures Weigh(item) == Weigh(Rest(item)) + SpecialBytes(item)
  {
    if item == [] {
      assert Rest(item) == [];
    } else {
      WeighSplit(item[..|item|-1]);
      SpecialLast(item);
      if !Special(item[|item|-1]) { WeighPush(Rest(item[..|item|-1]), item[|item|-1]); }
    }
  }

  // ---------------------------------------------------------------------
  // The fitting guarantee
  // ---------------------------------------------------------------------

  /** `b` differs from `a` in special fields at most. */
  lemma {:induction false} RestReplaced(item: seq<Field>, key: Text, v: Value)
    requires forall i | 0 <= i < |item| :: item[i].key == key ==> Special(item[i])
    requires Special(Field(key, v))
    ensures Rest(Replace(item, key, v)) == Rest(item)
  {
    if item != [] {
      RestReplaced(item[..|item|-1], key, v);
      assert Replace(item, key, v)[..|item|-1] == Replace(item[..|item|-1], key, v);
    }
  }

  lemma {:induction false} TheField(item: seq<Field>, key: Text, i: nat)
    requires Unique(item) && i < |item| && item[i].key == key
    ensures Get(item, key) == Some(item[i].value)
  {
    if i < |item| - 1 {
      TheField(item[..|item|-1], key, i);
    }
  }

  /** Assigning a special value to a special field leaves the other fields alone. */
  lemma RestSet(item: seq<Field>, key: Text, v: Value)
    requires Unique(item) && Get(item, key).Some? && Special(Field(key, Get(item, key).value)) && Special(Field(key, v))
    ensures Rest(Set(item, key, v)) == Rest(item)
  {
    forall i | 0 <= i < |item| && item[i].key == key ensures Special(item[i]) {
      TheField(item, key, i);
    }
    RestReplaced(item, key, v);
  }

  lemma Pasted(a: Text, b: Text)
    requires Closed(a)
    ensures Size(a + [COLON] + b) == Size(a) + 1 + Size(b)
  {
    AsciiSize([COLON]);
    SizeConcat(a, [COLON]);
    SizeConcat(a + [COLON], b);
  }

  lemma NamedBytes(key: Text, v: Value)
    requires Plain(key)
    ensures FieldBytes(Field(key, v)) == |key| + 4 + Size(Print(v))
  {
    QuoteSize(key);
    PlainEscape(key);
    Pasted(Quote(key), Print(v));
  }

  lemma PlainNames()
    ensures Plain(FLAG) && Plain(ORIGINAL_BYTES) && Plain(MESSAGE) && Plain(STACK)
    ensures forall key | IsContainer(key) :: Plain(key) && |key| <= 10
  {
    PlainAscii("_watchup_truncated");
    PlainAscii("original_bytes");
    PlainAscii("message");
    PlainAscii("stack");
    PlainAscii("context");
    PlainAscii("meta");
    PlainAscii("properties");
  }

  lemma PlainAscii(s: string)
    requires forall i | 0 <= i < |s| :: 'A' <= s[i] <= 'Z' || 'a' <= s[i] <= 'z' || s[i] == '_'
    ensures Plain(Ascii(s))
  {
  }

  lemma TrueBytes()
    ensures Size(Print(Bool(true))) == 4
  {
    AsciiSize(Ascii("true"));
  }

  const FLAG_BYTES: nat := 26

  lemma FlagBytes()
    ensures FieldBytes(Field(FLAG, Bool(true))) == FLAG_BYTES
  {
    PlainNames();
    NamedBytes(FLAG, Bool(true));
    TrueBytes();
  }

  lemma SizeMarkerBytes(n: nat)
    ensures Size(Print(SizeMarker(n))) == 45 + |Decimal(n)|
  {
    var flag, original := Field(FLAG, Bool(true)), Field(ORIGINAL_BYTES, Num(Decimal(n)));
    BytesOfTwo(flag, original);
    FlagBytes();
    OriginalBytes(n);
  }

  lemma BytesOfTwo(f: Field, g: Field)
    ensures Bytes([f, g]) == 1 + FieldBytes(f) + FieldBytes(g)
  {
    BytesIs([f, g]);
    WeighPush([f], g);
    WeighPush([], f);
    assert [f] + [g] == [f, g] && [] + [f] == [f];
  }

  lemma OriginalBytes(n: nat)
    ensures FieldBytes(Field(ORIGINAL_BYTES, Num(Decimal(n)))) == 18 + |Decimal(n)|
  {
    PlainNames();
    NamedBytes(ORIGINAL_BYTES, Num(Decimal(n)));
    AsciiSize(Decimal(n));
  }

  lemma {:induction false} WeighReplaced(item: seq<Field>, key: Text, v: Value)
    requires Unique(item)
    ensures Weigh(Replace(item, key, v)) <= Weigh(item) + FieldBytes(Field(key, v))
    ensures Get(item, key) == None ==> Replace(item, key, v) == item
  {
    if item != [] {
      WeighReplaced(item[..|item|-1], key, v);
      assert Replace(item, key, v)[..|item|-1] == Replace(item[..|item|-1], key, v);
      GetIs(item[..|item|-1], key);
    }
  }

  lemma {:induction false} RemoveWeighs(item: seq<Field>, key: Text)
    ensures Weigh(Remove(item, key)) <= Weigh(item)
  {
    if item != [] {
      RemoveWeighs(item[..|item|-1], key);
      WeighPush(Remove(item[..|item|-1], key), item[|item|-1]);
    }
  }

  lemma RemoveBytes(item: seq<Field>, key: Text)
    ensures Bytes(Remove(item, key)) <= Bytes(item)
  {
    RemoveWeighs(item, key);
    BytesIs(item);
    BytesIs(Remove(item, key));
  }

  /** What the policy leaves alone: field names stay unique, the other fields
      take no more bytes, and so do special fields with other names. */
  ghost predicate Leaves(a: seq<Field>, b: seq<Field>, more: nat)
  {
    Unique(a) && Unique(b) && Weigh(Rest(b)) <= Weigh(Rest(a)) + more
  }

  lemma SetSpecial(item: seq<Field>, key: Text, v: Value)
    requires Unique(item) && Get(item, key).Some? && Special(Field(key, Get(item, key).value)) && Special(Field(key, v))
    ensures Leaves(item, Set(item, key, v), 0)
  {
    SetUnique(item, key, v);
    RestSet(item, key, v);
  }

  lemma SetFlag(item: seq<Field>)
    requires Unique(item)
    ensures Leaves(item, Set(item, FLAG, Bool(true)), FLAG_BYTES)
  {
    var out := Set(item, FLAG, Bool(true));
    SetUnique(item, FLAG, Bool(true));
    WeighReplaced(item, FLAG, Bool(true));
    WeighPush(item, Field(FLAG, Bool(true)));
    FlagBytes();
    WeighSplit(item);
    WeighSplit(out);
    OtherNames();
    SameSpecial(item, out);
  }

  lemma SameSpecial(item: seq<Field>, out: seq<Field>)
    requires out == Set(item, FLAG, Bool(true))
    ensures SpecialBytes(out) == SpecialBytes(item)
  {
    OtherNames();
    GetSet(item, FLAG, Bool(true), MESSAGE);
    GetSet(item, FLAG, Bool(true), STACK);
    GetSet(item, FLAG, Bool(true), CONTEXT);
    GetSet(item, FLAG, Bool(true), META);
    GetSet(item, FLAG, Bool(true), PROPERTIES);
  }

  lemma CapFieldLeaves(d: Draft, key: Text, max: nat)
    requires Unique(d.fields) && (key == MESSAGE || key == STACK)
    ensures Leaves(d.fields, CapField(d, key, max).fields, 0)
    ensures forall j | j != key :: Get(CapField(d, key, max).fields, j) == Get(d.fields, j)
    ensures match Get(d.fields, key)
            case Some(Str(s)) => Get(CapField(d, key, max).fields, key) == Some(Str(Capped(s, max)))
            case v => Get(CapField(d, key, max).fields, key) == v
  {
    match Get(d.fields, key)
    case Some(Str(s)) =>
      if TooLong(s, max) {
        SetSpecial(d.fields, key, Str(Capped(s, max)));
        forall j
          ensures Get(Set(d.fields, key, Str(Capped(s, max))), j) == if j == key then Some(Str(Capped(s, max))) else Get(d.fields, j)
        {
          GetSet(d.fields, key, Str(Capped(s, max)), j);
        }
      }
    case _ =>
  }

  /** The same containers are there. */
  ghost predicate SameContainers(a: seq<Field>, b: seq<Field>)
  {
    forall j | IsContainer(j) :: Get(b, j).Some? == Get(a, j).Some?
  }

  /** And the other fields have the same values. */
  ghost predicate SameOutside(a: seq<Field>, b: seq<Field>)
  {
    SameContainers(a, b) && forall j | !IsContainer(j) :: Get(b, j) == Get(a, j)
  }

  lemma SetContainer(item: seq<Field>, key: Text, v: Value)
    requires Unique(item) && Get(item, key).Some? && IsContainer(key)
    ensures Leaves(item, Set(item, key, v), 0)
    ensures forall j :: Get(Set(item, key, v), j) == if j == key then Some(v) else Get(item, j)
  {
    SetSpecial(item, key, v);
    forall j ensures Get(Set(item, key, v), j) == if j == key then Some(v) else Get(item, j) {
      GetSet(item, key, v, j);
    }
  }

  lemma SetContainerKeeps(item: seq<Field>, key: Text, v: Value)
    requires Unique(item) && Get(item, key).Some? && IsContainer(key)
    ensures Leaves(item, Set(item, key, v), 0) && SameOutside(item, Set(item, key, v))
    ensures Get(Set(item, key, v), key) == Some(v)
    ensures forall k | k != key && Marked(item, k) :: Marked(Set(item, key, v), k)
  {
    SetContainer(item, key, v);
  }

  lemma LeavesOn(a: seq<Field>, b: seq<Field>, c: seq<Field>, m: nat, n: nat)
    requires Leaves(a, b, m) && Leaves(b, c, n)
    ensures Leaves(a, c, m + n)
  {
  }

  lemma CapContainerLeaves(d: Draft, key: Text)
    requires IsContainer(key) && Unique(d.fields)
    ensures Leaves(d.fields, CapContainer(d, key).fields, 0) && SameOutside(d.fields, CapContainer(d, key).fields)
  {
    if CapContainer(d, key) != d {
      SetContainerKeeps(d.fields, key, CapStrings(Get(d.fields, key).value, FIELD_BYTES));
    }
  }

  lemma {:induction false} CapContainersLeaves(d: Draft, n: nat)
    requires n <= 3 && Unique(d.fields)
    ensures Leaves(d.fields, ContainersCapped(d, n).fields, 0) && SameOutside(d.fields, ContainersCapped(d, n).fields)
  {
    if n > 0 {
      CapContainersLeaves(d, n - 1);
      var c := ContainersCapped(d, n - 1);
      CapContainerLeaves(c, CONTAINERS[n - 1]);
      LeavesOn(d.fields, c.fields, ContainersCapped(d, n).fields, 0, 0);
    }
  }

  const SIZE_MARKER_BYTES: nat := 55

  /** A container that is gone or no larger than a size marker. */
  predicate Marked(item: seq<Field>, key: Text)
  {
    Get(item, key) == None || Size(Print(Get(item, key).value)) <= SIZE_MARKER_BYTES
  }

  lemma SizeMarkerSmall(n: nat)
    requires n < Pow10(10)
    ensures Size(Print(SizeMarker(n))) <= SIZE_MARKER_BYTES
  {
    SizeMarkerBytes(n);
    DecimalLength(n, 10);
  }

  lemma DropContainerLeaves(d: Draft, item: seq<Field>, key: Text)
    requires IsContainer(key) && Unique(d.fields) && SameContainers(item, d.fields)
    requires Get(item, key).Some? ==> Size(Print(Get(item, key).value)) < Pow10(10)
    ensures var c := DropContainer(d, item, key);
            && Leaves(d.fields, c.fields, 0) && SameOutside(d.fields, c.fields) && Marked(c.fields, key)
            && forall k | k != key && Marked(d.fields, k) :: Marked(c.fields, k)
  {
    match Get(item, key)
    case Some(v) =>
      var n := Size(Print(v));
      SizeMarkerSmall(n);
      SetContainerKeeps(d.fields, key, SizeMarker(n));
    case None =>
  }

  lemma {:induction false} ValueBytes(item: seq<Field>, key: Text)
    requires Get(item, key).Some?
    ensures Size(Print(Get(item, key).value)) <= Bytes(item)
  {
    BytesIs(item);
    var f := item[|item|-1];
    if f.key == key {
      QuoteSize(f.key);
      Pasted(Quote(f.key), Print(f.value));
    } else {
      ValueBytes(item[..|item|-1], key);
      BytesIs(item[..|item|-1]);
    }
  }

  /** A string that was capped twice: the second marker counts bytes of the
      string that the first cap left, which are few. */
  lemma CappedTwice(t: Text, first: nat, max: nat, k: nat)
    requires k >= 1 && Size(t) < Pow10(10) && first + 31 < Pow10(k)
    ensures Size(Print(Str(Capped(Capped(t, first), max)))) <= 2 + 6 * (max + 21 + k)
  {
    CappedBound(t, first, 10);
    CappedBound(Capped(t, first), max, k);
    QuoteSize(Capped(Capped(t, first), max));
  }

  lemma MarkedBytes(item: seq<Field>, key: Text)
    requires IsContainer(key) && Marked(item, key)
    ensures BytesAt(item, key) <= 14 + SIZE_MARKER_BYTES
  {
    PlainNames();
    match Get(item, key)
    case Some(v) => NamedBytes(key, v);
    case None =>
  }

  /** What an item may take besides its other fields after all three steps:
      message and stack at their final caps with every byte escaped, a size
      marker for each container, and the flag. */
  const FIT_SLACK: nat := 31_283

  lemma Step1Leaves(item: seq<Field>)
    requires Unique(item)
    ensures var d := Step1(item);
            && Leaves(item, d.fields, FLAG_BYTES) && SameContainers(item, d.fields)
            && CappedAt(item, d.fields, MESSAGE, MESSAGE_BYTES) && CappedAt(item, d.fields, STACK, STACK_BYTES)
  {
    OtherNames();
    var d0 := Draft(item, false);
    var d1 := CapField(d0, MESSAGE, MESSAGE_BYTES);
    var d2 := CapField(d1, STACK, STACK_BYTES);
    CapFieldLeaves(d0, MESSAGE, MESSAGE_BYTES);
    CapFieldLeaves(d1, STACK, STACK_BYTES);
    CapContainersLeaves(d2, 3);
    var c := ContainersCapped(d2, 3).fields;
    SetFlag(c);
    forall j ensures Get(Set(c, FLAG, Bool(true)), j) == if j == FLAG then Some(Bool(true)) else Get(c, j) {
      GetSet(c, FLAG, Bool(true), j);
    }
  }

  /** The field of `b` is that of `a`, capped if it is a string. */
  ghost predicate CappedAt(a: seq<Field>, b: seq<Field>, key: Text, max: nat)
  {
    match Get(a, key)
    case Some(Str(s)) => Get(b, key) == Some(Str(Capped(s, max)))
    case v => Get(b, key) == v
  }

  lemma Step3Leaves(d: Draft)
    requires Unique(d.fields)
    ensures var c := Step3(d);
            && Leaves(d.fields, c.fields, 0) && (forall j | IsContainer(j) :: Get(c.fields, j) == Get(d.fields, j))
            && CappedAt(d.fields, c.fields, MESSAGE, MESSAGE_FINAL_BYTES) && CappedAt(d.fields, c.fields, STACK, STACK_FINAL_BYTES)
  {
    OtherNames();
    var c := CapField(d, MESSAGE, MESSAGE_FINAL_BYTES);
    CapFieldLeaves(d, MESSAGE, MESSAGE_FINAL_BYTES);
    CapFieldLeaves(c, STACK, STACK_FINAL_BYTES);
    LeavesOn(d.fields, c.fields, Step3(d).fields, 0, 0);
  }

  lemma DroppedInTurn(d: Draft, item: seq<Field>)
    ensures Step2(d, item) == DropContainer(DropContainer(DropContainer(d, item, CONTEXT), item, META), item, PROPERTIES)
  {
    assert CONTAINERS[0] == CONTEXT && CONTAINERS[1] == META && CONTAINERS[2] == PROPERTIES;
    assert ContainersDropped(d, item, 1) == DropContainer(d, item, CONTEXT);
    assert ContainersDropped(d, item, 2) == DropContainer(ContainersDropped(d, item, 1), item, META);
  }

  /** One more container dropped. */
  lemma DropsOn(a: seq<Field>, d: Draft, item: seq<Field>, key: Text)
    requires IsContainer(key) && Leaves(a, d.fields, 0) && SameOutside(a, d.fields) && SameContainers(item, a)
    requires Bytes(item) < Pow10(10)
    ensures var c := DropContainer(d, item, key).fields;
            && Leaves(a, c, 0) && SameOutside(a, c) && Marked(c, key)
            && forall k | k != key && Marked(d.fields, k) :: Marked(c, k)
  {
    if Get(item, key).Some? { ValueBytes(item, key); }
    DropContainerLeaves(d, item, key);
    LeavesOn(a, d.fields, DropContainer(d, item, key).fields, 0, 0);
  }

  lemma Step2Leaves(d: Draft, item: seq<Field>)
    requires Unique(d.fields) && SameContainers(item, d.fields) && Bytes(item) < Pow10(10)
    ensures var c := Step2(d, item);
            && Leaves(d.fields, c.fields, 0) && SameOutside(d.fields, c.fields)
            && Marked(c.fields, CONTEXT) && Marked(c.fields, META) && Marked(c.fields, PROPERTIES)
  {
    OtherNames();
    DroppedInTurn(d, item);
    var c := DropContainer(d, item, CONTEXT);
    DropsOn(d.fields, d, item, CONTEXT);
    DropsOn(d.fields, c, item, META);
    DropsOn(d.fields, DropContainer(c, item, META), item, PROPERTIES);
  }

  lemma AllStepsLeave(item: seq<Field>)
    requires Unique(item) && Bytes(item) < Pow10(10)
    ensures var d2, d := Step2(Step1(item), item).fields, Step3(Step2(Step1(item), item)).fields;
            && Leaves(item, d, FLAG_BYTES)
            && Marked(d, CONTEXT) && Marked(d, META) && Marked(d, PROPERTIES)
            && CappedAt(item, d2, MESSAGE, MESSAGE_BYTES) && CappedAt(d2, d, MESSAGE, MESSAGE_FINAL_BYTES)
            && CappedAt(item, d2, STACK, STACK_BYTES) && CappedAt(d2, d, STACK, STACK_FINAL_BYTES)
  {
    OtherNames();
    var d1 := Step1(item);
    Step1Leaves(item);
    Step2Leaves(d1, item);
    Step3Leaves(Step2(d1, item));
    LeavesOn(item, d1.fields, Step2(d1, item).fields, FLAG_BYTES, 0);
    LeavesOn(item, Step2(d1, item).fields, Step3(Step2(d1, item)).fields, FLAG_BYTES, 0);
  }

  lemma SpecialAtMost(item: seq<Field>)
    requires Unique(item) && Bytes(item) < Pow10(10)
    ensures SpecialBytes(Step3(Step2(Step1(item), item)).fields) + FLAG_BYTES <= FIT_SLACK
  {
    AllStepsLeave(item);
    var m, d := Step2(Step1(item), item).fields, Step3(Step2(Step1(item), item)).fields;
    MarkedBytes(d, CONTEXT);
    MarkedBytes(d, META);
    MarkedBytes(d, PROPERTIES);
    assert Pow10(4) == 10_000 && Pow10(5) == 100_000;
    StringAtMost(item, m, d, MESSAGE, MESSAGE_BYTES, MESSAGE_FINAL_BYTES, 4);
    StringAtMost(item, m, d, STACK, STACK_BYTES, STACK_FINAL_BYTES, 5);
  }

  lemma BytesAtMost(item: seq<Field>, key: Text, n: nat)
    requires Plain(key) && (Get(item, key).Some? && Get(item, key).value.Str? ==> Size(Print(Get(item, key).value)) <= n)
    requires key == MESSAGE || key == STACK
    ensures BytesAt(item, key) <= |key| + 4 + n
  {
    OtherNames();
    match Get(item, key)
    case Some(v) => NamedBytes(key, v);
    case None =>
  }

  predicate HasString(item: seq<Field>, key: Text) { Get(item, key).Some? && Get(item, key).value.Str? }

  lemma TwiceCapped(item: seq<Field>, m: seq<Field>, d: seq<Field>, key: Text, first: nat, max: nat)
    requires CappedAt(item, m, key, first) && CappedAt(m, d, key, max) && HasString(d, key)
    ensures HasString(item, key) && Get(d, key).value == Str(Capped(Capped(Get(item, key).value.s, first), max))
  {
  }

  lemma StringAtMost(item: seq<Field>, m: seq<Field>, d: seq<Field>, key: Text, first: nat, max: nat, k: nat)
    requires Bytes(item) < Pow10(10) && (key == MESSAGE || key == STACK)
    requires k >= 1 && first + 31 < Pow10(k)
    requires CappedAt(item, m, key, first) && CappedAt(m, d, key, max)
    ensures BytesAt(d, key) <= |key| + 6 + 6 * (max + 21 + k)
  {
    if HasString(d, key) {
      TwiceCapped(item, m, d, key, first, max);
      StringBound(item, key, Get(item, key).value.s, first, max, k);
    }
    PlainNames();
    BytesAtMost(d, key, 2 + 6 * (max + 21 + k));
  }

  lemma StringBound(item: seq<Field>, key: Text, s: Text, first: nat, max: nat, k: nat)
    requires Bytes(item) < Pow10(10) && Get(item, key) == Some(Str(s)) && k >= 1 && first + 31 < Pow10(k)
    ensures Size(Print(Str(Capped(Capped(s, first), max)))) <= 2 + 6 * (max + 21 + k)
  {
    ValueBytes(item, key);
    QuoteSize(s);
    CappedTwice(s, first, max, k);
  }

  /** The fitting guarantee: an item whose other fields leave `FIT_SLACK` bytes
      of the budget never ends up oversized. Items of 10^10 bytes and more, which
      no JavaScript string can hold, are not covered. */
  lemma FitGuarantee(item: seq<Field>, budget: int)
    requires Unique(item) && Bytes(item) < Pow10(10)
    requires Bytes(Rest(item)) + FIT_SLACK <= budget
    ensures !Fit(item, budget).oversized
  {
    if Bytes(item) > budget {
      var d := Drafted(item, budget);
      if Bytes(d.fields) > budget {
        var f := Step3(Step2(Step1(item), item)).fields;
        assert d.fields == f;
        AllStepsLeave(item);
        SpecialAtMost(item);
        WeighSplit(f);
        BytesIs(f);
        BytesIs(Rest(item));
      }
      RemoveBytes(d.fields, FLAG);
    }
  }
}
