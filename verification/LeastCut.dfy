/** `fitItem` takes the least truncation that fits: no step is taken while the
    item fits without it. */
module LeastCut {
  import opened Utf8
  import opened Json
  import opened Truncation
  import Markers

  // ---------------------------------------------------------------------
  // The four forms of an item
  // ---------------------------------------------------------------------

  /** What a field becomes in the first, second and third form of an item. */
  ghost function CutValue(f: Field, level: nat): Value
  {
    if f.key == MESSAGE && f.value.Str? then Str(CutText(f.value.s, 8_192, 1_024, level))
    else if f.key == STACK && f.value.Str? then Str(CutText(f.value.s, 32_768, 4_096, level))
    else if IsContainer(f.key) then
      if level == 0 then f.value
      else if level == 1 then CapStrings(f.value, 8_192)
      else Obj([Field(FLAG, Bool(true)), Field(ORIGINAL_BYTES, Num(Decimal(Size(Print(f.value)))))])
    else f.value
  }

  ghost function CutText(s: Text, first: nat, last: nat, level: nat): Text
  {
    if level == 0 then s else if level <= 2 then Capped(s, first) else Capped(Capped(s, first), last)
  }

  ghost function CutFields(item: seq<Field>, level: nat): (r: seq<Field>)
    ensures |r| == |item| && forall i | 0 <= i < |item| :: r[i] == Field(item[i].key, CutValue(item[i], level))
  {
    seq(|item|, i requires 0 <= i < |item| => Field(item[i].key, CutValue(item[i], level)))
  }

  /** The item as it is, and its three cut forms, which carry the flag. */
  ghost function CutItem(item: seq<Field>, level: nat): seq<Field>
  {
    if level == 0 then item else CutFields(Set(item, FLAG, Bool(true)), level)
  }

  /** The form is not the item with a flag. */
  ghost predicate Cuts(item: seq<Field>, level: nat)
  {
    exists i :: 0 <= i < |item| && CutsField(item[i], level)
  }

  ghost predicate CutsField(f: Field, level: nat)
  {
    || (f.key == MESSAGE && f.value.Str? && Size(f.value.s) > if level <= 2 then 8_192 else 1_024)
    || (f.key == STACK && f.value.Str? && Size(f.value.s) > if level <= 2 then 32_768 else 4_096)
    || (IsContainer(f.key) && (level >= 2 || HasLong(f.value, 8_192)))
  }

  // ---------------------------------------------------------------------
  // Fields, one by one
  // ---------------------------------------------------------------------

  /** `b` is `a` with the values of one key changed by `v`. */
  ghost predicate OneChanged(a: seq<Field>, b: seq<Field>, key: Text, v: Value -> Value)
  {
    |b| == |a| && forall i | 0 <= i < |a| :: b[i] == if a[i].key == key then Field(key, v(a[i].value)) else a[i]
  }

  lemma SetAt(item: seq<Field>, key: Text, w: Value, v: Value -> Value)
    requires Unique(item) && Get(item, key).Some? && v(Get(item, key).value) == w
    ensures OneChanged(item, Set(item, key, w), key, v)
  {
    forall i | 0 <= i < |item| && item[i].key == key ensures v(item[i].value) == w {
      TheField(item, key, i);
    }
  }

  lemma Unchanged(item: seq<Field>, key: Text, v: Value -> Value)
    requires Unique(item) && (Get(item, key).Some? ==> v(Get(item, key).value) == Get(item, key).value)
    ensures OneChanged(item, item, key, v)
  {
    forall i | 0 <= i < |item| && item[i].key == key ensures v(item[i].value) == item[i].value {
      TheField(item, key, i);
    }
  }

  ghost function CapText(v: Value, max: nat): Value { if v.Str? then Str(Capped(v.s, max)) else v }

  lemma CapFieldAt(d: Draft, key: Text, max: nat)
    requires Unique(d.fields)
    ensures OneChanged(d.fields, CapField(d, key, max).fields, key, v => CapText(v, max))
    ensures CapField(d, key, max).truncated <==> d.truncated || exists i :: 0 <= i < |d.fields| && LongText(d.fields[i], key, max)
  {
    GetIs(d.fields, key);
    forall i | 0 <= i < |d.fields| && d.fields[i].key == key ensures Get(d.fields, key) == Some(d.fields[i].value) {
      TheField(d.fields, key, i);
    }
    match Get(d.fields, key)
    case Some(Str(s)) =>
      var i :| 0 <= i < |d.fields| && d.fields[i].key == key;
      if TooLong(s, max) {
        assert LongText(d.fields[i], key, max);
        SetAt(d.fields, key, Str(Capped(s, max)), v => CapText(v, max));
      } else {
        Unchanged(d.fields, key, v => CapText(v, max));
      }
    case _ => Unchanged(d.fields, key, v => CapText(v, max));
  }

  predicate LongText(f: Field, key: Text, max: nat) { f.key == key && f.value.Str? && Size(f.value.s) > max }

  lemma CapContainerAt(d: Draft, key: Text)
    requires Unique(d.fields)
    ensures OneChanged(d.fields, CapContainer(d, key).fields, key, v => CapStrings(v, FIELD_BYTES))
    ensures CapContainer(d, key).truncated <==> d.truncated || exists i :: 0 <= i < |d.fields| && LongIn(d.fields[i], key)
  {
    GetIs(d.fields, key);
    forall i | 0 <= i < |d.fields| && d.fields[i].key == key ensures Get(d.fields, key) == Some(d.fields[i].value) {
      TheField(d.fields, key, i);
    }
    match Get(d.fields, key)
    case Some(w) =>
      var i :| 0 <= i < |d.fields| && d.fields[i].key == key;
      if HasLong(w, FIELD_BYTES) {
        assert LongIn(d.fields[i], key);
        SetAt(d.fields, key, CapStrings(w, FIELD_BYTES), v => CapStrings(v, FIELD_BYTES));
      } else {
        ShortIsKept(w, FIELD_BYTES);
        Unchanged(d.fields, key, v => CapStrings(v, FIELD_BYTES));
      }
    case None =>
  }

  predicate LongIn(f: Field, key: Text) { f.key == key && HasLong(f.value, FIELD_BYTES) }

  ghost predicate SameKeys(a: seq<Field>, b: seq<Field>) { |b| == |a| && forall i | 0 <= i < |a| :: b[i].key == a[i].key }

  lemma KeysKeepUnique(a: seq<Field>, b: seq<Field>)
    requires Unique(a) && SameKeys(a, b)
    ensures Unique(b)
  {
  }

  predicate HasLongText(fields: seq<Field>, key: Text, max: nat) { exists i :: 0 <= i < |fields| && LongText(fields[i], key, max) }

  predicate HasLongIn(fields: seq<Field>, key: Text) { exists i :: 0 <= i < |fields| && LongIn(fields[i], key) }

  /** Both lists have the same fields with this key. */
  ghost predicate SameAt(a: seq<Field>, b: seq<Field>, key: Text)
  {
    SameKeys(a, b) && forall i | 0 <= i < |a| && a[i].key == key :: b[i] == a[i]
  }

  lemma SameLong(a: seq<Field>, b: seq<Field>, key: Text, max: nat)
    requires SameAt(a, b, key)
    ensures HasLongText(b, key, max) == HasLongText(a, key, max) && HasLongIn(b, key) == HasLongIn(a, key)
  {
    if HasLongText(a, key, max) { var i :| 0 <= i < |a| && LongText(a[i], key, max); assert LongText(b[i], key, max); }
    if HasLongText(b, key, max) { var i :| 0 <= i < |b| && LongText(b[i], key, max); assert LongText(a[i], key, max); }
    if HasLongIn(a, key) { var i :| 0 <= i < |a| && LongIn(a[i], key); assert LongIn(b[i], key); }
    if HasLongIn(b, key) { var i :| 0 <= i < |b| && LongIn(b[i], key); assert LongIn(a[i], key); }
  }

  lemma ChangedElsewhere(a: seq<Field>, b: seq<Field>, key: Text, v: Value -> Value, other: Text)
    requires OneChanged(a, b, key, v) && key != other
    ensures SameAt(a, b, other)
  {
  }

  lemma SameAtOn(a: seq<Field>, b: seq<Field>, c: seq<Field>, key: Text)
    requires SameAt(a, b, key) && SameAt(b, c, key)
    ensures SameAt(a, c, key)
  {
  }

  // ---------------------------------------------------------------------
  // The first step
  // ---------------------------------------------------------------------

  /** Message and stack capped. */
  ghost predicate TextsCapped(a: seq<Field>, b: seq<Field>, first: nat, second: nat)
  {
    |b| == |a| && forall i | 0 <= i < |a| ::
      b[i] == if a[i].key == MESSAGE then Field(MESSAGE, CapText(a[i].value, first))
              else if a[i].key == STACK then Field(STACK, CapText(a[i].value, second)) else a[i]
  }

  lemma TextsAt(d: Draft, first: nat, second: nat)
    requires Unique(d.fields)
    ensures var c := CapField(CapField(d, MESSAGE, first), STACK, second);
            && TextsCapped(d.fields, c.fields, first, second)
            && (c.truncated <==> d.truncated || HasLongText(d.fields, MESSAGE, first) || HasLongText(d.fields, STACK, second))
  {
    OtherNames();
    var m := CapField(d, MESSAGE, first);
    CapFieldAt(d, MESSAGE, first);
    KeysKeepUnique(d.fields, m.fields);
    CapFieldAt(m, STACK, second);
    SameLong(d.fields, m.fields, STACK, second);
  }

  /** The containers capped. */
  ghost predicate BagsCapped(a: seq<Field>, b: seq<Field>)
  {
    |b| == |a| && forall i | 0 <= i < |a| ::
      b[i] == if IsContainer(a[i].key) then Field(a[i].key, CapStrings(a[i].value, FIELD_BYTES)) else a[i]
  }

  predicate HasLongBag(fields: seq<Field>) { HasLongIn(fields, CONTEXT) || HasLongIn(fields, META) || HasLongIn(fields, PROPERTIES) }

  lemma CappedInTurn(d: Draft)
    ensures ContainersCapped(d, 3) == CapContainer(CapContainer(CapContainer(d, CONTEXT), META), PROPERTIES)
  {
    assert CONTAINERS[0] == CONTEXT && CONTAINERS[1] == META && CONTAINERS[2] == PROPERTIES;
    assert ContainersCapped(d, 1) == CapContainer(d, CONTEXT);
    assert ContainersCapped(d, 2) == CapContainer(ContainersCapped(d, 1), META);
  }

  lemma ThreeChanged(a: seq<Field>, b: seq<Field>, c: seq<Field>, d: seq<Field>)
    requires OneChanged(a, b, CONTEXT, v => CapStrings(v, FIELD_BYTES)) && OneChanged(b, c, META, v => CapStrings(v, FIELD_BYTES))
    requires OneChanged(c, d, PROPERTIES, v => CapStrings(v, FIELD_BYTES))
    ensures BagsCapped(a, d)
  {
    OtherNames();
    forall i | 0 <= i < |a|
      ensures d[i] == if IsContainer(a[i].key) then Field(a[i].key, CapStrings(a[i].value, FIELD_BYTES)) else a[i]
    {
      assert b[i].key == a[i].key && c[i].key == a[i].key;
    }
  }

  lemma BagsAt(d: Draft)
    requires Unique(d.fields)
    ensures var c := ContainersCapped(d, 3); BagsCapped(d.fields, c.fields) && (c.truncated <==> d.truncated || HasLongBag(d.fields))
  {
    OtherNames();
    CappedInTurn(d);
    var a := CapContainer(d, CONTEXT);
    var b := CapContainer(a, META);
    var c := CapContainer(b, PROPERTIES);
    CapBag(d, CONTEXT);
    CapBag(a, META);
    CapBag(b, PROPERTIES);
    ThreeChanged(d.fields, a.fields, b.fields, c.fields);
    ChangedElsewhere(d.fields, a.fields, CONTEXT, v => CapStrings(v, FIELD_BYTES), META);
    ChangedElsewhere(d.fields, a.fields, CONTEXT, v => CapStrings(v, FIELD_BYTES), PROPERTIES);
    ChangedElsewhere(a.fields, b.fields, META, v => CapStrings(v, FIELD_BYTES), PROPERTIES);
    SameAtOn(d.fields, a.fields, b.fields, PROPERTIES);
    SameLong(d.fields, a.fields, META, 0);
    SameLong(d.fields, b.fields, PROPERTIES, 0);
  }

  lemma CapBag(d: Draft, key: Text)
    requires Unique(d.fields)
    ensures var c := CapContainer(d, key);
            && OneChanged(d.fields, c.fields, key, v => CapStrings(v, FIELD_BYTES)) && Unique(c.fields)
            && (c.truncated <==> d.truncated || HasLongIn(d.fields, key))
  {
    CapContainerAt(d, key);
    KeysKeepUnique(d.fields, CapContainer(d, key).fields);
  }

  lemma TextsLeaveBags(a: seq<Field>, b: seq<Field>, key: Text)
    requires TextsCapped(a, b, MESSAGE_BYTES, STACK_BYTES) && IsContainer(key)
    ensures SameAt(a, b, key)
  {
    OtherNames();
  }

  /** The flag may as well be set before. */
  lemma FlagFirst(item: seq<Field>, level: nat)
    ensures Set(CutFields(item, level), FLAG, Bool(true)) == CutFields(Set(item, FLAG, Bool(true)), level)
  {
    OtherNames();
    var c := CutFields(item, level);
    GetIs(item, FLAG);
    GetIs(c, FLAG);
    if Get(item, FLAG) == None {
      assert forall i | 0 <= i < |item| :: c[i].key == item[i].key;
    } else {
      var i :| 0 <= i < |item| && item[i].key == FLAG;
      assert c[i].key == FLAG;
    }
  }

  lemma FirstForm(a: seq<Field>, b: seq<Field>, c: seq<Field>)
    requires TextsCapped(a, b, MESSAGE_BYTES, STACK_BYTES) && BagsCapped(b, c)
    ensures c == CutFields(a, 1)
  {
    OtherNames();
  }

  lemma FirstCuts(item: seq<Field>)
    ensures Cuts(item, 1) <==>
            HasLongText(item, MESSAGE, MESSAGE_BYTES) || HasLongText(item, STACK, STACK_BYTES) || HasLongBag(item)
  {
    if HasLongText(item, MESSAGE, MESSAGE_BYTES) {
      var i :| 0 <= i < |item| && LongText(item[i], MESSAGE, MESSAGE_BYTES);
      assert CutsField(item[i], 1);
    }
    if HasLongText(item, STACK, STACK_BYTES) {
      var i :| 0 <= i < |item| && LongText(item[i], STACK, STACK_BYTES);
      assert CutsField(item[i], 1);
    }
    LongBags(item);
    if Cuts(item, 1) {
      var i :| 0 <= i < |item| && CutsField(item[i], 1);
      assert LongText(item[i], MESSAGE, MESSAGE_BYTES) || LongText(item[i], STACK, STACK_BYTES)
             || (IsContainer(item[i].key) && LongIn(item[i], item[i].key));
    }
  }

  lemma LongBags(item: seq<Field>)
    ensures HasLongBag(item) <==> exists i :: 0 <= i < |item| && IsContainer(item[i].key) && LongIn(item[i], item[i].key)
    ensures HasLongBag(item) ==> Cuts(item, 1)
  {
    if HasLongBag(item) {
      var key := if HasLongIn(item, CONTEXT) then CONTEXT else if HasLongIn(item, META) then META else PROPERTIES;
      var i :| 0 <= i < |item| && LongIn(item[i], key);
      assert IsContainer(item[i].key) && LongIn(item[i], item[i].key) && CutsField(item[i], 1);
    }
  }

  lemma TextsLeaveLong(a: seq<Field>, b: seq<Field>)
    requires TextsCapped(a, b, MESSAGE_BYTES, STACK_BYTES)
    ensures HasLongBag(b) == HasLongBag(a)
  {
    TextsLeaveBags(a, b, CONTEXT);
    TextsLeaveBags(a, b, META);
    TextsLeaveBags(a, b, PROPERTIES);
    SameLong(a, b, CONTEXT, 0);
    SameLong(a, b, META, 0);
    SameLong(a, b, PROPERTIES, 0);
  }

  lemma Step1Is(item: seq<Field>)
    requires Unique(item)
    ensures Step1(item).fields == CutItem(item, 1) && (Step1(item).truncated <==> Cuts(item, 1))
  {
    var d := Draft(item, false);
    var t := CapField(CapField(d, MESSAGE, MESSAGE_BYTES), STACK, STACK_BYTES);
    TextsAt(d, MESSAGE_BYTES, STACK_BYTES);
    TextsKeys(item, t.fields, MESSAGE_BYTES, STACK_BYTES);
    BagsAt(t);
    TextsLeaveLong(item, t.fields);
    FirstForm(item, t.fields, ContainersCapped(t, 3).fields);
    FirstCuts(item);
    FlagFirst(item, 1);
  }

  lemma TextsKeys(a: seq<Field>, b: seq<Field>, first: nat, second: nat)
    requires TextsCapped(a, b, first, second) && Unique(a)
    ensures Unique(b)
  {
    KeysKeepUnique(a, b);
  }

  // ---------------------------------------------------------------------
  // The second step
  // ---------------------------------------------------------------------

  /** The base of the cut forms. */
  function WithMark(item: seq<Field>): seq<Field> { Set(item, FLAG, Bool(true)) }

  ghost predicate OneDropped(item: seq<Field>, a: seq<Field>, b: seq<Field>, key: Text)
  {
    |b| == |a| && forall i | 0 <= i < |a| ::
      b[i] == if a[i].key == key && Get(item, key).Some? then Field(key, SizeMarker(Size(Print(Get(item, key).value)))) else a[i]
  }

  lemma DropAt(d: Draft, item: seq<Field>, key: Text)
    requires Unique(d.fields) && IsContainer(key) && SameKeys(WithMark(item), d.fields)
    ensures DropContainer(d, item, key).truncated <==> d.truncated || Get(item, key).Some?
    ensures OneDropped(item, d.fields, DropContainer(d, item, key).fields, key) && Unique(DropContainer(d, item, key).fields)
  {
    OtherNames();
    GetSet(item, FLAG, Bool(true), key);
    GetIs(WithMark(item), key);
    GetIs(d.fields, key);
    if Get(item, key).Some? {
      var i :| 0 <= i < |WithMark(item)| && WithMark(item)[i].key == key;
      assert d.fields[i].key == key;
    }
    KeysKeepUnique(d.fields, DropContainer(d, item, key).fields);
  }

  ghost predicate BagsDropped(item: seq<Field>, a: seq<Field>, b: seq<Field>)
  {
    |b| == |a| && forall i | 0 <= i < |a| ::
      b[i] == if IsContainer(a[i].key) && Get(item, a[i].key).Some?
              then Field(a[i].key, SizeMarker(Size(Print(Get(item, a[i].key).value)))) else a[i]
  }

  predicate HasBag(item: seq<Field>) { Get(item, CONTEXT).Some? || Get(item, META).Some? || Get(item, PROPERTIES).Some? }

  lemma ThreeDropped(item: seq<Field>, a: seq<Field>, b: seq<Field>, c: seq<Field>, d: seq<Field>)
    requires OneDropped(item, a, b, CONTEXT) && OneDropped(item, b, c, META) && OneDropped(item, c, d, PROPERTIES)
    ensures BagsDropped(item, a, d)
  {
    OtherNames();
  }

  lemma DropsAt(d: Draft, item: seq<Field>)
    requires Unique(d.fields) && SameKeys(WithMark(item), d.fields)
    ensures var c := Step2(d, item); BagsDropped(item, d.fields, c.fields) && (c.truncated <==> d.truncated || HasBag(item))
  {
    DroppedInTurn(d, item);
    var a := DropContainer(d, item, CONTEXT);
    var b := DropContainer(a, item, META);
    DropAt(d, item, CONTEXT);
    DropAt(a, item, META);
    DropAt(b, item, PROPERTIES);
    ThreeDropped(item, d.fields, a.fields, b.fields, Step2(d, item).fields);
  }

  lemma SecondField(item: seq<Field>, i: nat)
    requires Unique(item) && i < |WithMark(item)| && IsContainer(WithMark(item)[i].key)
    ensures Get(item, WithMark(item)[i].key) == Some(WithMark(item)[i].value)
  {
    OtherNames();
    SetUnique(item, FLAG, Bool(true));
    TheField(WithMark(item), WithMark(item)[i].key, i);
    GetSet(item, FLAG, Bool(true), WithMark(item)[i].key);
  }

  lemma SecondForm(item: seq<Field>, b: seq<Field>)
    requires Unique(item) && BagsDropped(item, CutItem(item, 1), b)
    ensures b == CutItem(item, 2)
  {
    OtherNames();
    forall i | 0 <= i < |WithMark(item)| ensures b[i] == CutItem(item, 2)[i] {
      if IsContainer(WithMark(item)[i].key) { SecondField(item, i); }
    }
  }

  lemma SecondCuts(item: seq<Field>)
    ensures Cuts(item, 2) <==> Cuts(item, 1) || HasBag(item)
  {
    GetIs(item, CONTEXT);
    GetIs(item, META);
    GetIs(item, PROPERTIES);
    if Cuts(item, 1) {
      var i :| 0 <= i < |item| && CutsField(item[i], 1);
      assert CutsField(item[i], 2);
    }
    if HasBag(item) {
      var i :| 0 <= i < |item| && IsContainer(item[i].key);
      assert CutsField(item[i], 2);
    }
    if Cuts(item, 2) {
      var i :| 0 <= i < |item| && CutsField(item[i], 2);
      if !IsContainer(item[i].key) { assert CutsField(item[i], 1); }
    }
  }

  lemma Step2Is(item: seq<Field>)
    requires Unique(item)
    ensures Step2(Step1(item), item).fields == CutItem(item, 2) && (Step2(Step1(item), item).truncated <==> Cuts(item, 2))
  {
    Step1Is(item);
    SetUnique(item, FLAG, Bool(true));
    KeysKeepUnique(WithMark(item), CutItem(item, 1));
    DropsAt(Step1(item), item);
    SecondForm(item, Step2(Step1(item), item).fields);
    SecondCuts(item);
  }

  // ---------------------------------------------------------------------
  // The third step
  // ---------------------------------------------------------------------

  lemma ThirdForm(item: seq<Field>, b: seq<Field>)
    requires TextsCapped(CutItem(item, 2), b, MESSAGE_FINAL_BYTES, STACK_FINAL_BYTES)
    ensures b == CutItem(item, 3)
  {
    OtherNames();
  }

  /** A string is still too long for the last limit exactly if it was. */
  lemma StillLong(s: Text, first: nat, last: nat)
    requires last + 4 <= first
    ensures Size(Capped(s, first)) > last <==> Size(s) > last
  {
    if TooLong(s, first) { Markers.SecondCutKeeps(s, first, last); }
  }

  /** A string of the second form is too long exactly if the string of the item is. */
  lemma LongAgain(item: seq<Field>, key: Text, first: nat, last: nat)
    requires Unique(item) && last + 4 <= first
    requires (key == MESSAGE && first == MESSAGE_BYTES) || (key == STACK && first == STACK_BYTES)
    ensures HasLongText(CutItem(item, 2), key, last) <==> HasLongText(item, key, last)
  {
    OtherNames();
    var m, c := WithMark(item), CutItem(item, 2);
    SameMark(item, key);
    if HasLongText(c, key, last) {
      var i :| 0 <= i < |c| && LongText(c[i], key, last);
      StillLong(m[i].value.s, first, last);
      assert LongText(m[i], key, last);
    }
    if HasLongText(m, key, last) {
      var i :| 0 <= i < |m| && LongText(m[i], key, last);
      StillLong(m[i].value.s, first, last);
      assert LongText(c[i], key, last);
    }
    assert HasLongText(m, key, last) <==> HasLongText(item, key, last);
  }

  lemma SameMark(item: seq<Field>, key: Text)
    requires key != FLAG
    ensures forall max: nat :: HasLongText(WithMark(item), key, max) <==> HasLongText(item, key, max)
  {
    var m := WithMark(item);
    forall max: nat ensures HasLongText(m, key, max) <==> HasLongText(item, key, max) {
      if HasLongText(item, key, max) { var i :| 0 <= i < |item| && LongText(item[i], key, max); assert LongText(m[i], key, max); }
      if HasLongText(m, key, max) { var i :| 0 <= i < |m| && LongText(m[i], key, max); assert i < |item| && LongText(item[i], key, max); }
    }
  }

  lemma ThirdCuts(item: seq<Field>)
    ensures Cuts(item, 3) <==>
            Cuts(item, 2) || HasLongText(item, MESSAGE, MESSAGE_FINAL_BYTES) || HasLongText(item, STACK, STACK_FINAL_BYTES)
  {
    if Cuts(item, 2) {
      var i :| 0 <= i < |item| && CutsField(item[i], 2);
      assert CutsField(item[i], 3);
    }
    if HasLongText(item, MESSAGE, MESSAGE_FINAL_BYTES) {
      var i :| 0 <= i < |item| && LongText(item[i], MESSAGE, MESSAGE_FINAL_BYTES);
      assert CutsField(item[i], 3);
    }
    if HasLongText(item, STACK, STACK_FINAL_BYTES) {
      var i :| 0 <= i < |item| && LongText(item[i], STACK, STACK_FINAL_BYTES);
      assert CutsField(item[i], 3);
    }
    if Cuts(item, 3) {
      var i :| 0 <= i < |item| && CutsField(item[i], 3);
      assert CutsField(item[i], 2) || LongText(item[i], MESSAGE, MESSAGE_FINAL_BYTES) || LongText(item[i], STACK, STACK_FINAL_BYTES);
    }
  }

  lemma Step3Is(item: seq<Field>)
    requires Unique(item)
    ensures var d := Step3(Step2(Step1(item), item)); d.fields == CutItem(item, 3) && (d.truncated <==> Cuts(item, 3))
  {
    Step2Is(item);
    SetUnique(item, FLAG, Bool(true));
    KeysKeepUnique(WithMark(item), CutItem(item, 2));
    TextsAt(Step2(Step1(item), item), MESSAGE_FINAL_BYTES, STACK_FINAL_BYTES);
    ThirdForm(item, Step3(Step2(Step1(item), item)).fields);
    LongAgain(item, MESSAGE, MESSAGE_BYTES, MESSAGE_FINAL_BYTES);
    LongAgain(item, STACK, STACK_BYTES, STACK_FINAL_BYTES);
    ThirdCuts(item);
  }

  // ---------------------------------------------------------------------
  // The least form that fits
  // ---------------------------------------------------------------------

  ghost predicate FormFits(item: seq<Field>, level: nat, budget: int) { Truncation.Bytes(CutItem(item, level)) <= budget }

  lemma DraftIs(item: seq<Field>, budget: int, level: nat)
    requires Unique(item) && 1 <= level <= 3
    requires level > 1 ==> !FormFits(item, 1, budget)
    requires level > 2 ==> !FormFits(item, 2, budget)
    requires level < 3 ==> FormFits(item, level, budget)
    ensures Drafted(item, budget).fields == CutItem(item, level) && (Drafted(item, budget).truncated <==> Cuts(item, level))
  {
    Step1Is(item);
    Step2Is(item);
    Step3Is(item);
    var d1 := Step1(item);
    var d2 := Step2(d1, item);
    DraftedIs(item, budget, d1, d2, Step3(d2));
    Picked(item, budget, level, d1, d2, Step3(d2), Drafted(item, budget));
  }

  lemma DraftedIs(item: seq<Field>, budget: int, d1: Draft, d2: Draft, d3: Draft)
    requires d1 == Step1(item) && d2 == Step2(d1, item) && d3 == Step3(d2)
    ensures Drafted(item, budget) ==
            if Truncation.Bytes(d1.fields) <= budget then d1 else if Truncation.Bytes(d2.fields) <= budget then d2 else d3
  {
  }

  lemma Picked(item: seq<Field>, budget: int, level: nat, d1: Draft, d2: Draft, d3: Draft, d: Draft)
    requires 1 <= level <= 3
    requires level > 1 ==> !FormFits(item, 1, budget)
    requires level > 2 ==> !FormFits(item, 2, budget)
    requires level < 3 ==> FormFits(item, level, budget)
    requires d1.fields == CutItem(item, 1) && d2.fields == CutItem(item, 2) && d3.fields == CutItem(item, 3)
    requires d == if Truncation.Bytes(d1.fields) <= budget then d1 else if Truncation.Bytes(d2.fields) <= budget then d2 else d3
    requires (d1.truncated <==> Cuts(item, 1)) && (d2.truncated <==> Cuts(item, 2)) && (d3.truncated <==> Cuts(item, 3))
    ensures d.fields == CutItem(item, level) && (d.truncated <==> Cuts(item, level))
  {
    if level == 1 { assert d == d1; } else if level == 2 { assert d == d2; } else { assert d == d3; }
  }

  ghost function FormItem(item: seq<Field>, level: nat): seq<Field>
  {
    if level == 0 || Cuts(item, level) then CutItem(item, level) else Remove(CutItem(item, level), FLAG)
  }

  lemma FitIs(item: seq<Field>, budget: int, level: nat)
    requires 1 <= level <= 3 && !FormFits(item, 0, budget)
    requires Drafted(item, budget).fields == CutItem(item, level) && (Drafted(item, budget).truncated <==> Cuts(item, level))
    ensures Fit(item, budget).item == FormItem(item, level) && (Fit(item, budget).truncated <==> Cuts(item, level))
  {
  }

  lemma FitWhole(item: seq<Field>, budget: int)
    requires FormFits(item, 0, budget)
    ensures Fit(item, budget).item == item && !Fit(item, budget).truncated
  {
  }

  /** The first form that fits, or the last one. */
  ghost function Least(item: seq<Field>, budget: int): (level: nat)
    ensures level <= 3 && (level < 3 ==> FormFits(item, level, budget))
    ensures (level > 0 ==> !FormFits(item, 0, budget)) && (level > 1 ==> !FormFits(item, 1, budget))
    ensures level > 2 ==> !FormFits(item, 2, budget)
  {
    if FormFits(item, 0, budget) then 0 else if FormFits(item, 1, budget) then 1 else if FormFits(item, 2, budget) then 2 else 3
  }

  /** `fitItem` gives the first of the four forms that fits the budget, or the last
      one; it is marked truncated exactly if that form cuts something, and without
      the flag otherwise. */
  lemma FitIsLeast(item: seq<Field>, budget: int)
    requires Unique(item)
    ensures Fit(item, budget).item == FormItem(item, Least(item, budget))
    ensures Fit(item, budget).truncated <==> Least(item, budget) > 0 && Cuts(item, Least(item, budget))
  {
    var level := Least(item, budget);
    if level == 0 {
      FitWhole(item, budget);
    } else {
      LeastDraft(item, budget, level);
      FitIs(item, budget, level);
    }
  }

  lemma LeastDraft(item: seq<Field>, budget: int, level: nat)
    requires Unique(item) && level == Least(item, budget) > 0
    ensures !FormFits(item, 0, budget)
    ensures Drafted(item, budget).fields == CutItem(item, level) && (Drafted(item, budget).truncated <==> Cuts(item, level))
  {
    DraftIs(item, budget, level);
  }

  /** What is under a name in a form of an item. */
  lemma FormGet(item: seq<Field>, level: nat, key: Text)
    requires Unique(item) && key != FLAG
    ensures Get(CutItem(item, level), key)
            == if Get(item, key).Some? then Some(CutValue(Field(key, Get(item, key).value), level)) else None
  {
    var m, c := WithMark(item), CutItem(item, level);
    SetUnique(item, FLAG, Bool(true));
    GetSet(item, FLAG, Bool(true), key);
    if level == 0 {
      assert Get(item, key).Some? ==> CutValue(Field(key, Get(item, key).value), 0) == Get(item, key).value;
    } else {
      GetIs(m, key);
      GetIs(c, key);
      if Get(item, key).Some? {
        var i :| 0 <= i < |m| && m[i].key == key;
        TheField(m, key, i);
        KeysKeepUnique(m, c);
        TheField(c, key, i);
      }
    }
  }

  /** No step is taken too early. If the item fits once its strings are capped, its
      containers are there with their strings capped, and message and stack are
      cut at their first limits at most; if it fits with size markers, message and
      stack are cut no further. */
  lemma NoStepTooEarly(item: seq<Field>, budget: int, key: Text, v: Value)
    requires Unique(item) && Fit(item, budget).truncated && Get(item, key) == Some(v)
    ensures FormFits(item, 1, budget) && IsContainer(key) ==> Get(Fit(item, budget).item, key) == Some(CapStrings(v, 8_192))
    ensures FormFits(item, 1, budget) || FormFits(item, 2, budget) ==>
              && (key == MESSAGE && v.Str? ==> Get(Fit(item, budget).item, key) == Some(Str(Capped(v.s, 8_192))))
              && (key == STACK && v.Str? ==> Get(Fit(item, budget).item, key) == Some(Str(Capped(v.s, 32_768))))
    ensures key != FLAG && !Special(Field(key, v)) ==> Get(Fit(item, budget).item, key) == Some(v)
  {
    OtherNames();
    var level := Least(item, budget);
    FitIsLeast(item, budget);
    assert !FormFits(item, 0, budget) && Fit(item, budget).item == CutItem(item, level);
    if key != FLAG { FormGet(item, level, key); }
  }

  // ---------------------------------------------------------------------
  // Strings in containers
  // ---------------------------------------------------------------------

  /** What is at the end of a path through elements and fields. */
  function At(v: Value, path: seq<nat>): Option<Value>
    decreases |path|
  {
    if path == [] then Some(v)
    else
      match v
      case Arr(items) => if path[0] < |items| then At(items[path[0]], path[1..]) else None
      case Obj(fields) => if path[0] < |fields| then At(fields[path[0]].value, path[1..]) else None
      case _ => None
  }

  lemma {:induction false} CapAllAt(items: seq<Value>, max: nat, i: nat)
    requires i < |items|
    ensures CapAll(items, max)[i] == CapStrings(items[i], max)
  {
    if i > 0 {
      CapAllAt(items[1..], max, i - 1);
      assert CapAll(items, max)[i] == CapAll(items[1..], max)[i - 1];
    }
  }

  lemma {:induction false} CapFieldsAt(fields: seq<Field>, max: nat, i: nat)
    requires i < |fields|
    ensures CapFields(fields, max)[i] == Field(fields[i].key, CapStrings(fields[i].value, max))
  {
    if i > 0 {
      CapFieldsAt(fields[1..], max, i - 1);
      assert CapFields(fields, max)[i] == CapFields(fields[1..], max)[i - 1];
    }
  }

  /** The same value, except that a string is capped; of containers only the shape
      is compared. */
  ghost predicate CappedHere(v: Value, w: Value, max: nat)
  {
    match v
    case Str(s) => w == Str(Capped(s, max))
    case Arr(items) => w.Arr? && |w.items| == |items|
    case Obj(fields) => w.Obj? && SameKeys(fields, w.fields)
    case _ => w == v
  }

  lemma CapHere(v: Value, max: nat)
    ensures CappedHere(v, CapStrings(v, max), max)
  {
  }

  /** Capping the strings of a tree caps the string at the end of each path, keeps
      all other values, lengths and names, and adds no path. */
  lemma {:induction false} StringsInPlace(v: Value, max: nat, path: seq<nat>)
    ensures At(CapStrings(v, max), path).Some? == At(v, path).Some?
    ensures At(v, path).Some? ==> CappedHere(At(v, path).value, At(CapStrings(v, max), path).value, max)
    decreases |path|
  {
    CapHere(v, max);
    if path != [] {
      match v
      case Arr(items) =>
        if path[0] < |items| {
          CapAllAt(items, max, path[0]);
          StringsInPlace(items[path[0]], max, path[1..]);
        }
      case Obj(fields) =>
        if path[0] < |fields| {
          CapFieldsAt(fields, max, path[0]);
          StringsInPlace(fields[path[0]].value, max, path[1..]);
        }
      case _ =>
    }
  }
}
