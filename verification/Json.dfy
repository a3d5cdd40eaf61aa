/** Compact JSON text (RFC 8259): the printer that `JSON.stringify` is, a
    reader for what it prints, and the sizes of printed values. */
module Json {
  import opened Utf8

  datatype Option<+T> = None | Some(value: T)

  const QUOTE: Unit := 0x22
  const COMMA: Unit := 0x2C
  const COLON: Unit := 0x3A
  const BACKSLASH: Unit := 0x5C
  const LBRACKET: Unit := 0x5B
  const RBRACKET: Unit := 0x5D
  const LBRACE: Unit := 0x7B
  const RBRACE: Unit := 0x7D

  predicate IsDigit(u: Unit) { 0x30 <= u <= 0x39 }

  /** Digits, `+`, `-`, `.`, `e` and `E`. */
  predicate IsNumeric(u: Unit) { IsDigit(u) || u == 0x2B || u == 0x2D || u == 0x2E || u == 0x45 || u == 0x65 }

  predicate IsNumber(t: Text)
  {
    t != [] && (IsDigit(t[0]) || t[0] == 0x2D) && forall i | 0 <= i < |t| :: IsNumeric(t[i])
  }

  /** The text of a formatted number. How a number is formatted is not modelled. */
  type Number = t: Text | IsNumber(t) witness [0x30]

  datatype Value =
    | Null
    | Bool(b: bool)
    | Num(token: Number)
    | Str(s: Text)
    | Arr(items: seq<Value>)
    | Obj(fields: seq<Field>)

  datatype Field = Field(key: Text, value: Value)

  // ---------------------------------------------------------------------
  // Printing
  // ---------------------------------------------------------------------

  function HexDigit(n: int): (u: Unit)
    requires 0 <= n < 16
    ensures u < 0x80
  {
    if n < 10 then 0x30 + n else 0x61 + n - 10
  }

  function UnicodeEscape(u: Unit): (t: Text)
    ensures |t| == 6
  {
    [BACKSLASH, 0x75, HexDigit(u / 16 / 16 / 16), HexDigit(u / 16 / 16 % 16), HexDigit(u / 16 % 16), HexDigit(u % 16)]
  }

  /** A single unit that is not part of a surrogate pair (section 7). */
  function EscapeUnit(u: Unit): (t: Text)
    ensures 1 <= |t| <= 6
  {
    if u == QUOTE || u == BACKSLASH then [BACKSLASH, u]
    else if u == 0x08 then [BACKSLASH, 0x62]
    else if u == 0x09 then [BACKSLASH, 0x74]
    else if u == 0x0A then [BACKSLASH, 0x6E]
    else if u == 0x0C then [BACKSLASH, 0x66]
    else if u == 0x0D then [BACKSLASH, 0x72]
    else if u < 0x20 || IsHigh(u) || IsLow(u) then UnicodeEscape(u)
    else [u]
  }

  /** Surrogate pairs are kept, lone surrogates are escaped. */
  function Escape(t: Text): Text
  {
    if t == [] then []
    else if Units(t) == 2 then t[..2] + Escape(t[2..])
    else EscapeUnit(t[0]) + Escape(t[1..])
  }

  function Quote(t: Text): Text { [QUOTE] + Escape(t) + [QUOTE] }

  /** `parts.join(',')`. */
  function Join(parts: seq<Text>): Text
  {
    if parts == [] then []
    else if |parts| == 1 then parts[0]
    else parts[0] + [COMMA] + Join(parts[1..])
  }

  function Print(v: Value): Text
    decreases v, 0
  {
    match v
    case Null => Ascii("null")
    case Bool(b) => if b then Ascii("true") else Ascii("false")
    case Num(token) => token
    case Str(s) => Quote(s)
    case Arr(items) => [LBRACKET] + Join(PrintAll(items)) + [RBRACKET]
    case Obj(fields) => [LBRACE] + Join(PrintFields(fields)) + [RBRACE]
  }

  function PrintAll(items: seq<Value>): (r: seq<Text>)
    ensures |r| == |items| && forall i | 0 <= i < |items| :: r[i] == Print(items[i])
    decreases items, 0
  {
    if items == [] then [] else [Print(items[0])] + PrintAll(items[1..])
  }

  function PrintField(f: Field): Text
    decreases f, 1
  {
    Quote(f.key) + [COLON] + Print(f.value)
  }

  function PrintFields(fields: seq<Field>): (r: seq<Text>)
    ensures |r| == |fields| && forall i | 0 <= i < |fields| :: r[i] == PrintField(fields[i])
    decreases fields, 2
  {
    if fields == [] then [] else [PrintField(fields[0])] + PrintFields(fields[1..])
  }

  // ---------------------------------------------------------------------
  // Reading
  // ---------------------------------------------------------------------

  function HexValue(u: Unit): Option<int>
  {
    if IsDigit(u) then Some(u - 0x30)
    else if 0x61 <= u <= 0x66 then Some(u - 0x61 + 10)
    else if 0x41 <= u <= 0x46 then Some(u - 0x41 + 10)
    else None
  }

  function ReadHex(s: Text): (r: Option<Unit>)
    requires |s| >= 4
  {
    match (HexValue(s[0]), HexValue(s[1]), HexValue(s[2]), HexValue(s[3]))
    case (Some(a), Some(b), Some(c), Some(d)) =>
      var n := a * 0x1000 + b * 0x100 + c * 16 + d;
      if 0 <= n < 0x1_0000 then Some(n) else None
    case _ => None
  }

  /** One unit of a string body, escaped or not, and how many units it took. */
  function ReadUnit(s: Text): (r: Option<(Unit, nat)>)
    requires s != []
    ensures r.Some? ==> 1 <= r.value.1 <= |s|
  {
    if s[0] == QUOTE || s[0] < 0x20 then None
    else if s[0] != BACKSLASH then Some((s[0], 1))
    else if |s| < 2 then None
    else if s[1] == QUOTE || s[1] == BACKSLASH || s[1] == 0x2F then Some((s[1], 2))
    else if s[1] == 0x62 then Some((0x08, 2))
    else if s[1] == 0x74 then Some((0x09, 2))
    else if s[1] == 0x6E then Some((0x0A, 2))
    else if s[1] == 0x66 then Some((0x0C, 2))
    else if s[1] == 0x72 then Some((0x0D, 2))
    else if s[1] == 0x75 && |s| >= 6 && ReadHex(s[2..6]).Some? then Some((ReadHex(s[2..6]).value, 6))
    else None
  }

  /** The rest of a string after its opening quote. */
  function ReadString(s: Text): (r: Option<(Text, Text)>)
    ensures r.Some? ==> |r.value.1| < |s|
    decreases |s|
  {
    if s == [] then None
    else if s[0] == QUOTE then Some(([], s[1..]))
    else match ReadUnit(s)
      case None => None
      case Some((u, n)) =>
        match ReadString(s[n..])
        case None => None
        case Some((t, rest)) => Some(([u] + t, rest))
  }

  /** Length of the run of numeric characters that `s` starts with. */
  function NumericRun(s: Text): (n: nat)
    ensures n <= |s| && forall i | 0 <= i < n :: IsNumeric(s[i])
    ensures n < |s| ==> !IsNumeric(s[n])
  {
    if s == [] || !IsNumeric(s[0]) then 0 else 1 + NumericRun(s[1..])
  }

  function ReadValue(s: Text): (r: Option<(Value, Text)>)
    ensures r.Some? ==> |r.value.1| < |s|
    decreases |s|, 0
  {
    if s == [] then None
    else if Ascii("null") <= s then Some((Null, s[4..]))
    else if Ascii("true") <= s then Some((Bool(true), s[4..]))
    else if Ascii("false") <= s then Some((Bool(false), s[5..]))
    else if IsDigit(s[0]) || s[0] == 0x2D then
      var n := NumericRun(s);
      Some((Num(s[..n]), s[n..]))
    else if s[0] == QUOTE then
      match ReadString(s[1..])
      case None => None
      case Some((t, rest)) => Some((Str(t), rest))
    else if s[0] == LBRACKET && |s| > 1 && s[1] == RBRACKET then Some((Arr([]), s[2..]))
    else if s[0] == LBRACKET then
      match ReadItems(s[1..])
      case None => None
      case Some((items, rest)) => Some((Arr(items), rest))
    else if s[0] == LBRACE && |s| > 1 && s[1] == RBRACE then Some((Obj([]), s[2..]))
    else if s[0] == LBRACE then
      match ReadFields(s[1..])
      case None => None
      case Some((fields, rest)) => Some((Obj(fields), rest))
    else None
  }

  /** One or more values up to the closing bracket. */
  function ReadItems(s: Text): (r: Option<(seq<Value>, Text)>)
    ensures r.Some? ==> |r.value.1| < |s|
    decreases |s|, 1
  {
    match ReadValue(s)
    case None => None
    case Some((v, rest)) =>
      if rest == [] then None
      else if rest[0] == RBRACKET then Some(([v], rest[1..]))
      else if rest[0] == COMMA then
        match ReadItems(rest[1..])
        case None => None
        case Some((vs, end)) => Some(([v] + vs, end))
      else None
  }

  function ReadField(s: Text): (r: Option<(Field, Text)>)
    ensures r.Some? ==> |r.value.1| < |s|
    decreases |s|, 1
  {
    if s == [] || s[0] != QUOTE then None
    else match ReadString(s[1..])
      case None => None
      case Some((k, rest)) =>
        if rest == [] || rest[0] != COLON then None
        else match ReadValue(rest[1..])
          case None => None
          case Some((v, end)) => Some((Field(k, v), end))
  }

  function ReadFields(s: Text): (r: Option<(seq<Field>, Text)>)
    ensures r.Some? ==> |r.value.1| < |s|
    decreases |s|, 2
  {
    match ReadField(s)
    case None => None
    case Some((f, rest)) =>
      if rest == [] then None
      else if rest[0] == RBRACE then Some(([f], rest[1..]))
      else if rest[0] == COMMA then
        match ReadFields(rest[1..])
        case None => None
        case Some((fs, end)) => Some(([f] + fs, end))
      else None
  }

  function Parse(s: Text): Option<Value>
  {
    match ReadValue(s)
    case Some((v, rest)) => if rest == [] then Some(v) else None
    case None => None
  }

  // ---------------------------------------------------------------------
  // Round trip
  // ---------------------------------------------------------------------

  lemma HexDigitValue(n: int)
    requires 0 <= n < 16
    ensures HexValue(HexDigit(n)) == Some(n)
  {
  }

  lemma HexRoundTrip(u: Unit, s: Text)
    requires |s| == 4 && s == UnicodeEscape(u)[2..6]
    ensures ReadHex(s) == Some(u)
  {
    var n, m := u / 16, u / 16 / 16;
    assert s == [HexDigit(m / 16), HexDigit(m % 16), HexDigit(n % 16), HexDigit(u % 16)];
    HexDigitValue(m / 16);
    HexDigitValue(m % 16);
    HexDigitValue(n % 16);
    HexDigitValue(u % 16);
  }

  lemma ReadEscapedUnit(u: Unit, s: Text)
    ensures ReadUnit(EscapeUnit(u) + s) == Some((u, |EscapeUnit(u)|))
  {
    var e := EscapeUnit(u);
    var es := e + s;
    assert forall i | 0 <= i < |e| :: es[i] == e[i];
    if |e| == 6 {
      assert es[2..6] == UnicodeEscape(u)[2..6];
      HexRoundTrip(u, es[2..6]);
    }
  }

  lemma ReadRaw(u: Unit, s: Text)
    requires (IsHigh(u) || IsLow(u)) && ReadString(s).Some?
    ensures ReadString([u] + s) == Some(([u] + ReadString(s).value.0, ReadString(s).value.1))
  {
    assert ([u] + s)[1..] == s;
  }

  lemma ReadCoded(u: Unit, s: Text)
    requires ReadString(s).Some?
    ensures ReadString(EscapeUnit(u) + s) == Some(([u] + ReadString(s).value.0, ReadString(s).value.1))
  {
    ReadEscapedUnit(u, s);
    assert (EscapeUnit(u) + s)[|EscapeUnit(u)|..] == s;
  }

  lemma EscapeStep(t: Text, end: Text)
    requires t != []
    ensures Escape(t) + end == if Units(t) == 2 then [t[0]] + ([t[1]] + (Escape(t[2..]) + end))
                               else EscapeUnit(t[0]) + (Escape(t[1..]) + end)
  {
  }

  lemma ReadPair(h: Unit, l: Unit, s: Text, t: Text, end: Text)
    requires IsHigh(h) && IsLow(l) && ReadString(s) == Some((t, end))
    ensures ReadString([h] + ([l] + s)) == Some(([h, l] + t, end))
  {
    ReadRaw(l, s);
    ReadRaw(h, [l] + s);
    assert [h] + ([l] + t) == [h, l] + t;
  }

  lemma FrontOf(t: Text, n: nat)
    requires n <= |t|
    ensures t == t[..n] + t[n..]
  {
  }

  lemma {:induction false} ReadEscaped(t: Text, end: Text)
    requires end != [] && end[0] == QUOTE
    ensures ReadString(Escape(t) + end) == Some((t, end[1..]))
    decreases |t|
  {
    if t == [] {
      assert Escape(t) + end == end;
    } else {
      var n := Units(t);
      var more := Escape(t[n..]) + end;
      EscapeStep(t, end);
      ReadEscaped(t[n..], end);
      FrontOf(t, n);
      if n == 2 {
        ReadPair(t[0], t[1], more, t[2..], end[1..]);
        assert t[..2] == [t[0], t[1]];
      } else {
        ReadCoded(t[0], more);
        assert t[..1] == [t[0]];
      }
    }
  }

  /** What may follow a value without being read as part of it. */
  predicate Stops(rest: Text) { rest == [] || !IsNumeric(rest[0]) }

  lemma {:induction false} NumericRunIs(t: Number, rest: Text)
    requires Stops(rest)
    ensures NumericRun(t + rest) == |t|
  {
    var s := t + rest;
    assert forall i | 0 <= i < |t| :: s[i] == t[i];
    assert rest != [] ==> s[|t|] == rest[0];
  }

  lemma PrintStart(v: Value)
    ensures Print(v) != [] && Print(v)[0] != RBRACKET && Print(v)[0] != RBRACE && Print(v)[0] < 0x80
    ensures Print(v)[|Print(v)|-1] < 0x80
  {
  }

  lemma NotLiteral(s: Text)
    requires s != [] && (s[0] == QUOTE || s[0] == LBRACKET || s[0] == LBRACE || IsDigit(s[0]) || s[0] == 0x2D)
    ensures !(Ascii("null") <= s) && !(Ascii("true") <= s) && !(Ascii("false") <= s)
  {
    assert Ascii("null")[0] == 0x6E && Ascii("true")[0] == 0x74 && Ascii("false")[0] == 0x66;
  }

  lemma ReadLiteral(v: Value, rest: Text)
    requires v.Null? || v.Bool?
    ensures ReadValue(Print(v) + rest) == Some((v, rest))
  {
    var s := Print(v) + rest;
    assert Ascii("null")[0] == 0x6E && Ascii("true")[0] == 0x74 && Ascii("false")[0] == 0x66;
    assert s[..|Print(v)|] == Print(v) && s[|Print(v)|..] == rest;
  }

  lemma ReadNumber(token: Number, rest: Text)
    requires Stops(rest)
    ensures ReadValue(token + rest) == Some((Num(token), rest))
  {
    var s := token + rest;
    assert s[0] == token[0];
    NotLiteral(s);
    NumericRunIs(token, rest);
    assert s[..|token|] == token && s[|token|..] == rest;
  }

  lemma ReadQuoted(t: Text, rest: Text)
    ensures ReadValue(Quote(t) + rest) == Some((Str(t), rest))
  {
    var s := Quote(t) + rest;
    NotLiteral(s);
    var end := [QUOTE] + rest;
    assert s[1..] == Escape(t) + end && end[1..] == rest;
    ReadEscaped(t, end);
  }

  lemma ReadArray(items: seq<Value>, inner: Text, rest: Text)
    requires inner != []
    requires if inner[0] == RBRACKET then items == [] && inner[1..] == rest else ReadItems(inner) == Some((items, rest))
    ensures ReadValue([LBRACKET] + inner) == Some((Arr(items), rest))
  {
    var s := [LBRACKET] + inner;
    NotLiteral(s);
    assert s[1..] == inner && s[2..] == inner[1..];
  }

  lemma ReadObject(fields: seq<Field>, inner: Text, rest: Text)
    requires inner != []
    requires if inner[0] == RBRACE then fields == [] && inner[1..] == rest else ReadFields(inner) == Some((fields, rest))
    ensures ReadValue([LBRACE] + inner) == Some((Obj(fields), rest))
  {
    var s := [LBRACE] + inner;
    NotLiteral(s);
    assert s[1..] == inner && s[2..] == inner[1..];
  }

  lemma {:induction false} ReadPrinted(v: Value, rest: Text)
    requires Stops(rest)
    ensures ReadValue(Print(v) + rest) == Some((v, rest))
    decreases v, 0
  {
    match v
    case Null => ReadLiteral(v, rest);
    case Bool(_) => ReadLiteral(v, rest);
    case Num(token) => ReadNumber(token, rest);
    case Str(t) => ReadQuoted(t, rest);
    case Arr(items) => ReadPrintedArray(items, rest);
    case Obj(fields) => ReadPrintedObject(fields, rest);
  }

  lemma {:induction false} ReadPrintedArray(items: seq<Value>, rest: Text)
    requires Stops(rest)
    ensures ReadValue(Print(Arr(items)) + rest) == Some((Arr(items), rest))
    decreases items, 1
  {
    var inner := Join(PrintAll(items)) + [RBRACKET] + rest;
    assert Print(Arr(items)) + rest == [LBRACKET] + inner;
    if items == [] {
      assert inner == [RBRACKET] + rest && inner[1..] == rest;
    } else {
      PrintStart(items[0]);
      JoinStart(PrintAll(items));
      assert inner[0] == Print(items[0])[0];
      ReadPrintedItems(items, rest);
    }
    ReadArray(items, inner, rest);
  }

  lemma {:induction false} ReadPrintedObject(fields: seq<Field>, rest: Text)
    requires Stops(rest)
    ensures ReadValue(Print(Obj(fields)) + rest) == Some((Obj(fields), rest))
    decreases fields, 3
  {
    var inner := Join(PrintFields(fields)) + [RBRACE] + rest;
    assert Print(Obj(fields)) + rest == [LBRACE] + inner;
    if fields == [] {
      assert inner == [RBRACE] + rest && inner[1..] == rest;
    } else {
      JoinStart(PrintFields(fields));
      assert inner[0] == PrintField(fields[0])[0] == QUOTE;
      ReadPrintedFields(fields, rest);
    }
    ReadObject(fields, inner, rest);
  }

  lemma JoinStart(parts: seq<Text>)
    requires parts != [] && parts[0] != []
    ensures Join(parts) != [] && Join(parts)[0] == parts[0][0]
  {
  }

  lemma Listed(a: Text, sep: Text, more: Text, end: Text, rest: Text)
    ensures a + sep + more + end + rest == a + (sep + (more + end + rest))
    ensures a + end + rest == a + (end + rest)
  {
  }

  lemma ReadLastItem(s: Text, v: Value, rest: Text)
    requires ReadValue(s) == Some((v, [RBRACKET] + rest))
    ensures ReadItems(s) == Some(([v], rest))
  {
    assert ([RBRACKET] + rest)[1..] == rest;
  }

  lemma ReadNextItem(s: Text, v: Value, tail: Text, items: seq<Value>, rest: Text)
    requires ReadValue(s) == Some((v, [COMMA] + tail)) && ReadItems(tail) == Some((items, rest))
    ensures ReadItems(s) == Some(([v] + items, rest))
  {
    assert ([COMMA] + tail)[1..] == tail;
  }

  lemma {:induction false} ReadPrintedItems(items: seq<Value>, rest: Text)
    requires items != []
    ensures ReadItems(Join(PrintAll(items)) + [RBRACKET] + rest) == Some((items, rest))
    decreases items, 0
  {
    var parts := PrintAll(items);
    if |items| == 1 {
      Listed(Print(items[0]), [], [], [RBRACKET], rest);
      ReadPrinted(items[0], [RBRACKET] + rest);
      ReadLastItem(Print(items[0]) + ([RBRACKET] + rest), items[0], rest);
      assert items == [items[0]];
    } else {
      assert parts[1..] == PrintAll(items[1..]);
      var more := Join(parts[1..]);
      ReadPrinted(items[0], [COMMA] + (more + [RBRACKET] + rest));
      ReadPrintedItems(items[1..], rest);
      ReadNextItem(Print(items[0]) + ([COMMA] + (more + [RBRACKET] + rest)), items[0], more + [RBRACKET] + rest, items[1..], rest);
      Listed(Print(items[0]), [COMMA], more, [RBRACKET], rest);
      assert items == [items[0]] + items[1..];
    }
  }

  lemma {:induction false} ReadPrintedField(f: Field, rest: Text)
    requires Stops(rest)
    ensures ReadField(PrintField(f) + rest) == Some((f, rest))
    decreases f, 1
  {
    var value := Print(f.value) + rest;
    FieldPieces(Escape(f.key), Print(f.value), rest);
    ReadEscaped(f.key, [QUOTE] + ([COLON] + value));
    ReadPrinted(f.value, rest);
    ReadNamed(f.key, Escape(f.key) + ([QUOTE] + ([COLON] + value)), value, f.value, rest);
  }

  lemma FieldPieces(key: Text, value: Text, rest: Text)
    ensures ([QUOTE] + key + [QUOTE]) + [COLON] + value + rest == [QUOTE] + (key + ([QUOTE] + ([COLON] + (value + rest))))
    ensures ([QUOTE] + ([COLON] + (value + rest)))[1..] == [COLON] + (value + rest)
  {
  }

  lemma ReadNamed(key: Text, s: Text, value: Text, v: Value, rest: Text)
    requires ReadString(s) == Some((key, [COLON] + value)) && ReadValue(value) == Some((v, rest))
    ensures ReadField([QUOTE] + s) == Some((Field(key, v), rest))
  {
    assert ([QUOTE] + s)[1..] == s && ([COLON] + value)[1..] == value;
  }

  lemma ReadLastField(s: Text, f: Field, rest: Text)
    requires ReadField(s) == Some((f, [RBRACE] + rest))
    ensures ReadFields(s) == Some(([f], rest))
  {
    assert ([RBRACE] + rest)[1..] == rest;
  }

  lemma ReadNextField(s: Text, f: Field, tail: Text, fields: seq<Field>, rest: Text)
    requires ReadField(s) == Some((f, [COMMA] + tail)) && ReadFields(tail) == Some((fields, rest))
    ensures ReadFields(s) == Some(([f] + fields, rest))
  {
    assert ([COMMA] + tail)[1..] == tail;
  }

  lemma {:induction false} ReadPrintedFields(fields: seq<Field>, rest: Text)
    requires fields != []
    ensures ReadFields(Join(PrintFields(fields)) + [RBRACE] + rest) == Some((fields, rest))
    decreases fields, 2
  {
    var parts := PrintFields(fields);
    if |fields| == 1 {
      Listed(PrintField(fields[0]), [], [], [RBRACE], rest);
      ReadPrintedField(fields[0], [RBRACE] + rest);
      ReadLastField(PrintField(fields[0]) + ([RBRACE] + rest), fields[0], rest);
      assert fields == [fields[0]];
    } else {
      assert parts[1..] == PrintFields(fields[1..]);
      var more := Join(parts[1..]);
      ReadPrintedField(fields[0], [COMMA] + (more + [RBRACE] + rest));
      ReadPrintedFields(fields[1..], rest);
      ReadNextField(PrintField(fields[0]) + ([COMMA] + (more + [RBRACE] + rest)), fields[0], more + [RBRACE] + rest, fields[1..], rest);
      Listed(PrintField(fields[0]), [COMMA], more, [RBRACE], rest);
      assert fields == [fields[0]] + fields[1..];
    }
  }

  /** Reading what was printed gives back the value. */
  lemma RoundTrip(v: Value)
    ensures Parse(Print(v)) == Some(v)
  {
    assert Print(v) + [] == Print(v);
    ReadPrinted(v, []);
  }

  // ---------------------------------------------------------------------
  // Sizes
  // ---------------------------------------------------------------------

  /** Text that starts and ends with an ASCII character can be pasted without
      changing the size of its neighbours. */
  predicate Closed(t: Text) { t != [] && t[0] < 0x80 && t[|t|-1] < 0x80 }

  lemma SizeConcat(a: Text, b: Text)
    requires a == [] || b == [] || a[|a|-1] < 0x80 || b[0] < 0x80
    ensures Size(a + b) == Size(a) + Size(b)
  {
    EncodeAppend(a, b);
  }

  /** Sum of the sizes of the parts. */
  function Total(parts: seq<Text>): nat
  {
    if parts == [] then 0 else Size(parts[0]) + Total(parts[1..])
  }

  lemma {:induction false} JoinSize(parts: seq<Text>)
    ensures Size(Join(parts)) == Total(parts) + (if parts == [] then 0 else |parts| - 1)
  {
    EncodeEmpty();
    if |parts| == 1 {
      assert parts[1..] == [];
    } else if |parts| > 1 {
      JoinSize(parts[1..]);
      var more := Join(parts[1..]);
      AsciiSize([COMMA]);
      SizeConcat([COMMA], more);
      SizeConcat(parts[0], [COMMA] + more);
      assert parts[0] + [COMMA] + more == parts[0] + ([COMMA] + more);
    }
  }

  lemma {:induction false} TotalAppend(a: seq<Text>, b: seq<Text>)
    ensures Total(a + b) == Total(a) + Total(b)
  {
    if a == [] {
      assert a + b == b;
    } else {
      assert (a + b)[1..] == a[1..] + b;
      TotalAppend(a[1..], b);
    }
  }

  lemma EscapeUnitSize(u: Unit)
    ensures Size([u]) <= Size(EscapeUnit(u)) <= 6 * Size([u])
    ensures !IsHigh(EscapeUnit(u)[|EscapeUnit(u)|-1]) && !IsLow(EscapeUnit(u)[0])
  {
    var e := EscapeUnit(u);
    EncodeOne([u]);
    if IsAscii(e) { AsciiSize(e); }
  }

  /** Escaping multiplies the size of a text by at most six, and never shrinks it. */
  lemma {:induction false} EscapeSize(t: Text)
    ensures Size(t) <= Size(Escape(t)) <= 6 * Size(t)
    ensures t != [] ==> Escape(t) != [] && !IsLow(Escape(t)[0])
    decreases |t|
  {
    EncodeEmpty();
    if t != [] {
      var n := Units(t);
      EscapeSize(t[n..]);
      var head := if n == 2 then t[..2] else EscapeUnit(t[0]);
      EscapeUnitSize(t[0]);
      EncodeAppend(head, Escape(t[n..]));
      EncodeStep(t);
      var h := t[..n];
      assert Units(h) == n && First(h) == First(t);
      EncodeOne(h);
      assert n == 1 ==> h == [t[0]];
    }
  }

  lemma QuoteSize(t: Text)
    ensures Closed(Quote(t)) && 2 + Size(t) <= Size(Quote(t)) == 2 + Size(Escape(t)) <= 2 + 6 * Size(t)
  {
    AsciiSize([QUOTE]);
    SizeConcat([QUOTE], Escape(t));
    SizeConcat([QUOTE] + Escape(t), [QUOTE]);
    EscapeSize(t);
  }

  /** ASCII text without characters that need escaping. */
  predicate Plain(t: Text) { forall i | 0 <= i < |t| :: 0x20 <= t[i] < 0x80 && t[i] != QUOTE && t[i] != BACKSLASH }

  lemma {:induction false} PlainEscape(t: Text)
    requires Plain(t)
    ensures Escape(t) == t && Size(t) == |t|
  {
    AsciiSize(t);
    if t != [] {
      PlainEscape(t[1..]);
      assert t == [t[0]] + t[1..];
    }
  }

  /** The decimal digits of a number. */
  function Decimal(n: nat): (t: Text)
    ensures |t| >= 1 && Plain(t) && IsNumber(t)
    ensures forall i | 0 <= i < |t| :: IsDigit(t[i])
  {
    if n < 10 then [0x30 + n] else Decimal(n / 10) + [0x30 + n % 10]
  }

  function Pow10(k: nat): (p: nat)
    ensures p >= 1
  {
    if k == 0 then 1 else 10 * Pow10(k - 1)
  }

  lemma {:induction false} DecimalLength(n: nat, k: nat)
    requires k >= 1
    ensures |Decimal(n)| <= k <==> n < Pow10(k)
    decreases k
  {
    if k > 1 && n >= 10 {
      DecimalLength(n / 10, k - 1);
    } else {
      assert Pow10(k) >= 10;
    }
  }

  function DecimalValue(t: Text): nat
    requires forall i | 0 <= i < |t| :: IsDigit(t[i])
  {
    if t == [] then 0
    else
      var d: int := t[|t|-1];
      assert IsDigit(t[|t|-1]);
      DecimalValue(t[..|t|-1]) * 10 + (d - 0x30)
  }

  lemma {:induction false} DecimalRoundTrip(n: nat)
    ensures DecimalValue(Decimal(n)) == n
  {
    if n >= 10 {
      DecimalRoundTrip(n / 10);
      assert Decimal(n)[..|Decimal(n)|-1] == Decimal(n / 10);
    } else {
      assert Decimal(n)[..0] == [];
    }
  }
}
