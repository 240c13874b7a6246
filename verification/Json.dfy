/** The values of the wire format and the text of JSON (sections 4 to 7 of RFC 8259), as the standard decoder reads it
  and the standard encoder writes it. */
module Json {
  import opened Messages
  import opened Utf8

  /** An object keeps its members in the order they were read or written; the keyword values are null, true and false. */
  datatype Json = Str(text: Text) | Num(n: int) | Arr(items: Items) | Obj(fields: Fields) | Keyword
  datatype Items = NoItems | Item(head: Json, tail: Items)
  datatype Fields = NoFields | Member(key: Text, value: Json, rest: Fields)

  const QUOTE: CodePoint := 0x22
  const PLUS: CodePoint := 0x2B
  const COMMA: CodePoint := 0x2C
  const MINUS: CodePoint := 0x2D
  const DOT: CodePoint := 0x2E
  const SLASH: CodePoint := 0x2F
  const COLON: CodePoint := 0x3A
  const LBRACKET: CodePoint := 0x5B
  const BACKSLASH: CodePoint := 0x5C
  const RBRACKET: CodePoint := 0x5D
  const LBRACE: CodePoint := 0x7B
  const RBRACE: CodePoint := 0x7D

  function Chars(s: string): Text {
    seq(|s|, i requires 0 <= i < |s| => if s[i] < 0x80 as char then s[i] as int else 0)
  }

  // ---------------------------------------------------------------------------------------------
  // Values

  function Keys(f: Fields): set<Text> {
    match f
    case NoFields => {}
    case Member(key, _, rest) => {key} + Keys(rest)
  }

  function Find(f: Fields, key: Text): Json
    requires key in Keys(f)
  {
    if f.key == key then f.value else Find(f.rest, key)
  }

  predicate Unique(f: Fields) {
    f.NoFields? || (f.key !in Keys(f.rest) && Unique(f.rest))
  }

  /** No object, at any depth, repeats a key. */
  predicate Dict(v: Json) {
    match v
    case Arr(items) => DictItems(items)
    case Obj(fields) => Unique(fields) && DictFields(fields)
    case _ => true
  }

  predicate DictItems(items: Items) {
    items.NoItems? || (Dict(items.head) && DictItems(items.tail))
  }

  predicate DictFields(f: Fields) {
    f.NoFields? || (Dict(f.value) && DictFields(f.rest))
  }

  /** Only strings of Unicode scalars, 64-bit integers, arrays and objects. */
  predicate Valid(v: Json) {
    match v
    case Str(text) => Scalars(text)
    case Num(n) => -MAX_INT64 - 1 <= n <= MAX_INT64
    case Arr(items) => ValidItems(items)
    case Obj(fields) => ValidFields(fields)
    case Keyword => false
  }

  predicate ValidItems(items: Items) {
    items.NoItems? || (Valid(items.head) && ValidItems(items.tail))
  }

  predicate ValidFields(f: Fields) {
    f.NoFields? || (Scalars(f.key) && Valid(f.value) && ValidFields(f.rest))
  }

  /** Equality of decoded values: objects are compared as finite maps, whatever the order of their members. */
  predicate Same(v: Json, w: Json) {
    match v
    case Arr(items) => w.Arr? && SameItems(items, w.items)
    case Obj(fields) => w.Obj? && Keys(fields) == Keys(w.fields) && SameFields(fields, w.fields)
    case _ => v == w
  }

  predicate SameItems(items: Items, others: Items) {
    if items.NoItems? then others.NoItems?
    else others.Item? && Same(items.head, others.head) && SameItems(items.tail, others.tail)
  }

  /** Every member of f has its match among those of g. */
  predicate SameFields(f: Fields, g: Fields) {
    f.NoFields? || (f.key in Keys(g) && Same(f.value, Find(g, f.key)) && SameFields(f.rest, g))
  }

  // ---------------------------------------------------------------------------------------------
  // Writing

  /** A character inside quotes; control characters without a short form become \u00xx. */
  function Escaped(c: CodePoint): Text {
    if c == QUOTE then [BACKSLASH, QUOTE]
    else if c == BACKSLASH then [BACKSLASH, BACKSLASH]
    else if c == 0x0A then [BACKSLASH, 0x6E]
    else if c == 0x0D then [BACKSLASH, 0x72]
    else if c == 0x09 then [BACKSLASH, 0x74]
    else if c == 0x0C then [BACKSLASH, 0x66]
    else if c == 0x08 then [BACKSLASH, 0x62]
    else if c < 0x20 then [BACKSLASH, 0x75, 0x30, 0x30, HexDigit(c / 16), HexDigit(c % 16)]
    else [c]
  }

  function HexDigit(x: int): CodePoint
    requires 0 <= x < 16
  {
    if x < 10 then 0x30 + x else 0x57 + x
  }

  function EscapedText(t: Text): Text {
    if |t| == 0 then [] else Escaped(t[0]) + EscapedText(t[1..])
  }

  function Quoted(t: Text): Text {
    [QUOTE] + EscapedText(t) + [QUOTE]
  }

  function Digits(n: nat): (t: Text)
    ensures |t| > 0
  {
    if n < 10 then [0x30 + n] else Digits(n / 10) + [0x30 + n % 10]
  }

  function Decimal(n: int): Text {
    if n < 0 then [MINUS] + Digits(-n) else Digits(n)
  }

  /** The text of a value, members in their order, without any white space. */
  function Render(v: Json): Text {
    match v
    case Str(text) => Quoted(text)
    case Num(n) => Decimal(n)
    case Arr(items) => [LBRACKET] + RenderItems(items) + [RBRACKET]
    case Obj(fields) => [LBRACE] + RenderFields(fields) + [RBRACE]
    case Keyword => Chars("null")
  }

  function RenderItems(items: Items): Text {
    match items
    case NoItems => []
    case Item(head, NoItems) => Render(head)
    case Item(head, tail) => Render(head) + [COMMA] + RenderItems(tail)
  }

  function RenderFields(f: Fields): Text {
    match f
    case NoFields => []
    case Member(key, value, NoFields) => Quoted(key) + [COLON] + Render(value)
    case Member(key, value, rest) => Quoted(key) + [COLON] + Render(value) + [COMMA] + RenderFields(rest)
  }

  // ---------------------------------------------------------------------------------------------
  // Reading

  predicate Space(c: CodePoint) {
    c == 0x20 || c == 0x09 || c == 0x0A || c == 0x0D
  }

  function Skip(s: Text): (t: Text)
    ensures |t| <= |s|
    ensures |t| > 0 ==> !Space(t[0])
  {
    if |s| > 0 && Space(s[0]) then Skip(s[1..]) else s
  }

  predicate Digit(c: CodePoint) {
    0x30 <= c <= 0x39
  }

  predicate Starts(s: Text, c: CodePoint) {
    |s| > 0 && s[0] == c
  }

  function HexValue(c: CodePoint): Option<nat> {
    if 0x30 <= c <= 0x39 then Some(c - 0x30)
    else if 0x61 <= c <= 0x66 then Some(c - 0x57)
    else if 0x41 <= c <= 0x46 then Some(c - 0x37)
    else None
  }

  function Hex4(s: Text): (r: Option<nat>)
    ensures r.Some? ==> |s| >= 4 && r.value < 0x10000
  {
    if |s| < 4 then None
    else
      var a, b, c, d := HexValue(s[0]), HexValue(s[1]), HexValue(s[2]), HexValue(s[3]);
      if a.Some? && b.Some? && c.Some? && d.Some? then
        HexBound(s[0]); HexBound(s[1]); HexBound(s[2]); HexBound(s[3]);
        Some(a.value * 4096 + b.value * 256 + c.value * 16 + d.value)
      else None
  }

  lemma HexBound(c: CodePoint)
    ensures HexValue(c).Some? ==> HexValue(c).value < 16
  {
  }

  /** The character after a backslash; an escaped surrogate pair is one character, a lone surrogate stays. */
  function Unescape(s: Text): (r: Option<(CodePoint, Text)>)
    ensures r.Some? ==> |r.value.1| < |s|
  {
    if |s| == 0 then None
    else if s[0] == QUOTE || s[0] == BACKSLASH || s[0] == SLASH then Some((s[0], s[1..]))
    else if s[0] == 0x62 then Some((0x08, s[1..]))
    else if s[0] == 0x66 then Some((0x0C, s[1..]))
    else if s[0] == 0x6E then Some((0x0A, s[1..]))
    else if s[0] == 0x72 then Some((0x0D, s[1..]))
    else if s[0] == 0x74 then Some((0x09, s[1..]))
    else if s[0] == 0x75 then
      var high := Hex4(s[1..]);
      if high.None? then None
      else if 0xD800 <= high.value < 0xDC00 && |s| >= 7 && s[5] == BACKSLASH && s[6] == 0x75 then
        var low := Hex4(s[7..]);
        if low.None? then None
        else if 0xDC00 <= low.value < 0xE000 then
          Some((0x10000 + (high.value - 0xD800) * 1024 + (low.value - 0xDC00), s[11..]))
        else Some((high.value, s[5..]))
      else Some((high.value, s[5..]))
    else None
  }

  /** The text up to the closing quote. */
  function ScanString(s: Text): (r: Option<(Text, Text)>)
    ensures r.Some? ==> |r.value.1| < |s|
    decreases |s|
  {
    if |s| == 0 then None
    else if s[0] == QUOTE then Some(([], s[1..]))
    else if s[0] == BACKSLASH then
      var first := Unescape(s[1..]);
      if first.None? then None
      else
        var more := ScanString(first.value.1);
        if more.None? then None else Some(([first.value.0] + more.value.0, more.value.1))
    else if s[0] < 0x20 then None
    else
      var more := ScanString(s[1..]);
      if more.None? then None else Some(([s[0]] + more.value.0, more.value.1))
  }

  function DigitValue(c: CodePoint): nat
    requires Digit(c)
  {
    c as int - 0x30
  }

  function ScanDigits(s: Text, n: nat): (r: (nat, Text))
    ensures |r.1| <= |s|
  {
    if |s| > 0 && Digit(s[0]) then ScanDigits(s[1..], n * 10 + DigitValue(s[0])) else (n, s)
  }

  /** A fraction or an exponent follows. */
  predicate FloatFollows(s: Text) {
    || (|s| >= 2 && s[0] == DOT && Digit(s[1]))
    || (|s| >= 2 && (s[0] == 0x65 || s[0] == 0x45)
        && (Digit(s[1]) || (|s| >= 3 && (s[1] == PLUS || s[1] == MINUS) && Digit(s[2]))))
  }

  function Signed(negative: bool, n: int): int {
    if negative then -n else n
  }

  /** An integer; floats are refused. */
  function ScanNumber(s: Text): (r: Option<(Json, Text)>)
    ensures r.Some? ==> |r.value.1| < |s|
  {
    var negative := Starts(s, MINUS);
    var t := if negative then s[1..] else s;
    if |t| == 0 || !Digit(t[0]) then None
    else
      var (n, rest) := if t[0] == 0x30 then (0, t[1..]) else ScanDigits(t[1..], DigitValue(t[0]));
      if FloatFollows(rest) then None else Some((Num(Signed(negative, n)), rest))
  }

  /** One value at the start of a text, and what follows it. */
  function Scan(s: Text): (r: Option<(Json, Text)>)
    ensures r.Some? ==> |r.value.1| < |s|
    decreases |s|, 0
  {
    if |s| == 0 then None
    else if s[0] == QUOTE then
      var text := ScanString(s[1..]);
      if text.None? then None else Some((Str(text.value.0), text.value.1))
    else if s[0] == LBRACKET then
      var t := Skip(s[1..]);
      if Starts(t, RBRACKET) then Some((Arr(NoItems), t[1..]))
      else
        var items := ScanItems(t);
        if items.None? then None else Some((Arr(items.value.0), items.value.1))
    else if s[0] == LBRACE then
      var t := Skip(s[1..]);
      if Starts(t, RBRACE) then Some((Obj(NoFields), t[1..]))
      else
        var fields := ScanFields(t);
        if fields.None? || !Unique(fields.value.0) then None else Some((Obj(fields.value.0), fields.value.1))
    else if Chars("null") <= s || Chars("true") <= s then Some((Keyword, s[4..]))
    else if Chars("false") <= s then Some((Keyword, s[5..]))
    else ScanNumber(s)
  }

  /** Items up to the closing bracket. */
  function ScanItems(s: Text): (r: Option<(Items, Text)>)
    ensures r.Some? ==> |r.value.1| < |s|
    decreases |s|, 1
  {
    var first := Scan(s);
    if first.None? then None
    else
      var t := Skip(first.value.1);
      if Starts(t, RBRACKET) then Some((Item(first.value.0, NoItems), t[1..]))
      else if Starts(t, COMMA) then
        var more := ScanItems(Skip(t[1..]));
        if more.None? then None else Some((Item(first.value.0, more.value.0), more.value.1))
      else None
  }

  /** Members up to the closing brace. */
  function ScanFields(s: Text): (r: Option<(Fields, Text)>)
    ensures r.Some? ==> |r.value.1| < |s|
    decreases |s|, 1
  {
    if !Starts(s, QUOTE) then None
    else
      var key := ScanString(s[1..]);
      if key.None? then None
      else
        var t := Skip(key.value.1);
        if !Starts(t, COLON) then None
        else
          var first := Scan(Skip(t[1..]));
          if first.None? then None
          else
            var u := Skip(first.value.1);
            if Starts(u, RBRACE) then Some((Member(key.value.0, first.value.0, NoFields), u[1..]))
            else if Starts(u, COMMA) then
              var more := ScanFields(Skip(u[1..]));
              if more.None? then None else Some((Member(key.value.0, first.value.0, more.value.0), more.value.1))
            else None
  }

  /** A whole document: one value, white space around it, no byte order mark. */
  function Loads(s: Text): Option<Json> {
    if Starts(s, 0xFEFF) then None
    else
      var r := Scan(Skip(s));
      if r.None? || |Skip(r.value.1)| > 0 then None else Some(r.value.0)
  }
}
