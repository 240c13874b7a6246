/** Reading what was written gives the value back, and what was written is all that is needed to tell values apart. */
module JsonRoundTrip {
  import opened Messages
  import opened Utf8
  import opened Json

  // ---------------------------------------------------------------------------------------------
  // Strings

  lemma HexDigitValue(x: int)
    requires 0 <= x < 16
    ensures HexValue(HexDigit(x)) == Some(x)
  {
  }

  lemma UnescapeEscaped(c: CodePoint, rest: Text)
    requires Escaped(c)[0] == BACKSLASH
    ensures Unescape((Escaped(c) + rest)[1..]) == Some((c, rest))
  {
    var e := Escaped(c);
    var s := (e + rest)[1..];
    assert s == e[1..] + rest;
    if |e| == 2 {
      assert s[0] == e[1] && s[1..] == rest;
    } else {
      HexDigitValue(c / 16);
      HexDigitValue(c % 16);
      var t := s[1..];
      assert s[0] == 0x75 && s[5..] == rest;
      assert t[0] == 0x30 && t[1] == 0x30 && t[2] == HexDigit(c / 16) && t[3] == HexDigit(c % 16);
      assert Hex4(t) == Some(c);
    }
  }

  lemma {:induction false} ScanEscaped(t: Text, rest: Text)
    ensures ScanString(EscapedText(t) + [QUOTE] + rest) == Some((t, rest))
  {
    var s := EscapedText(t) + [QUOTE] + rest;
    if |t| == 0 {
      assert s[0] == QUOTE && s[1..] == rest;
    } else {
      var e, more := Escaped(t[0]), EscapedText(t[1..]) + [QUOTE] + rest;
      assert s == e + more;
      ScanEscaped(t[1..], rest);
      assert t == [t[0]] + t[1..];
      if e[0] == BACKSLASH {
        UnescapeEscaped(t[0], more);
      } else {
        assert s[0] == t[0] && s[1..] == more;
      }
    }
  }

  lemma ScanQuoted(t: Text, rest: Text)
    ensures (Quoted(t) + rest)[0] == QUOTE
    ensures ScanString((Quoted(t) + rest)[1..]) == Some((t, rest))
  {
    assert (Quoted(t) + rest)[1..] == EscapedText(t) + [QUOTE] + rest;
    ScanEscaped(t, rest);
  }

  // ---------------------------------------------------------------------------------------------
  // Numbers

  predicate AllDigits(t: Text) {
    forall c | c in t :: Digit(c)
  }

  /** The number a run of digits continues to. */
  function Value(t: Text, n: nat): nat
    requires AllDigits(t)
  {
    if |t| == 0 then n else Value(t[..|t| - 1], n) * 10 + DigitValue(t[|t| - 1])
  }

  lemma {:induction false} ValueFromFront(t: Text, n: nat)
    requires AllDigits(t) && |t| > 0
    ensures Value(t, n) == Value(t[1..], n * 10 + DigitValue(t[0]))
  {
    if |t| > 1 {
      var front := t[..|t| - 1];
      ValueFromFront(front, n);
      assert front[1..] == t[1..][..|t[1..]| - 1];
      assert t[1..][|t[1..]| - 1] == t[|t| - 1];
    }
  }

  lemma {:induction false} ScanDigitsRun(t: Text, rest: Text, n: nat)
    requires AllDigits(t) && (|rest| > 0 ==> !Digit(rest[0]))
    ensures ScanDigits(t + rest, n) == (Value(t, n), rest)
    decreases |t|
  {
    if |t| == 0 {
      assert t + rest == rest;
    } else {
      assert (t + rest)[1..] == t[1..] + rest;
      ScanDigitsRun(t[1..], rest, n * 10 + DigitValue(t[0]));
      ValueFromFront(t, n);
    }
  }

  lemma {:induction false} DigitsValue(n: nat)
    ensures AllDigits(Digits(n)) && Value(Digits(n), 0) == n
    ensures n > 0 ==> Digits(n)[0] != 0x30
  {
    if n >= 10 {
      DigitsValue(n / 10);
      var t := Digits(n);
      assert t[..|t| - 1] == Digits(n / 10);
    }
  }

  /** What may follow a value inside a document the encoder wrote. */
  predicate Stop(rest: Text) {
    |rest| == 0 || rest[0] == COMMA || rest[0] == RBRACKET || rest[0] == RBRACE
  }

  lemma ScanUnsigned(m: nat, rest: Text)
    requires Stop(rest)
    ensures var s := Digits(m) + rest;
            && |s| > 0 && Digit(s[0]) && !FloatFollows(rest)
            && (if s[0] == 0x30 then (0, s[1..]) else ScanDigits(s[1..], DigitValue(s[0]))) == (m, rest)
  {
    var t := Digits(m);
    var s := t + rest;
    DigitsValue(m);
    assert Digit(t[0]) && s[0] == t[0];
    if m == 0 {
      assert s[1..] == rest;
    } else {
      hide Digits;
      assert s[1..] == t[1..] + rest;
      ScanDigitsRun(t[1..], rest, DigitValue(t[0]));
      ValueFromFront(t, 0);
    }
  }

  lemma ScanDecimal(n: int, rest: Text)
    requires Stop(rest)
    ensures ScanNumber(Decimal(n) + rest) == Some((Num(n), rest))
  {
    var m := if n < 0 then -n else n;
    var s, t := Decimal(n) + rest, Digits(m) + rest;
    ScanUnsigned(m, rest);
    hide Digits, ScanDigits, FloatFollows;
    if n < 0 {
      assert s[1..] == t;
    } else {
      assert s == t;
    }
  }

  // ---------------------------------------------------------------------------------------------
  // Values

  /** The first character of a rendered value says what it is. */
  predicate Opens(c: CodePoint) {
    c == QUOTE || c == LBRACKET || c == LBRACE || c == MINUS || Digit(c)
  }

  lemma RenderOpens(v: Json)
    requires Valid(v)
    ensures |Render(v)| > 0 && Opens(Render(v)[0])
  {
    if v.Num? {
      DigitsValue(if v.n < 0 then -v.n else v.n);
    }
  }

  lemma SkipNothing(s: Text)
    requires |s| == 0 || !Space(s[0])
    ensures Skip(s) == s
  {
  }

  lemma ScanNumberOpens(s: Text)
    requires |s| > 0 && (s[0] == MINUS || Digit(s[0]))
    ensures Scan(s) == ScanNumber(s)
  {
    assert Chars("null")[0] == 0x6E && Chars("true")[0] == 0x74 && Chars("false")[0] == 0x66;
  }

  /** What a bracket and its items, or a brace and its members, come to. */
  lemma ScanBracketed(t: Text)
    requires |t| > 0 && !Space(t[0])
    ensures Scan([LBRACKET] + t) ==
              if t[0] == RBRACKET then Some((Arr(NoItems), t[1..]))
              else if ScanItems(t).None? then None else Some((Arr(ScanItems(t).value.0), ScanItems(t).value.1))
    ensures Scan([LBRACE] + t) ==
              if t[0] == RBRACE then Some((Obj(NoFields), t[1..]))
              else if ScanFields(t).None? || !Unique(ScanFields(t).value.0) then None
              else Some((Obj(ScanFields(t).value.0), ScanFields(t).value.1))
  {
    assert ([LBRACKET] + t)[1..] == t && ([LBRACE] + t)[1..] == t;
    SkipNothing(t);
    hide ScanItems, ScanFields, ScanString, ScanNumber, Skip, Unique;
  }

  lemma BracketText(items: Items, fields: Fields, rest: Text)
    ensures Render(Arr(items)) + rest == [LBRACKET] + (RenderItems(items) + [RBRACKET] + rest)
    ensures Render(Obj(fields)) + rest == [LBRACE] + (RenderFields(fields) + [RBRACE] + rest)
  {
    hide RenderItems, RenderFields;
    assert [LBRACKET] + RenderItems(items) + [RBRACKET] + rest == [LBRACKET] + (RenderItems(items) + [RBRACKET] + rest);
    assert [LBRACE] + RenderFields(fields) + [RBRACE] + rest == [LBRACE] + (RenderFields(fields) + [RBRACE] + rest);
  }

  lemma EmptyText(close: CodePoint, rest: Text)
    ensures RenderItems(NoItems) == [] && RenderFields(NoFields) == []
    ensures [] + [close] + rest == [close] + rest
    ensures ([close] + rest)[1..] == rest
  {
  }

  lemma ScanRenderedLeaf(v: Json, rest: Text)
    requires (v.Str? || v.Num?) && Stop(rest)
    ensures Scan(Render(v) + rest) == Some((v, rest))
  {
    var s := Render(v) + rest;
    if v.Str? {
      ScanQuoted(v.text, rest);
      hide Quoted, ScanString;
      assert s == Quoted(v.text) + rest;
    } else {
      DigitsValue(if v.n < 0 then -v.n else v.n);
      assert s == Decimal(v.n) + rest && s[0] == Decimal(v.n)[0];
      ScanNumberOpens(s);
      hide Scan;
      ScanDecimal(v.n, rest);
    }
  }

  lemma {:induction false} ScanRendered(v: Json, rest: Text)
    requires Valid(v) && Dict(v) && Stop(rest)
    ensures Scan(Render(v) + rest) == Some((v, rest))
    decreases v
  {
    hide Render, RenderItems, RenderFields, Scan, ScanItems, ScanFields, Skip;
    match v
    case Str(text) => ScanRenderedLeaf(v, rest);
    case Num(n) => ScanRenderedLeaf(v, rest);
    case Arr(items) =>
      var t := RenderItems(items) + [RBRACKET] + rest;
      BracketText(items, NoFields, rest);
      EmptyText(RBRACKET, rest);
      if items.Item? {
        RenderItemsOpens(items, [RBRACKET] + rest);
        assert RenderItems(items) + ([RBRACKET] + rest) == t;
        ScanRenderedItems(items, rest);
      }
      ScanBracketed(t);
    case Obj(fields) =>
      var t := RenderFields(fields) + [RBRACE] + rest;
      BracketText(NoItems, fields, rest);
      EmptyText(RBRACE, rest);
      if fields.Member? {
        RenderFieldsOpens(fields, [RBRACE] + rest);
        assert RenderFields(fields) + ([RBRACE] + rest) == t;
        ScanRenderedFields(fields, rest);
      }
      ScanBracketed(t);
  }

  lemma RenderItemsOpens(items: Items, rest: Text)
    requires ValidItems(items) && items.Item?
    ensures |RenderItems(items) + rest| > 0
    ensures Opens((RenderItems(items) + rest)[0]) && !Space((RenderItems(items) + rest)[0])
  {
    RenderOpens(items.head);
  }

  lemma RenderFieldsOpens(f: Fields, rest: Text)
    requires f.Member?
    ensures |RenderFields(f) + rest| > 0 && (RenderFields(f) + rest)[0] == QUOTE
  {
  }

  function AfterItem(items: Items, rest: Text): Text {
    if items.NoItems? then [RBRACKET] + rest else [COMMA] + (RenderItems(items) + [RBRACKET] + rest)
  }

  lemma Regroup(a: Text, x: CodePoint, b: Text)
    ensures a + [x] + b == a + ([x] + b)
    ensures ([x] + b)[1..] == b && ([x] + b)[0] == x
  {
  }

  lemma RegroupTail(a: Text, x: CodePoint, b: Text, y: CodePoint, rest: Text)
    ensures a + [x] + b + [y] + rest == a + ([x] + (b + [y] + rest))
  {
    assert a + [x] + b + [y] + rest == a + [x] + (b + [y] + rest);
    Regroup(a, x, b + [y] + rest);
  }

  lemma AfterItemStarts(items: Items, rest: Text)
    ensures Stop(AfterItem(items, rest)) && |AfterItem(items, rest)| > 0 && !Space(AfterItem(items, rest)[0])
    ensures AfterItem(items, rest)[0] == if items.NoItems? then RBRACKET else COMMA
    ensures AfterItem(items, rest)[1..] == if items.NoItems? then rest else RenderItems(items) + [RBRACKET] + rest
  {
    hide RenderItems;
    Regroup([], RBRACKET, rest);
    Regroup([], COMMA, RenderItems(items) + [RBRACKET] + rest);
  }

  lemma ItemText(items: Items, rest: Text)
    requires items.Item?
    ensures RenderItems(items) + [RBRACKET] + rest == Render(items.head) + AfterItem(items.tail, rest)
  {
    ItemShape(items);
    hide Render, RenderItems;
    Regroup(Render(items.head), RBRACKET, rest);
    RegroupTail(Render(items.head), COMMA, RenderItems(items.tail), RBRACKET, rest);
  }

  lemma ItemShape(items: Items)
    requires items.Item?
    ensures RenderItems(items) ==
            if items.tail.NoItems? then Render(items.head) else Render(items.head) + [COMMA] + RenderItems(items.tail)
  {
    hide Render;
  }

  lemma ScanItem(s: Text, v: Json, after: Text)
    requires Scan(s) == Some((v, after)) && |after| > 0 && !Space(after[0])
    ensures ScanItems(s) ==
              if after[0] == RBRACKET then Some((Item(v, NoItems), after[1..]))
              else if after[0] == COMMA then
                var more := ScanItems(Skip(after[1..]));
                if more.None? then None else Some((Item(v, more.value.0), more.value.1))
              else None
  {
    SkipNothing(after);
    hide Scan, Skip;
  }

  lemma {:induction false} ScanRenderedItems(items: Items, rest: Text)
    requires ValidItems(items) && DictItems(items) && items.Item?
    ensures ScanItems(RenderItems(items) + [RBRACKET] + rest) == Some((items, rest))
    decreases items
  {
    hide Render, RenderItems, Scan, ScanItems, Skip, AfterItem;
    ItemText(items, rest);
    AfterItemStarts(items.tail, rest);
    var after := AfterItem(items.tail, rest);
    ScanRendered(items.head, after);
    ScanItem(Render(items.head) + after, items.head, after);
    if items.tail.Item? {
      var u := RenderItems(items.tail) + [RBRACKET] + rest;
      RenderItemsOpens(items.tail, [RBRACKET] + rest);
      assert RenderItems(items.tail) + ([RBRACKET] + rest) == u;
      SkipNothing(u);
      ScanRenderedItems(items.tail, rest);
    }
  }

  /** What follows one member: the end of the object or the other members. */
  function AfterMember(f: Fields, rest: Text): Text {
    if f.NoFields? then [RBRACE] + rest else [COMMA] + (RenderFields(f) + [RBRACE] + rest)
  }

  lemma AfterMemberStarts(f: Fields, rest: Text)
    ensures Stop(AfterMember(f, rest)) && |AfterMember(f, rest)| > 0 && !Space(AfterMember(f, rest)[0])
    ensures AfterMember(f, rest)[0] == if f.NoFields? then RBRACE else COMMA
    ensures AfterMember(f, rest)[1..] == if f.NoFields? then rest else RenderFields(f) + [RBRACE] + rest
  {
    hide RenderFields;
    Regroup([], RBRACE, rest);
    Regroup([], COMMA, RenderFields(f) + [RBRACE] + rest);
  }

  lemma MemberShape(f: Fields)
    requires f.Member?
    ensures RenderFields(f) ==
            var first := Quoted(f.key) + [COLON] + Render(f.value);
            if f.rest.NoFields? then first else first + [COMMA] + RenderFields(f.rest)
  {
    hide Render, Quoted;
  }

  lemma Join(key: Text, value: Text, first: Text, after: Text)
    requires first == key + [COLON] + value
    ensures first + after == key + ([COLON] + (value + after))
  {
    assert first + after == key + [COLON] + (value + after);
    Regroup(key, COLON, value + after);
  }

  lemma MemberText(f: Fields, rest: Text)
    requires f.Member?
    ensures RenderFields(f) + [RBRACE] + rest ==
            Quoted(f.key) + ([COLON] + (Render(f.value) + AfterMember(f.rest, rest)))
  {
    MemberShape(f);
    hide Render, RenderFields, Quoted;
    var first := Quoted(f.key) + [COLON] + Render(f.value);
    Join(Quoted(f.key), Render(f.value), first, AfterMember(f.rest, rest));
    if f.rest.NoFields? {
      Regroup(first, RBRACE, rest);
    } else {
      RegroupTail(first, COMMA, RenderFields(f.rest), RBRACE, rest);
    }
  }

  lemma ScanMember(s: Text, key: Text, named: Text, value: Text, v: Json, after: Text)
    requires |s| > 0 && s[0] == QUOTE && ScanString(s[1..]) == Some((key, named))
    requires named == [COLON] + value && |value| > 0 && !Space(value[0])
    requires Scan(value) == Some((v, after)) && |after| > 0 && !Space(after[0])
    ensures ScanFields(s) ==
              if after[0] == RBRACE then Some((Member(key, v, NoFields), after[1..]))
              else if after[0] == COMMA then
                var more := ScanFields(Skip(after[1..]));
                if more.None? then None else Some((Member(key, v, more.value.0), more.value.1))
              else None
  {
    assert named[1..] == value;
    SkipNothing(named);
    SkipNothing(value);
    SkipNothing(after);
    hide Scan, Skip, ScanString;
  }

  lemma {:induction false} ScanRenderedFields(f: Fields, rest: Text)
    requires ValidFields(f) && DictFields(f) && f.Member?
    ensures ScanFields(RenderFields(f) + [RBRACE] + rest) == Some((f, rest))
    decreases f
  {
    hide Render, RenderFields, Scan, ScanFields, Skip, AfterMember, Quoted, ScanString;
    MemberText(f, rest);
    RenderOpens(f.value);
    AfterMemberStarts(f.rest, rest);
    var after := AfterMember(f.rest, rest);
    var value := Render(f.value) + after;
    var s := Quoted(f.key) + ([COLON] + value);
    ScanRendered(f.value, after);
    ScanQuoted(f.key, [COLON] + value);
    assert value[0] == Render(f.value)[0];
    ScanMember(s, f.key, [COLON] + value, value, f.value, after);
    if f.rest.Member? {
      var u := RenderFields(f.rest) + [RBRACE] + rest;
      RenderFieldsOpens(f.rest, [RBRACE] + rest);
      assert RenderFields(f.rest) + ([RBRACE] + rest) == u;
      SkipNothing(u);
      ScanRenderedFields(f.rest, rest);
    }
  }

  /** The decoder reads every rendered value back, members in the order they were written. */
  lemma LoadsRendered(v: Json)
    requires Valid(v) && Dict(v)
    ensures Loads(Render(v)) == Some(v)
  {
    var s := Render(v);
    RenderOpens(v);
    SkipNothing(s);
    ScanRendered(v, []);
    assert s + [] == s;
    SkipNothing([]);
  }

  // ---------------------------------------------------------------------------------------------
  // Every character of a rendered value has a UTF-8 form

  lemma ScalarsConcat(t: Text, u: Text)
    ensures Scalars(t + u) <==> Scalars(t) && Scalars(u)
  {
    if Scalars(t + u) {
      forall c | c in t
        ensures Scalar(c)
      {
        assert c in t + u;
      }
      forall c | c in u
        ensures Scalar(c)
      {
        assert c in t + u;
      }
    }
  }

  lemma {:induction false} EscapedScalars(t: Text)
    requires Scalars(t)
    ensures Scalars(EscapedText(t))
  {
    if |t| > 0 {
      assert t[0] in t && forall c | c in t[1..] :: c in t;
      EscapedScalars(t[1..]);
      ScalarsConcat(Escaped(t[0]), EscapedText(t[1..]));
    }
  }

  lemma DigitsScalars(n: nat)
    ensures Scalars(Digits(n))
  {
    DigitsValue(n);
  }

  lemma {:induction false} RenderScalars(v: Json)
    requires Valid(v)
    ensures Scalars(Render(v))
    decreases v
  {
    match v
    case Str(text) => EscapedScalars(text);
    case Num(n) => DigitsScalars(if n < 0 then -n else n);
    case Arr(items) => RenderItemsScalars(items);
    case Obj(fields) => RenderFieldsScalars(fields);
  }

  lemma {:induction false} RenderItemsScalars(items: Items)
    requires ValidItems(items)
    ensures Scalars(RenderItems(items))
    decreases items
  {
    if items.Item? {
      RenderScalars(items.head);
      RenderItemsScalars(items.tail);
    }
  }

  lemma {:induction false} RenderFieldsScalars(f: Fields)
    requires ValidFields(f)
    ensures Scalars(RenderFields(f))
    decreases f
  {
    if f.Member? {
      EscapedScalars(f.key);
      RenderScalars(f.value);
      RenderFieldsScalars(f.rest);
    }
  }
}
