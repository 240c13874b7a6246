/** The bytes of a closure manifest: exactly when it fits its message of at most 4096 bytes. */
module ManifestSize {
  import opened Messages
  import opened Lengths
  import opened Utf8
  import opened Json
  import opened JsonRoundTrip
  import opened Canonical
  import opened Envelopes

  /** Characters that are written as they are, in one byte. */
  predicate Plain(t: Text) {
    forall c | c in t :: 0x20 <= c < 0x80 && c != QUOTE && c != BACKSLASH
  }

  predicate Ascii(t: Text) {
    forall c | c in t :: c < 0x80
  }

  lemma {:induction false} PlainIsUnescaped(t: Text)
    requires Plain(t)
    ensures EscapedText(t) == t
  {
    if |t| > 0 {
      assert t[0] in t && forall c | c in t[1..] :: c in t;
      PlainIsUnescaped(t[1..]);
      assert t == [t[0]] + t[1..];
    }
  }

  lemma {:induction false} EncodedLength(t: Text)
    ensures |EncodeScalars(t)| >= |t|
    ensures Ascii(t) ==> |EncodeScalars(t)| == |t|
  {
    if |t| > 0 {
      assert t[0] in t && forall c | c in t[1..] :: c in t;
      EncodedLength(t[1..]);
    }
  }

  lemma {:induction false} DigitsLength(n: nat)
    ensures |Digits(n)| == DigitCount(n) && Ascii(Digits(n))
  {
    if n >= 10 {
      DigitsLength(n / 10);
    }
  }

  lemma QuotedLength(t: Text)
    requires Plain(t)
    ensures |Quoted(t)| == |t| + 2 && Ascii(Quoted(t))
  {
    PlainIsUnescaped(t);
  }

  lemma KeyLengths()
    ensures Plain(AmountKey()) && Plain(IndexKey()) && Plain(OperationKey()) && Plain(DigestKey())
    ensures |AmountKey()| == 12 && |IndexKey()| == 14 && |OperationKey()| == 12 && |DigestKey()| == 14
  {
  }

  lemma LineTexts(l: Line, index: int)
    requires LineFits(l, index)
    ensures Plain(l.op) && |l.op| == 36 && Plain(l.digest) && |l.digest| == 64
  {
    forall c | c in l.op
      ensures 0x20 <= c < 0x80 && c != QUOTE && c != BACKSLASH
    {
      var i :| 0 <= i < 36 && l.op[i] == c;
    }
  }

  /** One member and what follows it. */
  lemma MemberLength(key: Text, value: Json, rest: Fields)
    requires Plain(key)
    ensures |RenderFields(Member(key, value, rest))| ==
            |key| + 3 + |Render(value)| + if rest.NoFields? then 0 else 1 + |RenderFields(rest)|
    ensures Ascii(Render(value)) && Ascii(RenderFields(rest)) ==> Ascii(RenderFields(Member(key, value, rest)))
  {
    MemberShape(Member(key, value, rest));
    QuotedLength(key);
    hide Render, RenderFields, Quoted;
  }

  lemma ValueLengths(n: int, t: Text)
    requires n >= 0 && Plain(t)
    ensures |Render(Num(n))| == DigitCount(n) && Ascii(Render(Num(n)))
    ensures |Render(Str(t))| == |t| + 2 && Ascii(Render(Str(t)))
  {
    DigitsLength(n);
    QuotedLength(t);
  }

  /** A manifest line takes 173 bytes and the digits of its two numbers. */
  lemma LineLength(l: Line, index: int)
    requires LineFits(l, index)
    ensures |Render(Obj(LineFields(l)))| == 173 + DigitCount(l.amount) + DigitCount(l.index)
    ensures Ascii(Render(Obj(LineFields(l))))
  {
    KeyLengths();
    LineTexts(l, index);
    ValueLengths(l.amount, l.op);
    ValueLengths(l.index, l.digest);
    hide Render, RenderFields, Plain, AmountKey, IndexKey, OperationKey, DigestKey, LineFits, DigitCount;
    var f3 := Member(DigestKey(), Str(l.digest), NoFields);
    var f2 := Member(OperationKey(), Str(l.op), f3);
    var f1 := Member(IndexKey(), Num(l.index), f2);
    assert Ascii(RenderFields(NoFields)) by { EmptyText(RBRACE, []); }
    MemberLength(DigestKey(), Str(l.digest), NoFields);
    MemberLength(OperationKey(), Str(l.op), f3);
    MemberLength(IndexKey(), Num(l.index), f2);
    MemberLength(AmountKey(), Num(l.amount), f1);
    ObjectLength(LineFields(l));
  }

  lemma ObjectLength(f: Fields)
    ensures |Render(Obj(f))| == |RenderFields(f)| + 2
    ensures Ascii(RenderFields(f)) ==> Ascii(Render(Obj(f)))
  {
    hide RenderFields;
  }

  /** The same numbers, line by line; identifiers and digests all have the same length. */
  predicate SameNumbers(lines: seq<Line>, entries: seq<Entry>) {
    |lines| == |entries| && forall i | 0 <= i < |lines| ::
      lines[i].index == entries[i].index && lines[i].amount == entries[i].amount
  }

  lemma {:induction false} ItemsLength(lines: seq<Line>, entries: seq<Entry>, index: int)
    requires forall i | 0 <= i < |lines| :: LineFits(lines[i], index + i)
    requires SameNumbers(lines, entries)
    ensures |lines| > 0 ==> |RenderItems(ManifestItems(lines))| == LinesLength(entries) - 1
    ensures Ascii(RenderItems(ManifestItems(lines)))
    decreases |lines|
  {
    hide Render, RenderItems, LineFields, DigitCount;
    if |lines| > 0 {
      LineLength(lines[0], index);
      assert forall i | 0 <= i < |lines| - 1 :: LineFits(lines[1..][i], index + 1 + i);
      hide LineFits;
      ItemsLength(lines[1..], entries[1..], index + 1);
      LengthFromFront(entries);
      ItemShape(ManifestItems(lines));
      assert |lines| == 1 ==> LinesLength(entries[1..]) == 0;
      hide LinesLength;
    } else {
      NoLines(lines);
      NoText();
    }
  }

  lemma {:induction false} LinesAreValid(lines: seq<Line>, index: int)
    requires forall i | 0 <= i < |lines| :: LineFits(lines[i], index + i)
    ensures ValidItems(ManifestItems(lines))
    decreases |lines|
  {
    if |lines| > 0 {
      LinesAreValid(lines[1..], index + 1);
      LineIsValid(lines[0], index);
      hide LineFields, LineFits;
    }
  }

  lemma LineIsValid(l: Line, index: int)
    requires LineFits(l, index)
    ensures Valid(Obj(LineFields(l)))
  {
    LineTexts(l, index);
    KeyLengths();
    PlainIsScalars(l.op);
    PlainIsScalars(l.digest);
    FieldNames();
    assert 1 <= l.amount <= MAX_INT64 && 1 <= l.index <= MAX_INT64;
    hide AmountKey, IndexKey, OperationKey, DigestKey, LineFits, Plain, Scalars;
    var f3 := Member(DigestKey(), Str(l.digest), NoFields);
    var f2 := Member(OperationKey(), Str(l.op), f3);
    var f1 := Member(IndexKey(), Num(l.index), f2);
    assert ValidFields(f3);
    assert ValidFields(f2);
    assert ValidFields(f1);
    assert LineFields(l) == Member(AmountKey(), Num(l.amount), f1);
    assert l.amount <= MAX_INT64 && Valid(Num(l.amount));
    assert ValidFields(LineFields(l));
  }

  lemma PlainIsScalars(t: Text)
    requires Plain(t)
    ensures Scalars(t)
  {
  }

  lemma RenderedManifest(lines: seq<Line>, entries: seq<Entry>)
    requires WellFormed(lines) && SameNumbers(lines, entries)
    ensures var t := Render(Arr(ManifestItems(lines)));
            && Ascii(t) && |t| == ManifestLength(entries)
            && (ManifestBytes(lines).Some? <==> |t| <= MAX_MESSAGE_BYTES)
            && (ManifestBytes(lines).Some? ==> |ManifestBytes(lines).value| == |t|)
  {
    var v := Arr(ManifestItems(lines));
    assert forall i | 0 <= i < |lines| :: LineFits(lines[i], 1 + i);
    ItemsLength(lines, entries, 1);
    LinesAreValid(lines, 1);
    ManifestIsNormal(lines);
    NormalIsFixed(v);
    RenderScalars(v);
    ArrayLength(ManifestItems(lines));
    if |lines| == 0 {
      NoLines(lines);
    }
    hide Render, ManifestItems, RenderItems, LineFits, LinesLength;
    EncodedLength(Render(v));
  }

  lemma ArrayLength(items: Items)
    ensures |Render(Arr(items))| == |RenderItems(items)| + 2
    ensures Ascii(RenderItems(items)) ==> Ascii(Render(Arr(items)))
  {
    hide RenderItems;
  }

  lemma NoText()
    ensures Ascii([])
  {
  }

  lemma NoLines(lines: seq<Line>)
    requires |lines| == 0
    ensures RenderItems(ManifestItems(lines)) == []
  {
  }

  /** A manifest can be written exactly when its length, counted from its numbers alone, is at most 4096, and then it has
    that length. */
  lemma ManifestFits(lines: seq<Line>, entries: seq<Entry>)
    requires WellFormed(lines) && SameNumbers(lines, entries)
    ensures ManifestBytes(lines).Some? <==> Fits(entries)
    ensures ManifestBytes(lines).Some? ==> |ManifestBytes(lines).value| == ManifestLength(entries)
  {
    hide WellFormed, SameNumbers, ManifestBytes, ManifestItems, Render, ManifestLength;
    RenderedManifest(lines, entries);
  }

  function NumbersOf(lines: seq<Line>): (entries: seq<Entry>)
    ensures SameNumbers(lines, entries)
  {
    seq(|lines|, i requires 0 <= i < |lines| => Entry(lines[i].index, i, lines[i].amount, Other(0)))
  }

  /** Up to 21 payments always fit, 24 or more never do. */
  lemma FitsByNumber(lines: seq<Line>)
    requires WellFormed(lines)
    ensures |lines| <= 21 ==> ManifestBytes(lines).Some?
    ensures |lines| >= 24 ==> ManifestBytes(lines).None?
  {
    var entries := NumbersOf(lines);
    ManifestFits(lines, entries);
    assert forall i | 0 <= i < |entries| :: LineFits(lines[i], i + 1);
    hide WellFormed, ManifestBytes, Fits;
    FitsByCount(entries);
  }

  // ---------------------------------------------------------------------------------------------
  // Between 22 and 23

  function UuidAt(i: int, k: int): CodePoint
    requires 0 <= i < 100
  {
    if k == 8 || k == 13 || k == 18 || k == 23 then MINUS
    else if k == 14 then 0x34
    else if k == 19 then 0x38
    else if k == 34 then 0x30 + i / 10
    else if k == 35 then 0x30 + i % 10
    else 0x30
  }

  /** Identifiers that differ in their last two digits. */
  function Uuid(i: int): Text
    requires 0 <= i < 100
  {
    seq(36, k requires 0 <= k < 36 && 0 <= i < 100 => UuidAt(i, k))
  }

  /** A manifest of n payments of one amount. */
  function Uniform(n: nat, amount: int): seq<Line>
    requires n < 100
  {
    seq(n, i requires 0 <= i < n && n < 100 => Line(i + 1, Uuid(i), amount, seq(64, j => 0x30)))
  }

  lemma UuidsDiffer(i: int, j: int)
    requires 0 <= i < j < 100
    ensures Uuid(i) != Uuid(j) && IsUuid4(Uuid(i)) && IsUuid4(Uuid(j))
  {
    assert Uuid(i)[34] != Uuid(j)[34] || Uuid(i)[35] != Uuid(j)[35];
  }

  lemma UniformIsWellFormed(n: nat, amount: int)
    requires n < 99 && 1 <= amount <= MAX_INT64
    ensures WellFormed(Uniform(n, amount))
  {
    var lines := Uniform(n, amount);
    forall i, j | 0 <= i < j < n
      ensures lines[i].op != lines[j].op
    {
      UuidsDiffer(i, j);
    }
    forall i | 0 <= i < n
      ensures LineFits(lines[i], i + 1)
    {
      UuidsDiffer(i, i + 1);
      hide IsUuid4;
    }
  }

  /** With 22 or 23 payments both happen: of the smallest amount they can be written, of the largest they cannot. */
  lemma BothHappen(n: nat)
    requires 22 <= n <= 23
    ensures WellFormed(Uniform(n, 1)) && ManifestBytes(Uniform(n, 1)).Some?
    ensures WellFormed(Uniform(n, MAX_INT64)) && ManifestBytes(Uniform(n, MAX_INT64)).None?
  {
    hide WellFormed, ManifestBytes, Fits, Uuid;
    forall amount | amount == 1 || amount == MAX_INT64
      ensures WellFormed(Uniform(n, amount)) && (ManifestBytes(Uniform(n, amount)).Some? <==> amount == 1)
    {
      UniformIsWellFormed(n, amount);
      var entries := NumbersOf(Uniform(n, amount));
      ManifestFits(Uniform(n, amount), entries);
      BetweenItDepends(entries, amount);
    }
  }
}
