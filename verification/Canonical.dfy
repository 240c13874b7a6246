/** The canonical bytes of a value, and the parser that accepts nothing else. */
module Canonical {
  import opened Messages
  import opened Utf8
  import opened Json
  import opened JsonRoundTrip

  // ---------------------------------------------------------------------------------------------
  // Sorted members

  /** Strings are ordered by their code points. */
  predicate Less(a: Text, b: Text) {
    |b| > 0 && (|a| == 0 || a[0] < b[0] || (a[0] == b[0] && Less(a[1..], b[1..])))
  }

  function Place(key: Text, value: Json, f: Fields): Fields {
    if f.NoFields? || Less(key, f.key) then Member(key, value, f)
    else Member(f.key, f.value, Place(key, value, f.rest))
  }

  function Sort(f: Fields): Fields {
    if f.NoFields? then NoFields else Place(f.key, f.value, Sort(f.rest))
  }

  predicate Sorted(f: Fields) {
    f.NoFields? || ((f.rest.Member? ==> Less(f.key, f.rest.key)) && Sorted(f.rest))
  }

  /** The value with the members of every object in order. */
  function Normalize(v: Json): Json {
    match v
    case Arr(items) => Arr(NormalizeItems(items))
    case Obj(fields) => Obj(Sort(NormalizeFields(fields)))
    case _ => v
  }

  function NormalizeItems(items: Items): Items {
    if items.NoItems? then NoItems else Item(Normalize(items.head), NormalizeItems(items.tail))
  }

  function NormalizeFields(f: Fields): Fields {
    if f.NoFields? then NoFields else Member(f.key, Normalize(f.value), NormalizeFields(f.rest))
  }

  predicate Normal(v: Json) {
    match v
    case Arr(items) => NormalItems(items)
    case Obj(fields) => Sorted(fields) && NormalFields(fields)
    case _ => true
  }

  predicate NormalItems(items: Items) {
    items.NoItems? || (Normal(items.head) && NormalItems(items.tail))
  }

  predicate NormalFields(f: Fields) {
    f.NoFields? || (Normal(f.value) && NormalFields(f.rest))
  }

  // ---------------------------------------------------------------------------------------------
  // The wire form

  /** Sorted keys, no white space, literal UTF-8, at most 4096 bytes. */
  function CanonicalBytes(v: Json): Option<Bytes> {
    if !Valid(v) then None
    else
      var data := Encode(Render(Normalize(v)));
      if data.None? || |data.value| == 0 || |data.value| > MAX_MESSAGE_BYTES then None else data
  }

  /** Decode and require that encoding again gives the same bytes. */
  function ParseJson(data: Bytes): Option<Json> {
    if |data| == 0 || |data| > MAX_MESSAGE_BYTES then None
    else
      var text := Decode(data);
      if text.None? then None
      else
        var v := Loads(text.value);
        if v.None? || CanonicalBytes(v.value) != Some(data) then None else v
  }

  // ---------------------------------------------------------------------------------------------
  // The order of keys

  lemma {:induction false} LessIsTotal(a: Text, b: Text)
    ensures Less(a, b) || a == b || Less(b, a)
    ensures !(Less(a, b) && Less(b, a)) && (a == b ==> !Less(a, b))
    decreases |a|
  {
    if |a| > 0 && |b| > 0 && a[0] == b[0] {
      LessIsTotal(a[1..], b[1..]);
      assert a == [a[0]] + a[1..] && b == [b[0]] + b[1..];
    }
  }

  lemma {:induction false} LessIsTransitive(a: Text, b: Text, c: Text)
    requires Less(a, b) && Less(b, c)
    ensures Less(a, c)
    decreases |a|
  {
    if |a| > 0 && a[0] == b[0] == c[0] {
      LessIsTransitive(a[1..], b[1..], c[1..]);
    }
  }

  // ---------------------------------------------------------------------------------------------
  // Sorting keeps the members

  lemma {:induction false} PlaceKeeps(key: Text, value: Json, f: Fields)
    requires key !in Keys(f) && Unique(f) && Sorted(f)
    ensures Keys(Place(key, value, f)) == {key} + Keys(f)
    ensures Unique(Place(key, value, f)) && Sorted(Place(key, value, f))
    ensures forall k | k in {key} + Keys(f) :: Find(Place(key, value, f), k) == if k == key then value else Find(f, k)
  {
    if f.Member? && !Less(key, f.key) {
      PlaceKeeps(key, value, f.rest);
      LessIsTotal(key, f.key);
    }
  }

  lemma {:induction false} SortKeeps(f: Fields)
    requires Unique(f)
    ensures Keys(Sort(f)) == Keys(f) && Unique(Sort(f)) && Sorted(Sort(f))
    ensures forall k | k in Keys(f) :: Find(Sort(f), k) == Find(f, k)
  {
    if f.Member? {
      SortKeeps(f.rest);
      PlaceKeeps(f.key, f.value, Sort(f.rest));
    }
  }

  lemma {:induction false} SortedIsFixed(f: Fields)
    requires Sorted(f)
    ensures Sort(f) == f
  {
    if f.Member? {
      SortedIsFixed(f.rest);
    }
  }

  /** The first key of a sorted object is before all the others. */
  lemma {:induction false} FirstIsLeast(f: Fields, k: Text)
    requires Sorted(f) && f.Member? && k in Keys(f.rest)
    ensures Less(f.key, k)
    decreases f
  {
    if f.rest.key != k {
      FirstIsLeast(f.rest, k);
      LessIsTransitive(f.key, f.rest.key, k);
    }
  }

  /** Sorted objects with the same members are the same. */
  lemma {:induction false} SortedIsUnique(f: Fields, g: Fields)
    requires Sorted(f) && Sorted(g) && Unique(f) && Unique(g) && Keys(f) == Keys(g)
    requires forall k | k in Keys(f) :: Find(f, k) == Find(g, k)
    ensures f == g
    decreases f
  {
    if f.Member? {
      assert f.key in Keys(g);
      assert g.key in Keys(f);
      if f.key != g.key {
        FirstIsLeast(f, g.key);
        FirstIsLeast(g, f.key);
        LessIsTotal(f.key, g.key);
      }
      assert Find(f, f.key) == Find(g, f.key);
      assert Keys(f.rest) == Keys(f) - {f.key} && Keys(g.rest) == Keys(g) - {f.key};
      forall k | k in Keys(f.rest)
        ensures Find(f.rest, k) == Find(g.rest, k)
      {
        assert Find(f, k) == Find(g, k);
      }
      SortedIsUnique(f.rest, g.rest);
    } else {
      assert Keys(g) == {};
    }
  }

  // ---------------------------------------------------------------------------------------------
  // Normal values

  lemma {:induction false} NormalizeFieldsKeys(f: Fields)
    ensures Keys(NormalizeFields(f)) == Keys(f)
    ensures Unique(f) ==> Unique(NormalizeFields(f))
    ensures forall k | k in Keys(f) :: Find(NormalizeFields(f), k) == Normalize(Find(f, k))
  {
    if f.Member? {
      NormalizeFieldsKeys(f.rest);
    }
  }

  lemma {:induction false} PlaceAll(key: Text, value: Json, f: Fields)
    ensures ValidFields(Place(key, value, f)) <==> Scalars(key) && Valid(value) && ValidFields(f)
    ensures DictFields(Place(key, value, f)) <==> Dict(value) && DictFields(f)
    ensures NormalFields(Place(key, value, f)) <==> Normal(value) && NormalFields(f)
  {
    if f.Member? {
      PlaceAll(key, value, f.rest);
    }
  }

  lemma {:induction false} SortAll(f: Fields)
    ensures ValidFields(Sort(f)) <==> ValidFields(f)
    ensures DictFields(Sort(f)) <==> DictFields(f)
    ensures NormalFields(Sort(f)) <==> NormalFields(f)
  {
    if f.Member? {
      SortAll(f.rest);
      PlaceAll(f.key, f.value, Sort(f.rest));
    }
  }

  /** Normalizing gives a normal value with the same checks. */
  lemma {:induction false} NormalizeIsNormal(v: Json)
    requires Dict(v)
    ensures Dict(Normalize(v)) && Normal(Normalize(v)) && (Valid(Normalize(v)) <==> Valid(v))
    decreases v
  {
    match v
    case Arr(items) => NormalizeItemsIsNormal(items);
    case Obj(fields) =>
      NormalizeFieldsIsNormal(fields);
      NormalizeFieldsKeys(fields);
      SortKeeps(NormalizeFields(fields));
      SortAll(NormalizeFields(fields));
    case _ =>
  }

  lemma {:induction false} NormalizeItemsIsNormal(items: Items)
    requires DictItems(items)
    ensures DictItems(NormalizeItems(items)) && NormalItems(NormalizeItems(items))
    ensures ValidItems(NormalizeItems(items)) <==> ValidItems(items)
    decreases items
  {
    if items.Item? {
      NormalizeIsNormal(items.head);
      NormalizeItemsIsNormal(items.tail);
    }
  }

  lemma {:induction false} NormalizeFieldsIsNormal(f: Fields)
    requires DictFields(f)
    ensures DictFields(NormalizeFields(f)) && NormalFields(NormalizeFields(f))
    ensures ValidFields(NormalizeFields(f)) <==> ValidFields(f)
    decreases f
  {
    if f.Member? {
      NormalizeIsNormal(f.value);
      NormalizeFieldsIsNormal(f.rest);
    }
  }

  lemma {:induction false} NormalIsFixed(v: Json)
    requires Normal(v)
    ensures Normalize(v) == v
    decreases v
  {
    match v
    case Arr(items) => NormalItemsFixed(items);
    case Obj(fields) =>
      NormalFieldsFixed(fields);
      SortedIsFixed(fields);
    case _ =>
  }

  lemma {:induction false} NormalItemsFixed(items: Items)
    requires NormalItems(items)
    ensures NormalizeItems(items) == items
    decreases items
  {
    if items.Item? {
      NormalIsFixed(items.head);
      NormalItemsFixed(items.tail);
    }
  }

  lemma {:induction false} NormalFieldsFixed(f: Fields)
    requires NormalFields(f)
    ensures NormalizeFields(f) == f
    decreases f
  {
    if f.Member? {
      NormalIsFixed(f.value);
      NormalFieldsFixed(f.rest);
    }
  }

  // ---------------------------------------------------------------------------------------------
  // Equal values have equal normal forms, and only they

  lemma {:induction false} SameIffNormal(v: Json, w: Json)
    requires Dict(v) && Dict(w)
    ensures Same(v, w) <==> Normalize(v) == Normalize(w)
    decreases v
  {
    match v
    case Arr(items) =>
      if w.Arr? {
        SameItemsIffNormal(items, w.items);
      }
    case Obj(fields) =>
      if w.Obj? {
        SameObjects(fields, w.fields);
      }
    case _ =>
  }

  lemma {:induction false} SameItemsIffNormal(items: Items, others: Items)
    requires DictItems(items) && DictItems(others)
    ensures SameItems(items, others) <==> NormalizeItems(items) == NormalizeItems(others)
    decreases items
  {
    if items.Item? && others.Item? {
      SameIffNormal(items.head, others.head);
      SameItemsIffNormal(items.tail, others.tail);
    }
  }

  lemma {:induction false} FoundIsDict(f: Fields, k: Text)
    requires DictFields(f) && k in Keys(f)
    ensures Dict(Find(f, k))
  {
    if f.key != k {
      FoundIsDict(f.rest, k);
    }
  }

  lemma {:induction false} SameMembersIffNormal(f: Fields, g: Fields)
    requires DictFields(f) && DictFields(g) && Keys(f) <= Keys(g) && Unique(f)
    ensures SameFields(f, g) <==> forall k | k in Keys(f) :: Normalize(Find(f, k)) == Normalize(Find(g, k))
    decreases f, 0
  {
    if f.Member? {
      FoundIsDict(g, f.key);
      SameIffNormal(f.value, Find(g, f.key));
      SameMembersIffNormal(f.rest, g);
      assert forall k | k in Keys(f.rest) :: Find(f, k) == Find(f.rest, k);
      assert Find(f, f.key) == f.value;
    }
  }

  lemma {:induction false} SameObjects(f: Fields, g: Fields)
    requires DictFields(f) && DictFields(g) && Unique(f) && Unique(g)
    ensures Same(Obj(f), Obj(g)) <==> Normalize(Obj(f)) == Normalize(Obj(g))
    decreases f, 1
  {
    NormalizeFieldsKeys(f);
    NormalizeFieldsKeys(g);
    SortKeeps(NormalizeFields(f));
    SortKeeps(NormalizeFields(g));
    var nf, ng := Sort(NormalizeFields(f)), Sort(NormalizeFields(g));
    if Keys(f) == Keys(g) {
      SameMembersIffNormal(f, g);
      if SameFields(f, g) {
        SortedIsUnique(nf, ng);
      }
    }
  }

  // ---------------------------------------------------------------------------------------------
  // Parser and printer are inverse

  /** Every value that is printed parses back, to the same value. */
  lemma ParsePrinted(v: Json, data: Bytes)
    requires Dict(v) && CanonicalBytes(v) == Some(data)
    ensures ParseJson(data) == Some(Normalize(v)) && Same(v, Normalize(v))
  {
    var n := Normalize(v);
    NormalizeIsNormal(v);
    NormalIsFixed(n);
    LoadsRendered(n);
    DecodeIffEncode(data, Render(n));
    SameIffNormal(v, n);
  }

  /** Every byte string that is accepted is the printed form of what was parsed. */
  lemma PrintParsed(data: Bytes)
    requires ParseJson(data).Some?
    ensures CanonicalBytes(ParseJson(data).value) == Some(data)
    ensures Dict(ParseJson(data).value) && Normal(ParseJson(data).value)
  {
    var v := ParseJson(data).value;
    LoadsIsDict(Decode(data).value);
    ParsePrinted(v, data);
    NormalizeIsNormal(v);
  }

  /** The parser accepts exactly the printed forms. */
  lemma AcceptsExactlyPrinted(data: Bytes)
    ensures ParseJson(data).Some? <==> exists v :: Dict(v) && CanonicalBytes(v) == Some(data)
  {
    if ParseJson(data).Some? {
      PrintParsed(data);
    }
    if v :| Dict(v) && CanonicalBytes(v) == Some(data) {
      ParsePrinted(v, data);
    }
  }

  /** A value has one wire form, and a wire form one value. */
  lemma OneForm(v: Json, w: Json)
    requires Dict(v) && Dict(w) && CanonicalBytes(v).Some? && CanonicalBytes(w).Some?
    ensures CanonicalBytes(v) == CanonicalBytes(w) <==> Same(v, w)
  {
    SameIffNormal(v, w);
    ParsePrinted(v, CanonicalBytes(v).value);
    ParsePrinted(w, CanonicalBytes(w).value);
  }

  // ---------------------------------------------------------------------------------------------
  // What the decoder reads never repeats a key

  lemma {:induction false} ScanIsDict(s: Text)
    ensures Scan(s).Some? ==> Dict(Scan(s).value.0)
    decreases |s|, 0
  {
    if Scan(s).Some? {
      if s[0] == LBRACKET && !Starts(Skip(s[1..]), RBRACKET) {
        ScanItemsIsDict(Skip(s[1..]));
      } else if s[0] == LBRACE && !Starts(Skip(s[1..]), RBRACE) {
        ScanFieldsIsDict(Skip(s[1..]));
      }
    }
  }

  lemma {:induction false} ScanItemsIsDict(s: Text)
    ensures ScanItems(s).Some? ==> DictItems(ScanItems(s).value.0)
    decreases |s|, 1
  {
    if ScanItems(s).Some? {
      ScanIsDict(s);
      var t := Skip(Scan(s).value.1);
      if Starts(t, COMMA) {
        ScanItemsIsDict(Skip(t[1..]));
      }
    }
  }

  lemma {:induction false} ScanFieldsIsDict(s: Text)
    ensures ScanFields(s).Some? ==> DictFields(ScanFields(s).value.0)
    decreases |s|, 1
  {
    if ScanFields(s).Some? {
      var t := Skip(ScanString(s[1..]).value.1);
      ScanIsDict(Skip(t[1..]));
      var u := Skip(Scan(Skip(t[1..])).value.1);
      if Starts(u, COMMA) {
        ScanFieldsIsDict(Skip(u[1..]));
      }
    }
  }

  lemma LoadsIsDict(s: Text)
    ensures Loads(s).Some? ==> Dict(Loads(s).value)
  {
    ScanIsDict(Skip(s));
  }

  /** The hook that turns the members of an object into a dictionary and refuses a repeated key. */
  method UniquePairs(pairs: Fields) returns (r: Option<map<Text, Json>>)
    ensures r.Some? <==> Unique(pairs)
    ensures r.Some? ==> r.value.Keys == Keys(pairs) && forall k | k in r.value :: r.value[k] == Find(pairs, k)
  {
    var result: map<Text, Json>, rest := map[], pairs;
    while rest.Member?
      invariant Unique(pairs) <==> Unique(rest) && Keys(rest) !! result.Keys
      invariant Keys(pairs) == result.Keys + Keys(rest)
      invariant forall k | k in result :: result[k] == Find(pairs, k)
      invariant forall k | k in Keys(rest) && k !in result :: Find(pairs, k) == Find(rest, k)
      decreases rest
    {
      if rest.key in result {
        return None;
      }
      result, rest := result[rest.key := rest.value], rest.rest;
    }
    r := Some(result);
  }
}
