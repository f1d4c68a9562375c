/**
 JSON texts after sections 2, 4, 5 and 7 of RFC 8259, for the fragment policy
 documents use: objects, arrays and strings without escapes. A text the parser
 accepts is a JSON text with the value it returns; numbers, literals and escape
 sequences it does not accept.
 */
module Json {
  import opened Base

  datatype Json =
    | Str(s: string)
    | Arr(items: Items)
    | Obj(fields: Fields)

  datatype Items = NoItems | Item(head: Json, tail: Items)

  datatype Fields = NoFields | Field(key: string, value: Json, rest: Fields)

  /** Whitespace of section 2. */
  predicate White(c: char) {
    c == ' ' || c == '\t' || c == '\n' || c == '\r'
  }

  /** Characters of section 7 that stand for themselves inside a string. */
  predicate Plain(c: char) {
    c != '"' && c != '\\' && ' ' <= c
  }

  predicate AllWhite(s: string) {
    forall i :: 0 <= i < |s| ==> White(s[i])
  }

  predicate AllPlain(s: string) {
    forall i :: 0 <= i < |s| ==> Plain(s[i])
  }

  function Skip(s: string): (r: string)
    ensures |r| <= |s|
    ensures r == "" || !White(r[0])
  {
    if s != "" && White(s[0]) then Skip(s[1..]) else s
  }

  /** The rest of a string literal up to its closing quote, and what follows it. */
  function ParseString(s: string): (r: Option<(string, string)>)
    ensures r.Some? ==> |r.value.1| < |s| && AllPlain(r.value.0)
  {
    if s == "" then None
    else if s[0] == '"' then Some(("", s[1..]))
    else if !Plain(s[0]) then None
    else
      var r := ParseString(s[1..]);
      if r.None? then None else Some(([s[0]] + r.value.0, r.value.1))
  }

  function ParseValue(s: string): (r: Option<(Json, string)>)
    ensures r.Some? ==> |r.value.1| < |s| && SafeValue(r.value.0)
    decreases |s|, 0
  {
    var t := Skip(s);
    if t == "" then None
    else if t[0] == '"' then
      var r := ParseString(t[1..]);
      if r.None? then None else Some((Str(r.value.0), r.value.1))
    else if t[0] == '[' then
      var u := Skip(t[1..]);
      if u != "" && u[0] == ']' then Some((Arr(NoItems), u[1..]))
      else
        var r := ParseItems(t[1..]);
        if r.None? then None else Some((Arr(r.value.0), r.value.1))
    else if t[0] == '{' then
      var u := Skip(t[1..]);
      if u != "" && u[0] == '}' then Some((Obj(NoFields), u[1..]))
      else
        var r := ParseFields(t[1..]);
        if r.None? then None else Some((Obj(r.value.0), r.value.1))
    else None
  }

  /** One or more values separated by commas, up to the closing bracket. */
  function ParseItems(s: string): (r: Option<(Items, string)>)
    ensures r.Some? ==> |r.value.1| < |s| && SafeItems(r.value.0)
    decreases |s|, 1
  {
    var v := ParseValue(s);
    if v.None? then None
    else
      var t := Skip(v.value.1);
      if t == "" then None
      else if t[0] == ']' then Some((Item(v.value.0, NoItems), t[1..]))
      else if t[0] != ',' then None
      else
        var r := ParseItems(t[1..]);
        if r.None? then None else Some((Item(v.value.0, r.value.0), r.value.1))
  }

  /** One or more members separated by commas, up to the closing brace. */
  function ParseFields(s: string): (r: Option<(Fields, string)>)
    ensures r.Some? ==> |r.value.1| < |s| && SafeFields(r.value.0)
    decreases |s|, 1
  {
    var t := Skip(s);
    if t == "" || t[0] != '"' then None
    else
      var k := ParseString(t[1..]);
      if k.None? then None
      else
        var u := Skip(k.value.1);
        if u == "" || u[0] != ':' then None
        else
          var v := ParseValue(u[1..]);
          if v.None? then None
          else
            var x := Skip(v.value.1);
            if x == "" then None
            else if x[0] == '}' then Some((Field(k.value.0, v.value.0, NoFields), x[1..]))
            else if x[0] != ',' then None
            else
              var r := ParseFields(x[1..]);
              if r.None? then None else Some((Field(k.value.0, v.value.0, r.value.0), r.value.1))
  }

  /** A JSON text is one value with whitespace around it. */
  function ParseText(s: string): (r: Option<Json>)
    ensures r.Some? ==> SafeValue(r.value)
  {
    var r := ParseValue(s);
    if r.None? || Skip(r.value.1) != "" then None else Some(r.value.0)
  }

  // ------------------------------------------------------- values without escapes

  predicate SafeValue(v: Json) {
    match v
    case Str(s) => AllPlain(s)
    case Arr(items) => SafeItems(items)
    case Obj(fields) => SafeFields(fields)
  }

  predicate SafeItems(items: Items) {
    items.NoItems? || (SafeValue(items.head) && SafeItems(items.tail))
  }

  predicate SafeFields(fields: Fields) {
    fields.NoFields? || (AllPlain(fields.key) && SafeValue(fields.value) && SafeFields(fields.rest))
  }

  // ------------------------------------------------------------- spelled documents

  /**
   A value together with the whitespace it is written with: `lead` before an array
   item or a member, `close` before a closing bracket or brace.
   */
  datatype Doc =
    | DStr(s: string)
    | DArr(items: DItems, close: string)
    | DObj(fields: DFields, close: string)

  datatype DItems = DNone | DItem(lead: string, head: Doc, tail: DItems)

  datatype DFields = DEnd | DField(lead: string, key: string, value: Doc, rest: DFields)

  function Quote(s: string): string {
    "\"" + s + "\""
  }

  function Spell(d: Doc): string {
    match d
    case DStr(s) => Quote(s)
    case DArr(items, close) => "[" + SpellItems(items) + close + "]"
    case DObj(fields, close) => "{" + SpellFields(fields) + close + "}"
  }

  function SpellItems(items: DItems): string {
    match items
    case DNone => ""
    case DItem(lead, head, tail) => lead + Spell(head) + (if tail.DNone? then "" else "," + SpellItems(tail))
  }

  function SpellFields(fields: DFields): string {
    match fields
    case DEnd => ""
    case DField(lead, key, value, rest) =>
      lead + Quote(key) + ": " + Spell(value) + (if rest.DEnd? then "" else "," + SpellFields(rest))
  }

  function Value(d: Doc): Json {
    match d
    case DStr(s) => Str(s)
    case DArr(items, _) => Arr(ValueItems(items))
    case DObj(fields, _) => Obj(ValueFields(fields))
  }

  function ValueItems(items: DItems): Items {
    if items.DNone? then NoItems else Item(Value(items.head), ValueItems(items.tail))
  }

  function ValueFields(fields: DFields): Fields {
    if fields.DEnd? then NoFields else Field(fields.key, Value(fields.value), ValueFields(fields.rest))
  }

  /** The layout is whitespace. */
  predicate Laid(d: Doc) {
    match d
    case DStr(_) => true
    case DArr(items, close) => LaidItems(items) && AllWhite(close)
    case DObj(fields, close) => LaidFields(fields) && AllWhite(close)
  }

  predicate LaidItems(items: DItems) {
    items.DNone? || (AllWhite(items.lead) && Laid(items.head) && LaidItems(items.tail))
  }

  predicate LaidFields(fields: DFields) {
    fields.DEnd? || (AllWhite(fields.lead) && Laid(fields.value) && LaidFields(fields.rest))
  }

  // ------------------------------------------------------------------ round trip

  lemma {:induction false} SkipWhite(ws: string, s: string)
    requires AllWhite(ws)
    ensures Skip(ws + s) == Skip(s)
  {
    if ws == "" {
      assert ws + s == s;
    } else {
      assert (ws + s)[1..] == ws[1..] + s;
      assert AllWhite(ws[1..]);
      SkipWhite(ws[1..], s);
    }
  }

  lemma {:induction false} StringParses(s: string, rest: string)
    requires AllPlain(s)
    ensures ParseString(s + "\"" + rest) == Some((s, rest))
  {
    var t := s + "\"" + rest;
    if s == "" {
      assert t[1..] == rest;
    } else {
      assert t[1..] == s[1..] + "\"" + rest;
      assert AllPlain(s[1..]);
      StringParses(s[1..], rest);
      assert [s[0]] + s[1..] == s;
    }
  }

  /** A spelled value starts with its own bracket, brace or quote. */
  lemma SpellStarts(d: Doc)
    ensures |Spell(d)| > 0
    ensures !White(Spell(d)[0]) && Spell(d)[0] != ']'
  {
  }

  /** Every spelled document parses back to its value, whatever follows it. */
  lemma {:induction false} ValueParses(lead: string, d: Doc, rest: string)
    requires AllWhite(lead) && Laid(d) && SafeValue(Value(d))
    ensures ParseValue(lead + Spell(d) + rest) == Some((Value(d), rest))
    decreases d, 1
  {
    var s, t := lead + Spell(d) + rest, Spell(d) + rest;
    SpellStarts(d);
    assert s == lead + t;
    SkipWhite(lead, t);
    assert Skip(s) == t;
    match d
    case DStr(x) =>
      assert t[1..] == x + "\"" + rest;
      StringParses(x, rest);
    case DArr(items, close) =>
      assert t[1..] == ArrayTail(items, close, rest);
      ArrayParses(items, close, rest);
    case DObj(fields, close) =>
      assert t[1..] == ObjectTail(fields, close, rest);
      ObjectParses(fields, close, rest);
  }

  /** What is left of an array after its opening bracket. */
  function ArrayTail(items: DItems, close: string, rest: string): string {
    SpellItems(items) + close + "]" + rest
  }

  function ObjectTail(fields: DFields, close: string, rest: string): string {
    SpellFields(fields) + close + "}" + rest
  }

  /** One step of the array parser: a value, then the end or a comma and more items. */
  lemma ItemsStep(s: string, v: Json, after: string, next: string, items: Items, rest: string)
    requires ParseValue(s) == Some((v, after))
    ensures Skip(after) == "]" + rest ==> ParseItems(s) == Some((Item(v, NoItems), rest))
    ensures Skip(after) == "," + next && ParseItems(next) == Some((items, rest)) ==> ParseItems(s) == Some((Item(v, items), rest))
  {
    assert ("]" + rest)[1..] == rest;
    assert ("," + next)[1..] == next;
  }

  lemma FieldsStep(s: string, key: string, body: string, v: Json, after: string, next: string, fields: Fields, rest: string)
    requires Skip(s) == "\"" + (key + "\"" + (":" + body)) && AllPlain(key)
    requires ParseValue(body) == Some((v, after))
    ensures Skip(after) == "}" + rest ==> ParseFields(s) == Some((Field(key, v, NoFields), rest))
    ensures Skip(after) == "," + next && ParseFields(next) == Some((fields, rest)) ==>
              ParseFields(s) == Some((Field(key, v, fields), rest))
  {
    var colon := ":" + body;
    assert Skip(s)[1..] == key + "\"" + colon;
    StringParses(key, colon);
    assert Skip(colon) == colon && colon[1..] == body;
    assert ("}" + rest)[1..] == rest;
    assert ("," + next)[1..] == next;
  }

  lemma ArrayTailSplits(items: DItems, close: string, rest: string, after: string)
    requires !items.DNone?
    requires after == if items.tail.DNone? then close + ("]" + rest) else "," + ArrayTail(items.tail, close, rest)
    ensures ArrayTail(items, close, rest) == items.lead + Spell(items.head) + after
    ensures ArrayTail(items, close, rest) == items.lead + (Spell(items.head) + after)
  {
    RegroupItem(items.lead, Spell(items.head), if items.tail.DNone? then "" else "," + SpellItems(items.tail), close, rest);
  }

  lemma EmptyTails(close: string, rest: string)
    ensures ArrayTail(DNone, close, rest) == close + ("]" + rest)
    ensures ObjectTail(DEnd, close, rest) == close + ("}" + rest)
  {
  }

  lemma RegroupItem(lead: string, v: string, more: string, close: string, rest: string)
    ensures (lead + v + more) + close + "]" + rest == lead + v + (more + close + "]" + rest) == lead + (v + (more + close + "]" + rest))
  {
  }

  lemma ObjectTailSplits(fields: DFields, close: string, rest: string, after: string)
    requires !fields.DEnd?
    requires after == if fields.rest.DEnd? then close + ("}" + rest) else "," + ObjectTail(fields.rest, close, rest)
    ensures ObjectTail(fields, close, rest) ==
            fields.lead + ("\"" + (fields.key + "\"" + (":" + (" " + Spell(fields.value) + after))))
  {
    RegroupField(fields.lead, fields.key, Spell(fields.value), if fields.rest.DEnd? then "" else "," + SpellFields(fields.rest), close, rest);
  }

  lemma RegroupField(lead: string, key: string, v: string, more: string, close: string, rest: string)
    ensures (lead + Quote(key) + ": " + v + more) + close + "}" + rest ==
            lead + ("\"" + (key + "\"" + (":" + (" " + v + (more + close + "}" + rest)))))
  {
  }

  lemma {:induction false} ArrayParses(items: DItems, close: string, rest: string)
    requires LaidItems(items) && AllWhite(close) && SafeItems(ValueItems(items))
    ensures items.DNone? ==> Skip(ArrayTail(items, close, rest)) == "]" + rest
    ensures !items.DNone? ==>
              |Skip(ArrayTail(items, close, rest))| > 0 && Skip(ArrayTail(items, close, rest))[0] != ']' &&
              ParseItems(ArrayTail(items, close, rest)) == Some((ValueItems(items), rest))
    decreases items, 0
  {
    hide ParseItems, ParseValue, ArrayTail, Spell;
    var t := ArrayTail(items, close, rest);
    SkipWhite(close, "]" + rest);
    if items.DNone? {
      EmptyTails(close, rest);
    } else {
      var next := ArrayTail(items.tail, close, rest);
      var after := if items.tail.DNone? then close + ("]" + rest) else "," + next;
      ArrayTailSplits(items, close, rest, after);
      ValueParses(items.lead, items.head, after);
      ItemsStep(t, Value(items.head), after, next, ValueItems(items.tail), rest);
      SkipWhite(items.lead, Spell(items.head) + after);
      SpellStarts(items.head);
      ArrayParses(items.tail, close, rest);
    }
  }

  lemma {:induction false} ObjectParses(fields: DFields, close: string, rest: string)
    requires LaidFields(fields) && AllWhite(close) && SafeFields(ValueFields(fields))
    ensures fields.DEnd? ==> Skip(ObjectTail(fields, close, rest)) == "}" + rest
    ensures !fields.DEnd? ==>
              |Skip(ObjectTail(fields, close, rest))| > 0 && Skip(ObjectTail(fields, close, rest))[0] == '"' &&
              ParseFields(ObjectTail(fields, close, rest)) == Some((ValueFields(fields), rest))
    decreases fields, 0
  {
    hide ParseFields, ParseValue, ObjectTail, Spell;
    var t := ObjectTail(fields, close, rest);
    SkipWhite(close, "}" + rest);
    if fields.DEnd? {
      EmptyTails(close, rest);
    } else {
      var next := ObjectTail(fields.rest, close, rest);
      var after := if fields.rest.DEnd? then close + ("}" + rest) else "," + next;
      var body := " " + Spell(fields.value) + after;
      ObjectTailSplits(fields, close, rest, after);
      SkipWhite(fields.lead, "\"" + (fields.key + "\"" + (":" + body)));
      ValueParses(" ", fields.value, after);
      FieldsStep(t, fields.key, body, Value(fields.value), after, next, ValueFields(fields.rest), rest);
      ObjectParses(fields.rest, close, rest);
    }
  }

  /**
   The spelled document is a JSON text with the value it was built for exactly when
   no string in it needs escaping.
   */
  lemma TextParses(d: Doc)
    requires Laid(d)
    ensures ParseText(Spell(d)) == Some(Value(d)) <==> SafeValue(Value(d))
  {
    if SafeValue(Value(d)) {
      ValueParses("", d, "");
      assert "" + Spell(d) + "" == Spell(d);
    }
  }
}
