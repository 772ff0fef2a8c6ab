/**
 The printer, lexer and parser of pkg/jsonutils/jsonutils.go as the loops they are, each
 proved to compute the function of `Jsons` that the round-trip results speak about, and
 the OrderedMap that the parser fills.
 */
module JsonLoops {
  import opened Wrappers
  import opened Seqs
  import opened Jsons

  // ---------- OrderedMap ----------

  /** OrderedMap.SetAfter on the list of fields. */
  function SetFieldAfter<N>(fields: seq<Field<N>>, key: string, value: Json<N>, before: string): seq<Field<N>> {
    var i, at := IndexOf(fields, key), IndexOf(fields, before);
    if i < |fields| then fields[i := Field(key, value)]
    else if at < |fields| then fields[..at + 1] + [Field(key, value)] + fields[at + 1..]
    else fields + [Field(key, value)]
  }

  ghost predicate ValidKeys<N>(keys: seq<string>, vals: map<string, Json<N>>) {
    && Distinct(keys)
    && (forall k :: k in vals <==> k in keys)
  }

  ghost function FieldsOf<N>(keys: seq<string>, vals: map<string, Json<N>>): seq<Field<N>>
    requires ValidKeys(keys, vals)
  {
    seq(|keys|, i requires 0 <= i < |keys| && keys[i] in vals => Field(keys[i], vals[keys[i]]))
  }

  ghost function Insert<T>(s: seq<T>, idx: nat, x: T): (r: seq<T>)
    requires idx <= |s|
    ensures |r| == |s| + 1
    ensures forall i :: 0 <= i < |r| ==> r[i] == if i < idx then s[i] else if i == idx then x else s[i - 1]
  {
    s[..idx] + [x] + s[idx..]
  }

  ghost predicate Distinct<T>(s: seq<T>) { forall i, j :: 0 <= i < j < |s| ==> s[i] != s[j] }

  lemma InsertMembers<T>(s: seq<T>, idx: nat, x: T, y: T)
    requires idx <= |s|
    ensures y in Insert(s, idx, x) <==> y in s || y == x
  {
    var r := Insert(s, idx, x);
    if y in s {
      var i :| 0 <= i < |s| && s[i] == y;
      assert r[if i < idx then i else i + 1] == y;
    }
    assert r[idx] == x;
  }

  lemma InsertDistinct<T>(s: seq<T>, idx: nat, x: T)
    requires idx <= |s| && Distinct(s) && x !in s
    ensures Distinct(Insert(s, idx, x))
  {}

  lemma InsertedValid<N>(keys: seq<string>, vals: map<string, Json<N>>, idx: nat, k: string, v: Json<N>)
    requires ValidKeys(keys, vals) && idx <= |keys| && k !in vals
    ensures ValidKeys(Insert(keys, idx, k), vals[k := v])
  {
    InsertDistinct(keys, idx, k);
    forall x ensures x in vals[k := v] <==> x in Insert(keys, idx, k) { InsertMembers(keys, idx, k, x); }
  }

  lemma InsertedKeys<N>(keys: seq<string>, vals: map<string, Json<N>>, idx: nat, k: string, v: Json<N>)
    requires ValidKeys(keys, vals) && idx <= |keys| && k !in vals
    ensures ValidKeys(Insert(keys, idx, k), vals[k := v])
    ensures FieldsOf(Insert(keys, idx, k), vals[k := v]) == Insert(FieldsOf(keys, vals), idx, Field(k, v))
  {
    InsertedValid(keys, vals, idx, k, v);
    var keys' := Insert(keys, idx, k);
    var fs, fs' := FieldsOf(keys, vals), FieldsOf(keys', vals[k := v]);
    forall i | 0 <= i < |keys'| ensures fs'[i] == Insert(fs, idx, Field(k, v))[i] {}
  }

  class OrderedMap<N(==)> {
    var keys: seq<string>
    var keyVals: map<string, Json<N>>

    ghost predicate Valid()
      reads this
    {
      ValidKeys(keys, keyVals)
    }

    ghost function Fields(): seq<Field<N>>
      reads this
      requires Valid()
    {
      FieldsOf(keys, keyVals)
    }

    constructor ()
      ensures Valid() && Fields() == []
    {
      keys, keyVals := [], map[];
    }

    method Get(k: string) returns (r: Option<Json<N>>)
      requires Valid()
      ensures var i := IndexOf(Fields(), k); r == if i < |Fields()| then Some(Fields()[i].value) else None
    {
      KeyPresent(k);
      if k in keyVals { return Some(keyVals[k]); }
      r := None;
    }

    lemma KeyPresent(k: string)
      requires Valid()
      ensures k in keyVals <==> IndexOf(Fields(), k) < |Fields()|
    {
      if k in keyVals {
        var i :| 0 <= i < |keys| && keys[i] == k;
        assert Fields()[i].key == k;
      }
    }

    method Set(k: string, v: Json<N>)
      requires Valid()
      modifies this
      ensures Valid() && Fields() == SetField(old(Fields()), k, v)
      ensures DistinctKeys(Fields())
    {
      KeyPresent(k);
      if k !in keyVals {
        keys := keys + [k];
      }
      keyVals := keyVals[k := v];
    }

    /** The position right after `kbefore`, or -1. */
    method FindAfter(kbefore: string) returns (idx: int)
      requires Valid()
      ensures var at := IndexOf(Fields(), kbefore); idx == if at < |keys| then at + 1 else -1
    {
      ghost var at := IndexOf(Fields(), kbefore);
      assert forall j :: 0 <= j < |keys| ==> Fields()[j].key == keys[j];
      for i := 0 to |keys|
        invariant i <= at
      {
        if keys[i] == kbefore { return i + 1; }
      }
      idx := -1;
    }

    method SetAfter(k: string, v: Json<N>, kbefore: string)
      requires Valid()
      modifies this
      ensures Valid() && Fields() == SetFieldAfter(old(Fields()), k, v, kbefore)
      ensures DistinctKeys(Fields())
    {
      KeyPresent(k);
      if k in keyVals {
        keyVals := keyVals[k := v];
        return;
      }
      var idx := FindAfter(kbefore);
      InsertKey(if idx == -1 || idx > |keys| - 1 then |keys| else idx, k, v);
    }

    method InsertKey(idx: nat, k: string, v: Json<N>)
      requires Valid() && idx <= |keys| && k !in keyVals
      modifies this
      ensures Valid() && Fields() == Insert(old(Fields()), idx, Field(k, v))
    {
      if idx == |keys| {
        keys := keys + [k];
      } else {
        keys := keys[..idx + 1] + keys[idx..];
        keys := keys[idx := k];
      }
      assert keys == Insert(old(keys), idx, k);
      InsertedKeys(old(keys), keyVals, idx, k, v);
      keyVals := keyVals[k := v];
    }
  }

  // ---------- printer ----------

  /** Escapes one character onto the builder. */
  method WriteEscaped(bld: string, c: char) returns (r: string)
    ensures r == bld + EscapeChar(c)
  {
    if c == QUOTE { r := bld + [BACKSLASH, QUOTE]; }
    else if c == BACKSLASH { r := bld + [BACKSLASH, BACKSLASH]; }
    else if c == BACKSPACE { r := bld + [BACKSLASH, 'b']; }
    else if c == FORMFEED { r := bld + [BACKSLASH, 'f']; }
    else if c == '\n' { r := bld + [BACKSLASH, 'n']; }
    else if c == '\r' { r := bld + [BACKSLASH, 'r']; }
    else if c == '\t' { r := bld + [BACKSLASH, 't']; }
    else { r := bld + [c]; }
  }

  method EncodeString(bld: string, s: string) returns (r: string)
    ensures r == bld + ([QUOTE] + Escape(s) + [QUOTE])
  {
    r := bld + [QUOTE];
    ghost var goal := r + Escape(s);
    assert s[0..] == s;
    for i := 0 to |s|
      invariant r + Escape(s[i..]) == goal
    {
      EscapeNext(s, i);
      Assoc(r, EscapeChar(s[i]), Escape(s[i + 1..]));
      r := WriteEscaped(r, s[i]);
    }
    assert s[|s|..] == "" && r + "" == r;
    r := r + [QUOTE];
    Assoc4(bld, [QUOTE], Escape(s), [QUOTE]);
  }

  lemma EscapeNext(s: string, i: nat)
    requires i < |s|
    ensures Escape(s[i..]) == EscapeChar(s[i]) + Escape(s[i + 1..])
  {
    assert s[i..][0] == s[i] && s[i..][1..] == s[i + 1..];
  }

  lemma Wrapped<T>(bld: seq<T>, open: seq<T>, eol: seq<T>, body: seq<T>, closing: seq<T>, close: seq<T>)
    ensures bld + open + eol + body + closing + close == bld + (open + (eol + body + closing + close))
  {
  }

  lemma Item<T>(r: seq<T>, curr: seq<T>, v: seq<T>, sep: seq<T>, eol: seq<T>, rest: seq<T>)
    ensures r + (curr + v + sep + eol + rest) == r + curr + v + sep + eol + rest
  {
  }

  method MarshalLoop<N>(v: Json<N>, bld: string, nums: Numbers<N>, st: Style) returns (r: string)
    ensures r == bld + Print(v, nums, st)
    decreases v, 1
  {
    match v {
      case Null => r := bld + "null";
      case Bool(b) => r := bld + if b then "true" else "false";
      case Num(n) => r := bld + nums.format(n);
      case Str(s) => r := EncodeString(bld, s);
      case Arr(items) =>
        var inner := Inner(v, st);
        r := MarshalItems(items, bld + "[" + inner.eol, nums, inner);
        ghost var body := PrintItems(items, nums, inner);
        r := r + Closing(v, st) + "]";
        Wrapped(bld, "[", inner.eol, body, Closing(v, st), "]");
      case Obj(fields) =>
        var inner := Inner(v, st);
        r := MarshalFields(fields, bld + "{" + inner.eol, nums, inner);
        ghost var body := PrintFields(fields, nums, inner);
        r := r + Closing(v, st) + "}";
        Wrapped(bld, "{", inner.eol, body, Closing(v, st), "}");
    }
  }

  method MarshalItems<N>(items: seq<Json<N>>, bld: string, nums: Numbers<N>, st: Style) returns (r: string)
    ensures r == bld + PrintItems(items, nums, st)
    decreases items, 0
  {
    r := bld;
    ghost var goal := bld + PrintItems(items, nums, st);
    assert items[0..] == items;
    for idx := 0 to |items|
      invariant r + PrintItems(items[idx..], nums, st) == goal
    {
      PrintNext(items, idx, nums, st);
      Item(r, st.curr, Print(items[idx], nums, st), Separator(idx != |items| - 1), st.eol,
           PrintItems(items[idx + 1..], nums, st));
      r := r + st.curr;
      r := MarshalLoop(items[idx], r, nums, st);
      if idx != |items| - 1 { r := r + ","; } else { assert r + "" == r; }
      r := r + st.eol;
    }
    assert items[|items|..] == [] && r + "" == r;
  }

  lemma PrintNext<N>(items: seq<Json<N>>, i: nat, nums: Numbers<N>, st: Style)
    requires i < |items|
    ensures PrintItems(items[i..], nums, st) ==
              st.curr + Print(items[i], nums, st) + Separator(i != |items| - 1) + st.eol + PrintItems(items[i + 1..],
                                                                                                      nums, st)
  {
    assert items[i..][0] == items[i] && items[i..][1..] == items[i + 1..];
  }

  method MarshalField<N>(f: Field<N>, bld: string, more: bool, nums: Numbers<N>, st: Style) returns (r: string)
    ensures r == bld + (st.curr + ([QUOTE] + f.key + [QUOTE] + ":" + st.colon + Print(f.value, nums, st))
                          + Separator(more) + st.eol)
    decreases f, 0
  {
    r := bld + st.curr + ([QUOTE] + f.key + [QUOTE] + ":" + st.colon);
    r := MarshalLoop(f.value, r, nums, st);
    if more { r := r + ","; }
    r := r + st.eol;
    ghost var key, val, sep := [QUOTE] + f.key + [QUOTE] + ":" + st.colon, Print(f.value, nums, st), Separator(more);
    assert r == bld + st.curr + key + val + sep + st.eol;
    assert bld + st.curr + key + val + sep + st.eol == bld + (st.curr + (key + val) + sep + st.eol);
  }

  method MarshalFields<N>(fields: seq<Field<N>>, bld: string, nums: Numbers<N>, st: Style) returns (r: string)
    ensures r == bld + PrintFields(fields, nums, st)
    decreases fields, 1
  {
    r := bld;
    for idx := 0 to |fields|
      invariant r + PrintFields(fields[idx..], nums, st) == bld + PrintFields(fields, nums, st)
    {
      ghost var f, r0, rest := fields[idx], r, PrintFields(fields[idx + 1..], nums, st);
      assert fields[idx..][0] == f && fields[idx..][1..] == fields[idx + 1..];
      r := MarshalField(fields[idx], r, idx != |fields| - 1, nums, st);
      ghost var el := st.curr + ([QUOTE] + f.key + [QUOTE] + ":" + st.colon + Print(f.value, nums, st))
                      + Separator(idx != |fields| - 1) + st.eol;
      Assoc(r0, el, rest);
    }
    assert fields[|fields|..] == [] && r + "" == r;
  }

  // ---------- lexer ----------

  method SkipSpaceLoop(b: string) returns (r: string)
    ensures r == SkipSpace(b)
  {
    for i := 0 to |b|
      invariant SkipSpace(b) == SkipSpace(b[i..])
    {
      if !IsSpace(b[i]) { return b[i..]; }
      assert b[i..][1..] == b[i + 1..];
    }
    r := b[|b|..];
  }

  method SkipNumberLoop(b: string) returns (r: string)
    ensures r == SkipNumber(b)
  {
    for i := 0 to |b|
      invariant SkipNumber(b) == SkipNumber(b[i..])
    {
      if !IsNumber(b[i]) { return b[i..]; }
      assert b[i..][1..] == b[i + 1..];
    }
    r := b[|b|..];
  }

  /** The string-literal loop of nextToken: `i` starts after the opening quote. */
  method LexStringLoop<N>(b: string) returns (r: Lexed<N>)
    requires b != ""
    ensures r == LexString(b[1..], "")
  {
    var bld := "";
    var i := 1;
    while i < |b|
      invariant 1 <= i <= |b|
      invariant LexString<N>(b[1..], "") == LexString(b[i..], bld)
    {
      var rest := b[i..];
      assert rest[0] == b[i] && rest[1..] == b[i + 1..];
      if b[i] == QUOTE {
        return Lexed(b[i + 1..], StrTok(bld));
      } else if b[i] == BACKSLASH {
        if i == |b| - 1 { return LexError; }
        assert rest[1] == b[i + 1] && rest[2..] == b[i + 2..];
        if b[i + 1] == 'u' { return LexError; }
        var c := Unescape(b[i + 1]);
        if c.Some? {
          bld := bld + [c.value];
          i := i + 1;
        }
      } else {
        bld := bld + [b[i]];
      }
      i := i + 1;
    }
    r := NoToken;
  }

  method NextTokenLoop<N>(text: string, nums: Numbers<N>) returns (r: Lexed<N>)
    ensures r == NextToken(text, nums)
  {
    var b := SkipSpaceLoop(text);
    if b == "" { return LexPanic; }
    if IsNumber(b[0]) {
      var bSkip := SkipNumberLoop(b);
      var num := nums.parse(b[..|b| - |bSkip|]);
      if num.None? { return LexError; }
      return Lexed(bSkip, NumTok(num.value));
    }
    match b[0] {
      case '{' => r := Lexed(b[1..], ObjectStart);
      case '}' => r := Lexed(b[1..], ObjectEnd);
      case '[' => r := Lexed(b[1..], ArrayStart);
      case ']' => r := Lexed(b[1..], ArrayEnd);
      case ',' => r := Lexed(b[1..], Comma);
      case ':' => r := Lexed(b[1..], Colon);
      case '\"' => r := LexStringLoop(b);
      case 't' => r := LexWord(b, "true", BoolTok(true), nums);
      case 'f' => r := LexWord(b, "false", BoolTok(false), nums);
      case 'n' => r := LexWord(b, "null", NullTok, nums);
      case _ => r := NoToken;
    }
  }

  // ---------- parser ----------

  method ParseLoop<N>(b: string, nums: Numbers<N>) returns (r: Parsed<N>)
    ensures r == Parse(b, nums)
    decreases |b|, 0
  {
    var t := NextTokenLoop(b, nums);
    match t {
      case NoToken => r := ParseError;
      case LexError => r := ParseError;
      case LexPanic => r := ParsePanic;
      case Lexed(rest, tok) =>
        match tok {
          case ObjectStart => r := ParseObjectLoop(rest, nums);
          case ArrayStart => r := ParseArrayLoop(rest, nums);
          case StrTok(s) => r := Parsed(rest, Str(s));
          case NumTok(n) => r := Parsed(rest, Num(n));
          case BoolTok(v) => r := Parsed(rest, Bool(v));
          case NullTok => r := Parsed(rest, Null);
          case _ => r := ParseError;
        }
    }
  }

  method ParseArrayLoop<N>(text: string, nums: Numbers<N>) returns (r: Parsed<N>)
    ensures r == ParseArray(text, [], nums)
    decreases |text|, 1
  {
    var b := text;
    var arr: seq<Json<N>> := [];
    while true
      invariant |b| <= |text|
      invariant ParseArray(text, [], nums) == ParseArray(b, arr, nums)
      decreases |b|
    {
      var tok := NextTokenLoop(b, nums);
      if tok.NoToken? { return ParsePanic; }
      if !tok.Lexed? { return Failure(tok); }
      ghost var b0 := b;
      if !tok.tok.ArrayEnd? {
        var v := ParseLoop(b, nums);
        if !v.Parsed? { return v; }
        b := v.rest;
        arr := arr + [v.value];
      }
      assert ParseArray(text, [], nums) == ArrayTail(b, arr, nums);
      var commaOrEnd := NextTokenLoop(b, nums);
      if !commaOrEnd.Lexed? { return Failure(commaOrEnd); }
      b := commaOrEnd.rest;
      if commaOrEnd.tok.ArrayEnd? { return Parsed(b, Arr(arr)); }
      if !commaOrEnd.tok.Comma? { return ParseError; }
    }
  }

  method ParseObjectLoop<N>(text: string, nums: Numbers<N>) returns (r: Parsed<N>)
    ensures r == ParseObject(text, [], nums)
    decreases |text|, 1
  {
    var b := text;
    var obj: seq<Field<N>> := [];
    while true
      invariant |b| <= |text|
      invariant ParseObject(text, [], nums) == ParseObject(b, obj, nums)
      decreases |b|
    {
      var tok := NextTokenLoop(b, nums);
      if tok.NoToken? { return ParsePanic; }
      if !tok.Lexed? { return Failure(tok); }
      if !tok.tok.ObjectEnd? {
        if !tok.tok.StrTok? || tok.tok.s == "" { return ParseError; }
        var colon := NextTokenLoop(tok.rest, nums);
        if !colon.Lexed? { return Failure(colon); }
        if !colon.tok.Colon? { return ParseError; }
        var v := ParseLoop(colon.rest, nums);
        if !v.Parsed? { return v; }
        b := v.rest;
        obj := SetField(obj, tok.tok.s, v.value);
      }
      assert ParseObject(text, [], nums) == ObjectTail(b, obj, nums);
      var commaOrEnd := NextTokenLoop(b, nums);
      if !commaOrEnd.Lexed? { return Failure(commaOrEnd); }
      b := commaOrEnd.rest;
      if commaOrEnd.tok.ObjectEnd? { return Parsed(b, Obj(obj)); }
      if !commaOrEnd.tok.Comma? { return ParseError; }
    }
  }
}
