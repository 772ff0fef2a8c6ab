/**
 Exactly which values survive printing and parsing. Keys are printed unescaped, so text can
 be read back as something else; but the quotes of a text pay for the strings read from it,
 two for each string and one for each quote in it, and a printed value has exactly the
 quotes its strings need. Nothing is left for a string too many, so keys cannot be repeated
 and overwritten, and the first key that is not read as itself is missed: `RoundTripExact`.
 */
module JsonExact {
  import opened Jsons
  import opened JsonProofs

  // ---------- counting quotes ----------

  function Quotes(s: string): nat {
    if s == "" then 0 else (if s[0] == QUOTE then 1 else 0) + Quotes(s[1..])
  }

  lemma {:induction false} QuotesCat(a: string, b: string)
    ensures Quotes(a + b) == Quotes(a) + Quotes(b)
    decreases |a|
  {
    if a == "" {
      assert a + b == b;
    } else {
      assert (a + b)[1..] == a[1..] + b;
      QuotesCat(a[1..], b);
    }
  }

  lemma {:induction false} NoQuotes(s: string)
    requires forall i :: 0 <= i < |s| ==> s[i] != QUOTE
    ensures Quotes(s) == 0
  {
    if s != "" { NoQuotes(s[1..]); }
  }

  /** The quotes that the strings of a value need. */
  function Worth<N>(v: Json<N>): nat
    decreases v, 1
  {
    match v
    case Str(s) => 2 + Quotes(s)
    case Arr(items) => WorthItems(items)
    case Obj(fields) => WorthFields(fields)
    case _ => 0
  }

  function WorthItems<N>(items: seq<Json<N>>): nat
    decreases items, 0
  {
    if items == [] then 0 else Worth(items[0]) + WorthItems(items[1..])
  }

  function WorthFields<N>(fields: seq<Field<N>>): nat
    decreases fields, 0
  {
    if fields == [] then 0 else 2 + Quotes(fields[0].key) + Worth(fields[0].value) + WorthFields(fields[1..])
  }

  lemma {:induction false} ItemsCat<N>(a: seq<Json<N>>, b: seq<Json<N>>)
    ensures WorthItems(a + b) == WorthItems(a) + WorthItems(b)
    decreases |a|
  {
    if a == [] {
      assert a + b == b;
    } else {
      assert (a + b)[1..] == a[1..] + b;
      ItemsCat(a[1..], b);
    }
  }

  lemma {:induction false} FieldsCat<N>(a: seq<Field<N>>, b: seq<Field<N>>)
    ensures WorthFields(a + b) == WorthFields(a) + WorthFields(b)
    decreases |a|
  {
    if a == [] {
      assert a + b == b;
    } else {
      assert (a + b)[1..] == a[1..] + b;
      FieldsCat(a[1..], b);
    }
  }

  lemma OneField<N>(f: Field<N>)
    ensures WorthFields([f]) == 2 + Quotes(f.key) + Worth(f.value)
  {
    assert [f][1..] == [];
  }

  lemma OneItem<N>(v: Json<N>)
    ensures WorthItems([v]) == Worth(v)
  {
    assert [v][1..] == [];
  }

  lemma {:induction false} ReplaceWorth<N>(fields: seq<Field<N>>, i: nat, f: Field<N>)
    requires i < |fields| && fields[i].key == f.key
    ensures WorthFields(fields[i := f]) <= WorthFields(fields) + Worth(f.value)
    decreases i
  {
    if i == 0 {
      assert fields[0 := f][1..] == fields[1..];
    } else {
      assert fields[i := f][1..] == fields[1..][i - 1 := f];
      ReplaceWorth(fields[1..], i - 1, f);
    }
  }

  /** A new key adds its worth; a repeated one only that of the value, at most. */
  lemma SetWorth<N>(acc: seq<Field<N>>, key: string, value: Json<N>)
    ensures if IndexOf(acc, key) < |acc| then WorthFields(SetField(acc, key, value)) <= WorthFields(acc) + Worth(value)
            else SetField(acc, key, value) == acc + [Field(key, value)]
                 && WorthFields(SetField(acc, key, value)) == WorthFields(acc) + 2 + Quotes(key) + Worth(value)
  {
    var i, f := IndexOf(acc, key), Field(key, value);
    if i < |acc| {
      ReplaceWorth(acc, i, f);
    } else {
      OneField(f);
      FieldsCat(acc, [f]);
    }
  }

  // ---------- what reading costs ----------

  lemma {:induction false} SkipSpaceQuotes(b: string)
    ensures Quotes(SkipSpace(b)) == Quotes(b)
  {
    if b != "" && IsSpace(b[0]) { SkipSpaceQuotes(b[1..]); }
  }

  lemma {:induction false} SkipNumberQuotes(b: string)
    ensures Quotes(SkipNumber(b)) == Quotes(b)
  {
    if b != "" && IsNumber(b[0]) { SkipNumberQuotes(b[1..]); }
  }

  lemma {:induction false} StringCosts<N>(b: string, acc: string)
    ensures var r := LexString<N>(b, acc);
            r.Lexed? ==> r.tok.StrTok? && Quotes(b) + Quotes(acc) == Quotes(r.rest) + 1 + Quotes(r.tok.s)
    decreases |b|
  {
    if b != "" && b[0] != QUOTE {
      if b[0] != BACKSLASH {
        QuotesCat(acc, [b[0]]);
        StringCosts<N>(b[1..], acc + [b[0]]);
      } else if |b| > 1 {
        if Unescape(b[1]).Some? {
          assert b[1..][1..] == b[2..];
          QuotesCat(acc, [Unescape(b[1]).value]);
          StringCosts<N>(b[2..], acc + [Unescape(b[1]).value]);
        } else if b[1] != 'u' {
          StringCosts<N>(b[1..], acc);
        }
      }
    }
  }

  lemma WordCosts<N>(b: string, word: string, tok: Token<N>, nums: Numbers<N>)
    requires 0 < |word| && forall i :: 0 <= i < |word| ==> word[i] != QUOTE
    ensures var r := LexWord(b, word, tok, nums); r.Lexed? ==> Quotes(b) == Quotes(r.rest) && r.tok == tok
  {
    if |b| >= |word| && b[..|word|] == word {
      assert b == word + b[|word|..];
      QuotesCat(word, b[|word|..]);
      NoQuotes(word);
    }
  }

  function TokenWorth<N>(t: Token<N>): nat { if t.StrTok? then 2 + Quotes(t.s) else 0 }

  lemma WordsCost<N>(b: string, nums: Numbers<N>)
    requires b != "" && (b[0] == 't' || b[0] == 'f' || b[0] == 'n')
    ensures var r := if b[0] == 't' then LexWord(b, "true", BoolTok(true), nums)
                     else if b[0] == 'f' then LexWord(b, "false", BoolTok(false), nums)
                     else LexWord(b, "null", NullTok, nums);
            r.Lexed? ==> Quotes(b) == Quotes(r.rest) && !r.tok.StrTok?
  {
    if b[0] == 't' {
      WordCosts(b, "true", BoolTok(true), nums);
    } else if b[0] == 'f' {
      WordCosts(b, "false", BoolTok(false), nums);
    } else {
      WordCosts(b, "null", NullTok, nums);
    }
  }

  lemma TokenCosts<N>(b: string, nums: Numbers<N>)
    ensures var r := NextToken(b, nums); r.Lexed? ==> Quotes(b) == Quotes(r.rest) + TokenWorth(r.tok)
  {
    SkipSpaceQuotes(b);
    var s := SkipSpace(b);
    if s != "" {
      if IsNumber(s[0]) {
        SkipNumberQuotes(s[1..]);
      } else if s[0] == QUOTE {
        StringCosts<N>(s[1..], "");
      } else if s[0] == 't' || s[0] == 'f' || s[0] == 'n' {
        WordsCost(s, nums);
      }
    }
  }

  lemma {:induction false} ParseCosts<N>(b: string, nums: Numbers<N>)
    ensures var r := Parse(b, nums); r.Parsed? ==> Quotes(b) >= Quotes(r.rest) + Worth(r.value)
    decreases |b|, 0
  {
    TokenCosts(b, nums);
    var t := NextToken(b, nums);
    if t.Lexed? && t.tok.ObjectStart? {
      ObjectCosts(t.rest, [], nums);
    } else if t.Lexed? && t.tok.ArrayStart? {
      ArrayCosts(t.rest, [], nums);
    }
  }

  /** Array elements stay, and are paid for. */
  ghost predicate ItemsPaid<N>(b: string, acc: seq<Json<N>>, r: Parsed<N>) {
    r.Parsed? ==> && r.value.Arr? && acc <= r.value.items
                  && Quotes(b) + WorthItems(acc) >= Quotes(r.rest) + WorthItems(r.value.items)
  }

  lemma {:induction false} ArrayCosts<N>(b: string, acc: seq<Json<N>>, nums: Numbers<N>)
    ensures ItemsPaid(b, acc, ParseArray(b, acc, nums))
    decreases |b|, 2
  {
    var peek := NextToken(b, nums);
    if peek.Lexed? {
      if peek.tok.ArrayEnd? {
        ArrayTailCosts(b, acc, nums);
      } else {
        ParseCosts(b, nums);
        var v := Parse(b, nums);
        if v.Parsed? {
          ArrayTailCosts(v.rest, acc + [v.value], nums);
          ItemsCat(acc, [v.value]);
          OneItem(v.value);
        }
      }
    }
  }

  lemma {:induction false} ArrayTailCosts<N>(b: string, acc: seq<Json<N>>, nums: Numbers<N>)
    ensures ItemsPaid(b, acc, ArrayTail(b, acc, nums))
    decreases |b|, 1
  {
    TokenCosts(b, nums);
    var t := NextToken(b, nums);
    if t.Lexed? && t.tok.Comma? { ArrayCosts(t.rest, acc, nums); }
  }

  /** Fields are paid for, and either they stay or a key that was read is missing. */
  ghost predicate FieldsPaid<N>(b: string, acc: seq<Field<N>>, r: Parsed<N>) {
    r.Parsed? ==>
      && r.value.Obj?
      && Quotes(b) + WorthFields(acc) >= Quotes(r.rest) + WorthFields(r.value.fields)
                                         + if acc <= r.value.fields then 0 else 2
  }

  lemma {:induction false} ObjectCosts<N>(b: string, acc: seq<Field<N>>, nums: Numbers<N>)
    ensures FieldsPaid(b, acc, ParseObject(b, acc, nums))
    decreases |b|, 2
  {
    TokenCosts(b, nums);
    var peek := NextToken(b, nums);
    if peek.Lexed? {
      if peek.tok.ObjectEnd? {
        ObjectTailCosts(b, acc, nums);
      } else if peek.tok.StrTok? && peek.tok.s != "" {
        TokenCosts(peek.rest, nums);
        var colon := NextToken(peek.rest, nums);
        if colon.Lexed? && colon.tok.Colon? {
          ParseCosts(colon.rest, nums);
          var v := Parse(colon.rest, nums);
          if v.Parsed? {
            SetWorth(acc, peek.tok.s, v.value);
            ObjectTailCosts(v.rest, SetField(acc, peek.tok.s, v.value), nums);
          }
        }
      }
    }
  }

  lemma {:induction false} ObjectTailCosts<N>(b: string, acc: seq<Field<N>>, nums: Numbers<N>)
    ensures FieldsPaid(b, acc, ObjectTail(b, acc, nums))
    decreases |b|, 1
  {
    TokenCosts(b, nums);
    var t := NextToken(b, nums);
    if t.Lexed? && t.tok.Comma? { ObjectCosts(t.rest, acc, nums); }
  }

  // ---------- what printing provides ----------

  /** Numbers survive, and no object repeats a key. */
  ghost predicate Sound<N>(v: Json<N>, nums: Numbers<N>) {
    match v
    case Num(n) => GoodNumber(n, nums)
    case Arr(items) => forall i :: 0 <= i < |items| ==> Sound(items[i], nums)
    case Obj(fields) => DistinctKeys(fields) && forall i :: 0 <= i < |fields| ==> Sound(fields[i].value, nums)
    case _ => true
  }

  lemma {:induction false} EscapeQuotes(s: string)
    ensures Quotes(Escape(s)) == Quotes(s)
  {
    if s != "" {
      QuotesCat(EscapeChar(s[0]), Escape(s[1..]));
      CharQuotes(s[0]);
      EscapeQuotes(s[1..]);
    }
  }

  lemma CharQuotes(c: char)
    ensures Quotes(EscapeChar(c)) == if c == QUOTE then 1 else 0
  {
    var e := EscapeChar(c);
    assert Quotes(e) == (if e[0] == QUOTE then 1 else 0) + Quotes(e[1..]);
    if |e| == 2 {
      assert e[1..] == [e[1]] && [e[1]][1..] == "";
    } else {
      assert e[1..] == "";
    }
  }

  lemma {:induction false} PrintQuotes<N>(v: Json<N>, nums: Numbers<N>, st: Style)
    requires Sound(v, nums) && BlankStyle(st)
    ensures Quotes(Print(v, nums, st)) == Worth(v)
    decreases v, 1
  {
    InnerBlank(v, st);
    match v
    case Num(n) => NoQuotes(nums.format(n));
    case Str(s) =>
      EscapeQuotes(s);
      QuotesCat([QUOTE] + Escape(s), [QUOTE]);
      QuotesCat([QUOTE], Escape(s));
      assert Quotes([QUOTE]) == 1 by { assert [QUOTE][1..] == ""; }
    case Arr(items) =>
      ItemsQuotes(items, nums, Inner(v, st));
      BracketQuotes("[", Inner(v, st).eol, PrintItems(items, nums, Inner(v, st)), Closing(v, st), "]");
    case Obj(fields) =>
      FieldsQuotes(fields, nums, Inner(v, st));
      BracketQuotes("{", Inner(v, st).eol, PrintFields(fields, nums, Inner(v, st)), Closing(v, st), "}");
    case Null => NoQuotes("null");
    case Bool(b) =>
      NoQuotes("true");
      NoQuotes("false");
  }

  lemma BracketQuotes(open: string, eol: string, body: string, closing: string, close: string)
    requires AllSpace(eol) && AllSpace(closing) && (open == "[" || open == "{") && (close == "]" || close == "}")
    ensures Quotes(open + (eol + body + closing + close)) == Quotes(body)
  {
    QuotesCat(open, eol + body + closing + close);
    QuotesCat(eol + body + closing, close);
    QuotesCat(eol + body, closing);
    QuotesCat(eol, body);
    NoQuotes(open);
    NoQuotes(eol);
    NoQuotes(closing);
    NoQuotes(close);
  }

  lemma ElementQuotes(curr: string, body: string, more: bool, eol: string, next: string)
    requires AllSpace(curr) && AllSpace(eol)
    ensures Quotes(curr + body + Separator(more) + eol + next) == Quotes(body) + Quotes(next)
  {
    QuotesCat(curr + body + Separator(more) + eol, next);
    QuotesCat(curr + body + Separator(more), eol);
    QuotesCat(curr + body, Separator(more));
    QuotesCat(curr, body);
    NoQuotes(curr);
    NoQuotes(eol);
    NoQuotes(Separator(more));
  }

  lemma {:induction false} ItemsQuotes<N>(items: seq<Json<N>>, nums: Numbers<N>, st: Style)
    requires BlankStyle(st) && forall i :: 0 <= i < |items| ==> Sound(items[i], nums)
    ensures Quotes(PrintItems(items, nums, st)) == WorthItems(items)
    decreases items, 0
  {
    if items != [] {
      PrintQuotes(items[0], nums, st);
      ItemsQuotes(items[1..], nums, st);
      ElementQuotes(st.curr, Print(items[0], nums, st), |items| > 1, st.eol, PrintItems(items[1..], nums, st));
    }
  }

  lemma {:induction false} FieldsQuotes<N>(fields: seq<Field<N>>, nums: Numbers<N>, st: Style)
    requires BlankStyle(st) && forall i :: 0 <= i < |fields| ==> Sound(fields[i].value, nums)
    ensures Quotes(PrintFields(fields, nums, st)) == WorthFields(fields)
    decreases fields, 0
  {
    if fields != [] {
      PrintQuotes(fields[0].value, nums, st);
      FieldsQuotes(fields[1..], nums, st);
      KeyQuotes(fields[0].key, st.colon, Print(fields[0].value, nums, st));
      ElementQuotes(st.curr, [QUOTE] + fields[0].key + [QUOTE] + ":" + st.colon + Print(fields[0].value, nums, st),
                    |fields| > 1, st.eol, PrintFields(fields[1..], nums, st));
    }
  }

  lemma KeyQuotes(key: string, colon: string, value: string)
    requires AllSpace(colon)
    ensures Quotes([QUOTE] + key + [QUOTE] + ":" + colon + value) == 2 + Quotes(key) + Quotes(value)
  {
    QuotesCat([QUOTE] + key + [QUOTE] + ":" + colon, value);
    QuotesCat([QUOTE] + key + [QUOTE] + ":", colon);
    QuotesCat([QUOTE] + key + [QUOTE], ":");
    QuotesCat([QUOTE] + key, [QUOTE]);
    QuotesCat([QUOTE], key);
    NoQuotes(colon);
    NoQuotes(":");
    assert Quotes([QUOTE]) == 1 by { assert [QUOTE][1..] == ""; }
  }

  // ---------- what comes back is well formed ----------

  /** If the printed value is read back from text that loses no more quotes than the value
      needs, its keys are all good. */
  lemma {:induction false} ReadBack<N>(v: Json<N>, nums: Numbers<N>, st: Style, rest: string, r: string)
    requires Sound(v, nums) && BlankStyle(st) && NoNumberAhead(rest) && Quotes(rest) <= Quotes(r)
    requires Parse(Print(v, nums, st) + rest, nums) == Parsed(r, v)
    ensures WellFormed(v, nums)
    decreases v, 1
  {
    InnerBlank(v, st);
    match v
    case Arr(items) =>
      ArrayOpens(items, nums, st, rest);
      assert [] + items == items;
      ItemsBack(items, [], nums, Inner(v, st), Closing(v, st), rest, r);
    case Obj(fields) =>
      ObjectOpens(fields, nums, st, rest);
      assert [] + fields == fields;
      FieldsBack(fields, [], nums, Inner(v, st), Closing(v, st), rest, r);
    case _ =>
  }

  /** The quotes of what follows an element. */
  lemma AfterQuotes(more: bool, eol: string, body: string, closing: string, last: string, rest: string)
    requires AllSpace(eol) && AllSpace(closing) && (last == "]" || last == "}")
    ensures Quotes(Separator(more) + (eol + (body + (closing + (last + rest))))) == Quotes(body) + Quotes(rest)
  {
    QuotesCat(Separator(more), eol + (body + (closing + (last + rest))));
    QuotesCat(eol, body + (closing + (last + rest)));
    QuotesCat(body, closing + (last + rest));
    QuotesCat(closing, last + rest);
    QuotesCat(last, rest);
    NoQuotes(Separator(more));
    NoQuotes(eol);
    NoQuotes(closing);
    NoQuotes(last);
  }

  lemma {:induction false} ItemsBack<N>(items: seq<Json<N>>, acc: seq<Json<N>>, nums: Numbers<N>, st: Style,
                                        closing: string, rest: string, r: string)
    requires BlankStyle(st) && AllSpace(closing) && Quotes(rest) <= Quotes(r)
    requires forall i :: 0 <= i < |items| ==> Sound(items[i], nums)
    requires ParseArray(PrintItems(items, nums, st) + (closing + ("]" + rest)), acc,
                        nums) == Parsed(r, Arr(acc + items))
    ensures forall i :: 0 <= i < |items| ==> WellFormed(items[i], nums)
    decreases items, 0
  {
    if items != [] {
      var more, body, end := |items| > 1, PrintItems(items[1..], nums, st), closing + ("]" + rest);
      var first, after := Print(items[0], nums, st), Separator(more) + (st.eol + (body + end));
      ItemsText(items, nums, st, end);
      ArrayOver(st.curr, first + after, acc, nums);
      ItemsQuotes(items[1..], nums, st);
      AfterQuotes(more, st.eol, body, closing, "]", rest);
      var r0 := ItemRead(first + after, items, acc, nums, r);
      AfterElement(more, st.eol, body, closing, ']', rest);
      ReadBack(items[0], nums, st, after, r0);
      RoundTrip(items[0], nums, st, after);
      ArrayElement(st.curr, first, items[0], more, st.eol, body + end, acc, nums);
      Shift(acc, items);
      if more { ItemsBack(items[1..], acc + [items[0]], nums, st, closing, rest, r); }
    }
  }

  /** The first element is what is read first. */
  lemma ItemRead<N>(b: string, items: seq<Json<N>>, acc: seq<Json<N>>, nums: Numbers<N>, r: string) returns (r0: string)
    requires items != [] && ParseArray(b, acc, nums) == Parsed(r, Arr(acc + items))
    ensures Parse(b, nums) == Parsed(r0, items[0]) && Quotes(r0) >= Quotes(r) + WorthItems(items[1..])
  {
    assert |acc + items| > |acc|;
    var v := Parse(b, nums);
    r0 := v.rest;
    ArrayTailCosts(v.rest, acc + [v.value], nums);
    assert (acc + [v.value])[|acc|] == (acc + items)[|acc|];
    Shift(acc, items);
    ItemsCat(acc + [items[0]], items[1..]);
  }

  lemma {:induction false} FieldsBack<N>(fields: seq<Field<N>>, acc: seq<Field<N>>, nums: Numbers<N>, st: Style,
                                         closing: string, rest: string, r: string)
    requires BlankStyle(st) && AllSpace(closing) && Quotes(rest) <= Quotes(r) && DistinctKeys(acc + fields)
    requires forall i :: 0 <= i < |fields| ==> Sound(fields[i].value, nums)
    requires ParseObject(PrintFields(fields, nums, st) + (closing + ("}" + rest)), acc, nums)
             == Parsed(r, Obj(acc + fields))
    ensures forall i :: 0 <= i < |fields| ==>
              fields[i].key != "" && PlainKey(fields[i].key) && WellFormed(fields[i].value, nums)
    decreases fields, 0
  {
    if fields != [] {
      var f, more, body, end := fields[0], |fields| > 1, PrintFields(fields[1..], nums, st), closing + ("}" + rest);
      var r0 := FieldBack(fields, acc, nums, st, closing, rest, r);
      AfterElement(more, st.eol, body, closing, '}', rest);
      ReadBack(f.value, nums, st, Separator(more) + (st.eol + (body + end)), r0);
      RoundTrip(f.value, nums, st, Separator(more) + (st.eol + (body + end)));
      ObjectField(fields, acc, nums, st, end);
      Shift(acc, fields);
      if more { FieldsBack(fields[1..], acc + [f], nums, st, closing, rest, r); }
    }
  }

  /** The first field: its key is good, and its value is what is read from its text. */
  lemma FieldBack<N>(fields: seq<Field<N>>, acc: seq<Field<N>>, nums: Numbers<N>, st: Style, closing: string,
                     rest: string, r: string) returns (r0: string)
    requires fields != [] && BlankStyle(st) && AllSpace(closing) && Quotes(rest) <= Quotes(r)
             && DistinctKeys(acc + fields)
    requires forall i :: 0 <= i < |fields| ==> Sound(fields[i].value, nums)
    requires ParseObject(PrintFields(fields, nums, st) + (closing + ("}" + rest)), acc, nums)
             == Parsed(r, Obj(acc + fields))
    ensures fields[0].key != "" && PlainKey(fields[0].key)
    ensures var after := Separator(|fields| > 1)
                         + (st.eol + (PrintFields(fields[1..], nums, st) + (closing + ("}" + rest))));
            Parse(Print(fields[0].value, nums, st) + after, nums) == Parsed(r0, fields[0].value)
            && Quotes(after) <= Quotes(r0)
  {
    var f, more, body, end := fields[0], |fields| > 1, PrintFields(fields[1..], nums, st), closing + ("}" + rest);
    var value, after := Print(f.value, nums, st), Separator(more) + (st.eol + (body + end));
    var raw := [QUOTE] + (f.key + ([QUOTE] + (":" + (st.colon + (value + after)))));
    FieldsText(fields, nums, st, end);
    ObjectOver(st.curr, raw, acc, nums);
    FieldsQuotes(fields[1..], nums, st);
    AfterQuotes(more, st.eol, body, closing, "}", rest);
    RawQuotes(f, nums, st, after);
    KeyRead(raw, fields, acc, nums, r);
    KeyTokenExact(f.key, ":" + (st.colon + (value + after)), nums);
    ObjectKey(st.curr, f.key, st.colon, value + after, acc, nums);
    QuotesCat(value, after);
    PrintQuotes(f.value, nums, st);
    r0 := ValueRead(value + after, fields, acc, nums, r);
  }

  lemma RawQuotes<N>(f: Field<N>, nums: Numbers<N>, st: Style, after: string)
    requires Sound(f.value, nums) && BlankStyle(st)
    ensures Quotes([QUOTE] + (f.key + ([QUOTE] + (":" + (st.colon + (Print(f.value, nums, st) + after))))))
            == 2 + Quotes(f.key) + Worth(f.value) + Quotes(after)
  {
    var value := Print(f.value, nums, st);
    PrintQuotes(f.value, nums, st);
    KeyQuotes(f.key, st.colon, value);
    QuotesCat([QUOTE] + f.key + [QUOTE] + ":" + st.colon + value, after);
    assert [QUOTE] + (f.key + ([QUOTE] + (":" + (st.colon + (value + after)))))
           == [QUOTE] + f.key + [QUOTE] + ":" + st.colon + value + after;
  }

  /** There are no quotes to spare for a key that is overwritten, so the first key is the one
      that is read first. */
  lemma KeyRead<N>(raw: string, fields: seq<Field<N>>, acc: seq<Field<N>>, nums: Numbers<N>, r: string)
    requires fields != [] && ParseObject(raw, acc, nums) == Parsed(r, Obj(acc + fields))
    requires Quotes(raw) <= WorthFields(fields) + Quotes(r)
    ensures var t := NextToken(raw, nums); t.Lexed? && t.tok == StrTok(fields[0].key) && fields[0].key != ""
  {
    TokenCosts(raw, nums);
    var peek := NextToken(raw, nums);
    assert |acc + fields| > |acc|;
    TokenCosts(peek.rest, nums);
    var colon := NextToken(peek.rest, nums);
    ParseCosts(colon.rest, nums);
    var v := Parse(colon.rest, nums);
    SetWorth(acc, peek.tok.s, v.value);
    var acc' := SetField(acc, peek.tok.s, v.value);
    ObjectTailCosts(v.rest, acc', nums);
    FieldsCat(acc, fields);
    assert acc' == acc + [Field(peek.tok.s, v.value)] && acc' <= acc + fields;
    assert acc'[|acc|] == (acc + fields)[|acc|];
  }

  lemma ValueRead<N>(b: string, fields: seq<Field<N>>, acc: seq<Field<N>>, nums: Numbers<N>, r: string)
      returns (r0: string)
    requires fields != [] && DistinctKeys(acc + fields)
    requires var v := Parse(b, nums);
             v.Parsed? && ObjectTail(v.rest, SetField(acc, fields[0].key, v.value),
                                     nums) == Parsed(r, Obj(acc + fields))
    requires Quotes(b) <= Worth(fields[0].value) + WorthFields(fields[1..]) + Quotes(r)
    ensures Parse(b, nums) == Parsed(r0, fields[0].value) && Quotes(r0) >= Quotes(r) + WorthFields(fields[1..])
  {
    var v := Parse(b, nums);
    r0 := v.rest;
    ParseCosts(b, nums);
    forall i | 0 <= i < |acc| ensures acc[i].key != fields[0].key {
      assert (acc + fields)[i] == acc[i] && (acc + fields)[|acc|] == fields[0];
    }
    var acc' := acc + [Field(fields[0].key, v.value)];
    ObjectTailCosts(v.rest, acc', nums);
    OneField(Field(fields[0].key, v.value));
    FieldsCat(acc, [Field(fields[0].key, v.value)]);
    FieldsCat(acc, fields);
    assert acc' <= acc + fields;
    assert acc'[|acc|] == (acc + fields)[|acc|];
  }

  /** A value whose numbers survive and whose objects repeat no key is read back from its
      printed text, in any white-space layout, exactly when no key in it, at any depth, is
      empty or has a quote or a backslash. */
  lemma RoundTripExact<N>(v: Json<N>, nums: Numbers<N>, st: Style, rest: string)
    requires Sound(v, nums) && BlankStyle(st) && NoNumberAhead(rest)
    ensures Parse(Print(v, nums, st) + rest, nums) == Parsed(rest, v) <==> WellFormed(v, nums)
  {
    if WellFormed(v, nums) {
      RoundTrip(v, nums, st, rest);
    } else if Parse(Print(v, nums, st) + rest, nums) == Parsed(rest, v) {
      ReadBack(v, nums, st, rest, rest);
    }
  }

  /** So do MarshalOrdered and MarshalOrderedIndent with UnmarshalOrdered. */
  lemma MarshalExact<N>(fields: seq<Field<N>>, nums: Numbers<N>, st: Style, rest: string)
    requires Sound(Obj(fields), nums) && BlankStyle(st) && NoNumberAhead(rest)
    ensures UnmarshalObject(Print(Obj(fields), nums, st) + rest, nums) == Parsed(rest, Obj(fields))
            <==> WellFormed(Obj(fields), nums)
  {
    RoundTripExact(Obj(fields), nums, st, rest);
    var b := Print(Obj(fields), nums, st) + rest;
    assert b == "{" + b[1..];
    NextTokenSymbol('{', b[1..], nums);
  }

  /** The two-character key `a"` is printed as text that does not parse back to it. */
  lemma QuotedKeyExample(nums: Numbers<int>)
    ensures var v := Obj([Field(['a', QUOTE], Json<int>.Null)]);
            Parse(MarshalOrdered(v, nums), nums) != Parsed("", v)
  {
    var v := Obj([Field(['a', QUOTE], Json<int>.Null)]);
    assert !PlainKey(v.fields[0].key) by { assert v.fields[0].key[1] == QUOTE; }
    RoundTripExact(v, nums, Style("", "", "", ""), "");
    assert MarshalOrdered(v, nums) + "" == MarshalOrdered(v, nums);
  }
}
