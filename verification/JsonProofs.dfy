/** Printing a JSON value and parsing the text gives the value back. */
module JsonProofs {
  import opened Wrappers
  import opened Seqs
  import opened Jsons

  // ---------- tokens ----------

  lemma {:induction false} SkipSpaceOver(ws: string, b: string)
    requires AllSpace(ws)
    ensures SkipSpace(ws + b) == SkipSpace(b)
    decreases |ws|
  {
    if ws == "" {
      assert ws + b == b;
    } else {
      assert (ws + b)[1..] == ws[1..] + b;
      SkipSpaceOver(ws[1..], b);
    }
  }

  lemma NextTokenOver<N>(ws: string, b: string, nums: Numbers<N>)
    requires AllSpace(ws)
    ensures NextToken(ws + b, nums) == NextToken(b, nums)
  {
    SkipSpaceOver(ws, b);
  }

  lemma {:induction false} SkipNumberOver(num: string, rest: string)
    requires AllNumber(num) && NoNumberAhead(rest)
    ensures SkipNumber(num + rest) == rest
    decreases |num|
  {
    if num == "" {
      assert num + rest == rest;
    } else {
      assert (num + rest)[1..] == num[1..] + rest;
      SkipNumberOver(num[1..], rest);
    }
  }

  lemma NextTokenNumber<N>(n: N, rest: string, nums: Numbers<N>)
    requires GoodNumber(n, nums) && NoNumberAhead(rest)
    ensures NextToken(nums.format(n) + rest, nums) == Lexed(rest, NumTok(n))
  {
    var s := nums.format(n);
    var b := s + rest;
    assert IsNumber(b[0]);
    assert SkipSpace(b) == b;
    assert b[1..] == s[1..] + rest;
    SkipNumberOver(s[1..], rest);
    assert b[..|b| - |rest|] == s;
  }

  /** White space is a blank, a line feed, a carriage return or a tab; a number goes on with digits,
      minus signs, dots and exponents. */
  lemma LexedChars(c: char, b: string)
    ensures SkipSpace([c] + b) == if c == ' ' || c == '\n' || c == '\r' || c == '\t' then SkipSpace(b) else [c] + b
    ensures SkipNumber([c] + b) ==
              if ('0' <= c && c <= '9') || c == '-' || c == '.' || c == 'e' || c == 'E' then SkipNumber(b) else [c] + b
  {
    assert ([c] + b)[1..] == b;
  }

  /** The escapes of JSON but for u, which is an error; any other drops its backslash. */
  lemma LexedEscapes<N>(c: char, b: string, acc: string)
    ensures LexString<N>([BACKSLASH, c] + b, acc) ==
              if c == '\"' || c == '\\' || c == '/' then LexString(b, acc + [c])
              else if c == 'n' then LexString(b, acc + ['\n'])
              else if c == 'r' then LexString(b, acc + ['\r'])
              else if c == 't' then LexString(b, acc + ['\t'])
              else if c == 'b' then LexString(b, acc + ['\U{8}'])
              else if c == 'f' then LexString(b, acc + ['\U{C}'])
              else if c == 'u' then LexError
              else LexString([c] + b, acc)
  {
    var s := [BACKSLASH, c] + b;
    assert s[1..] == [c] + b && s[2..] == b;
  }

  /** What EncodeString writes, the lexer reads back, up to exactly the closing quote. */
  lemma {:induction false} LexEscaped<N>(s: string, rest: string, acc: string)
    ensures LexString<N>(Escape(s) + ([QUOTE] + rest), acc) == Lexed(rest, StrTok(acc + s))
    decreases |s|
  {
    if s == "" {
      assert Escape(s) + ([QUOTE] + rest) == [QUOTE] + rest;
      assert acc + s == acc;
    } else {
      var tail := Escape(s[1..]) + ([QUOTE] + rest);
      var b := Escape(s) + ([QUOTE] + rest);
      assert b == EscapeChar(s[0]) + tail;
      assert acc + s == (acc + [s[0]]) + s[1..];
      LexEscaped<N>(s[1..], rest, acc + [s[0]]);
      LexChar<N>(s[0], tail, acc);
    }
  }

  /** One escaped character is read back. */
  lemma LexChar<N>(c: char, tail: string, acc: string)
    ensures LexString<N>(EscapeChar(c) + tail, acc) == LexString<N>(tail, acc + [c])
  {
    var b := EscapeChar(c) + tail;
    if |EscapeChar(c)| == 2 {
      assert b[0] == BACKSLASH && Unescape(b[1]) == Some(c) && b[2..] == tail;
    } else {
      assert b[0] == c && b[1..] == tail;
    }
  }

  lemma {:induction false} LexPlain<N>(k: string, rest: string, acc: string)
    requires PlainKey(k)
    ensures LexString<N>(k + ([QUOTE] + rest), acc) == Lexed(rest, StrTok(acc + k))
    decreases |k|
  {
    if k == "" {
      assert k + ([QUOTE] + rest) == [QUOTE] + rest;
      assert acc + k == acc;
    } else {
      var b := k + ([QUOTE] + rest);
      assert b[1..] == k[1..] + ([QUOTE] + rest);
      assert acc + k == (acc + [k[0]]) + k[1..];
      LexPlain<N>(k[1..], rest, acc + [k[0]]);
    }
  }

  lemma NextTokenSymbol<N>(c: char, rest: string, nums: Numbers<N>)
    requires !IsSpace(c)
    ensures SkipSpace([c] + rest) == [c] + rest
    ensures ([c] + rest)[0] == c && ([c] + rest)[1..] == rest
    ensures c == QUOTE ==> NextToken([c] + rest, nums) == LexString(rest, "")
    ensures c == ']' ==> NextToken([c] + rest, nums) == Lexed(rest, ArrayEnd)
    ensures c == '}' ==> NextToken([c] + rest, nums) == Lexed(rest, ObjectEnd)
    ensures c == '[' ==> NextToken([c] + rest, nums) == Lexed(rest, ArrayStart)
    ensures c == '{' ==> NextToken([c] + rest, nums) == Lexed(rest, ObjectStart)
    ensures c == ',' ==> NextToken([c] + rest, nums) == Lexed(rest, Comma)
    ensures c == ':' ==> NextToken([c] + rest, nums) == Lexed(rest, Colon)
  {
    assert ([c] + rest)[1..] == rest;
  }

  // ---------- blanks in front do not matter ----------

  lemma ParseOver<N>(ws: string, b: string, nums: Numbers<N>)
    requires AllSpace(ws)
    ensures Parse(ws + b, nums) == Parse(b, nums)
  {
    NextTokenOver(ws, b, nums);
  }

  lemma ArrayOver<N>(ws: string, b: string, acc: seq<Json<N>>, nums: Numbers<N>)
    requires AllSpace(ws)
    ensures ParseArray(ws + b, acc, nums) == ParseArray(b, acc, nums)
    ensures ArrayTail(ws + b, acc, nums) == ArrayTail(b, acc, nums)
  {
    NextTokenOver(ws, b, nums);
    ParseOver(ws, b, nums);
  }

  lemma ObjectOver<N>(ws: string, b: string, acc: seq<Field<N>>, nums: Numbers<N>)
    requires AllSpace(ws)
    ensures ParseObject(ws + b, acc, nums) == ParseObject(b, acc, nums)
    ensures ObjectTail(ws + b, acc, nums) == ObjectTail(b, acc, nums)
  {
    NextTokenOver(ws, b, nums);
  }

  lemma InnerBlank<N>(v: Json<N>, st: Style)
    requires BlankStyle(st)
    ensures BlankStyle(Inner(v, st)) && AllSpace(Closing(v, st))
  {}

  // ---------- the round trip ----------

  lemma ParseWord<N>(word: string, tok: Token<N>, rest: string, nums: Numbers<N>)
    requires 0 < |word|
    ensures LexWord(word + rest, word, tok, nums) == Lexed(rest, tok)
  {
    assert (word + rest)[..|word|] == word && (word + rest)[|word|..] == rest;
  }

  // The printed text, regrouped the way the parser consumes it.

  lemma ArrayText<N>(items: seq<Json<N>>, nums: Numbers<N>, st: Style, rest: string)
    ensures var v := Arr(items);
            Print(v, nums, st) + rest
            == "[" + (Inner(v, st).eol + (PrintItems(items, nums, Inner(v, st)) + (Closing(v, st) + ("]" + rest))))
  {}

  lemma ObjectText<N>(fields: seq<Field<N>>, nums: Numbers<N>, st: Style, rest: string)
    ensures var v := Obj(fields);
            Print(v, nums, st) + rest
            == "{" + (Inner(v, st).eol + (PrintFields(fields, nums, Inner(v, st)) + (Closing(v, st) + ("}" + rest))))
  {}

  lemma ItemsText<N>(items: seq<Json<N>>, nums: Numbers<N>, st: Style, end: string)
    requires items != []
    ensures PrintItems(items, nums, st) + end
         == st.curr + (Print(items[0], nums, st)
            + (Separator(|items| > 1) + (st.eol + (PrintItems(items[1..], nums, st) + end))))
  {}

  lemma FieldsText<N>(fields: seq<Field<N>>, nums: Numbers<N>, st: Style, end: string)
    requires fields != []
    ensures PrintFields(fields, nums, st) + end
         == st.curr + ([QUOTE] + (fields[0].key + ([QUOTE] + (":" + (st.colon + (Print(fields[0].value, nums, st)
            + (Separator(|fields| > 1) + (st.eol + (PrintFields(fields[1..], nums, st) + end)))))))))
  {
    var key, val := fields[0].key, Print(fields[0].value, nums, st);
    var sep, more := Separator(|fields| > 1), PrintFields(fields[1..], nums, st);
    var f := [QUOTE] + key + [QUOTE] + ":" + st.colon + val;
    var tail := sep + (st.eol + (more + end));
    Assoc(st.curr + f + sep + st.eol, more, end);
    Assoc(st.curr + f + sep, st.eol, more + end);
    Assoc(st.curr + f, sep, st.eol + (more + end));
    Assoc(st.curr, f, tail);
    Assoc([QUOTE] + key + [QUOTE] + ":" + st.colon, val, tail);
    Assoc([QUOTE] + key + [QUOTE] + ":", st.colon, val + tail);
    Assoc([QUOTE] + key + [QUOTE], ":", st.colon + (val + tail));
    Assoc([QUOTE] + key, [QUOTE], ":" + (st.colon + (val + tail)));
    Assoc([QUOTE], key, [QUOTE] + (":" + (st.colon + (val + tail))));
  }

  lemma Shift<T>(acc: seq<T>, xs: seq<T>)
    requires xs != []
    ensures (acc + [xs[0]]) + xs[1..] == acc + xs
  {}

  /** What follows a printed element never starts like a number. */
  lemma AfterElement(more: bool, eol: string, body: string, closing: string, last: char, rest: string)
    requires AllSpace(eol) && AllSpace(closing) && (last == ']' || last == '}')
    requires !more ==> body == ""
    ensures NoNumberAhead(Separator(more) + (eol + (body + (closing + ([last] + rest)))))
  {
    var end := closing + ([last] + rest);
    if !more {
      assert body + end == end;
      assert eol != "" ==> (eol + end)[0] == eol[0];
      assert eol == "" ==> eol + end == end;
      assert closing != "" ==> end[0] == closing[0];
      assert Separator(more) + (eol + (body + end)) == eol + end;
    }
  }

  lemma ScalarRoundTrip<N>(v: Json<N>, nums: Numbers<N>, st: Style, rest: string)
    requires v.Null? || v.Bool? || v.Num? || v.Str?
    requires WellFormed(v, nums) && NoNumberAhead(rest)
    ensures Parse(Print(v, nums, st) + rest, nums) == Parsed(rest, v)
  {
    match v
    case Null =>
      ParseWord("null", NullTok, rest, nums);
    case Bool(b) =>
      if b { ParseWord("true", BoolTok(true), rest, nums); } else { ParseWord("false", BoolTok(false), rest, nums); }
    case Num(n) =>
      NextTokenNumber(n, rest, nums);
    case Str(s) =>
      StringRoundTrip(s, nums, rest);
  }

  lemma StringRoundTrip<N>(s: string, nums: Numbers<N>, rest: string)
    ensures Parse([QUOTE] + Escape(s) + [QUOTE] + rest, nums) == Parsed(rest, Str(s))
  {
    Quoted(Escape(s), rest);
    NextTokenSymbol(QUOTE, Escape(s) + ([QUOTE] + rest), nums);
    LexEscaped<N>(s, rest, "");
    assert "" + s == s;
  }

  lemma Quoted(e: string, rest: string)
    ensures [QUOTE] + e + [QUOTE] + rest == [QUOTE] + (e + ([QUOTE] + rest))
  {
  }

  lemma ArrayOpens<N>(items: seq<Json<N>>, nums: Numbers<N>, st: Style, rest: string)
    requires BlankStyle(Inner(Arr(items), st))
    ensures var v := Arr(items);
            Parse(Print(v, nums, st) + rest, nums)
            == ParseArray(PrintItems(items, nums, Inner(v, st)) + (Closing(v, st) + ("]" + rest)), [], nums)
  {
    var v := Arr(items);
    var body := PrintItems(items, nums, Inner(v, st)) + (Closing(v, st) + ("]" + rest));
    ArrayText(items, nums, st, rest);
    NextTokenSymbol('[', Inner(v, st).eol + body, nums);
    ArrayOver(Inner(v, st).eol, body, [], nums);
  }

  lemma ObjectOpens<N>(fields: seq<Field<N>>, nums: Numbers<N>, st: Style, rest: string)
    requires BlankStyle(Inner(Obj(fields), st))
    ensures var v := Obj(fields);
            Parse(Print(v, nums, st) + rest, nums)
            == ParseObject(PrintFields(fields, nums, Inner(v, st)) + (Closing(v, st) + ("}" + rest)), [], nums)
  {
    var v := Obj(fields);
    var body := PrintFields(fields, nums, Inner(v, st)) + (Closing(v, st) + ("}" + rest));
    ObjectText(fields, nums, st, rest);
    NextTokenSymbol('{', Inner(v, st).eol + body, nums);
    ObjectOver(Inner(v, st).eol, body, [], nums);
  }

  /** For every well-formed value, in every style whose layout is white space, the parser
      reads the printed text back to that value, key order included, and stops exactly at
      the text that follows it. */
  lemma {:induction false} RoundTrip<N>(v: Json<N>, nums: Numbers<N>, st: Style, rest: string)
    requires WellFormed(v, nums) && BlankStyle(st) && NoNumberAhead(rest)
    ensures Parse(Print(v, nums, st) + rest, nums) == Parsed(rest, v)
    decreases v, 1
  {
    InnerBlank(v, st);
    match v
    case Arr(items) =>
      ArrayOpens(items, nums, st, rest);
      ArrayRoundTrip(items, [], nums, Inner(v, st), Closing(v, st), rest);
      assert [] + items == items;
    case Obj(fields) =>
      ObjectOpens(fields, nums, st, rest);
      assert [] + fields == fields;
      ObjectRoundTrip(fields, [], nums, Inner(v, st), Closing(v, st), rest);
    case _ =>
      ScalarRoundTrip(v, nums, st, rest);
  }

  lemma ArrayCloses<N>(closing: string, rest: string, acc: seq<Json<N>>, nums: Numbers<N>)
    requires AllSpace(closing)
    ensures ParseArray(closing + ("]" + rest), acc, nums) == Parsed(rest, Arr(acc))
    ensures ArrayTail(closing + ("]" + rest), acc, nums) == Parsed(rest, Arr(acc))
  {
    NextTokenSymbol(']', rest, nums);
    NextTokenOver(closing, "]" + rest, nums);
  }

  /** An element and what comes after it: the closing bracket, or a comma and more. */
  lemma ArrayElement<N>(ws: string, b: string, v: Json<N>, more: bool, eol: string, next: string, acc: seq<Json<N>>,
                        nums: Numbers<N>)
    requires AllSpace(ws) && AllSpace(eol)
    requires var after := Separator(more) + (eol + next); Parse(b + after, nums) == Parsed(after, v)
    ensures ParseArray(ws + (b + (Separator(more) + (eol + next))), acc, nums)
            == if more then ParseArray(next, acc + [v], nums) else ArrayTail(next, acc + [v], nums)
  {
    var after := Separator(more) + (eol + next);
    ArrayOver(ws, b + after, acc, nums);
    ArrayOver(eol, next, acc + [v], nums);
    if more {
      NextTokenSymbol(',', eol + next, nums);
    } else {
      assert after == eol + next;
    }
  }

  lemma {:induction false} ArrayRoundTrip<N>(items: seq<Json<N>>, acc: seq<Json<N>>, nums: Numbers<N>, st: Style,
                                             closing: string, rest: string)
    requires forall i :: 0 <= i < |items| ==> WellFormed(items[i], nums)
    requires BlankStyle(st) && AllSpace(closing)
    ensures ParseArray(PrintItems(items, nums, st) + (closing + ("]" + rest)), acc,
                       nums) == Parsed(rest, Arr(acc + items))
    decreases items, 0
  {
    var end := closing + ("]" + rest);
    ArrayCloses(closing, rest, acc, nums);
    if items == [] {
      assert PrintItems(items, nums, st) + end == end;
      assert acc + items == acc;
    } else {
      var more, body := |items| > 1, PrintItems(items[1..], nums, st);
      AfterElement(more, st.eol, body, closing, ']', rest);
      RoundTrip(items[0], nums, st, Separator(more) + (st.eol + (body + end)));
      ArrayElement(st.curr, Print(items[0], nums, st), items[0], more, st.eol, body + end, acc, nums);
      ItemsText(items, nums, st, end);
      Shift(acc, items);
      if more {
        ArrayRoundTrip(items[1..], acc + [items[0]], nums, st, closing, rest);
      } else {
        assert body + end == end;
        ArrayCloses(closing, rest, acc + [items[0]], nums);
        assert acc + items == acc + [items[0]];
      }
    }
  }

  lemma ObjectCloses<N>(closing: string, rest: string, acc: seq<Field<N>>, nums: Numbers<N>)
    requires AllSpace(closing)
    ensures ParseObject(closing + ("}" + rest), acc, nums) == Parsed(rest, Obj(acc))
    ensures ObjectTail(closing + ("}" + rest), acc, nums) == Parsed(rest, Obj(acc))
  {
    NextTokenSymbol('}', rest, nums);
    NextTokenOver(closing, "}" + rest, nums);
  }

  /** One printed field: the parser comes to the value with the key in hand. */
  lemma ObjectKey<N>(ws: string, key: string, colonSpace: string, value: string, acc: seq<Field<N>>, nums: Numbers<N>)
    requires key != "" && PlainKey(key) && AllSpace(ws) && AllSpace(colonSpace)
    ensures var v := Parse(value, nums);
            ParseObject(ws + ([QUOTE] + (key + ([QUOTE] + (":" + (colonSpace + value))))), acc, nums)
            == if v.Parsed? then ObjectTail(v.rest, SetField(acc, key, v.value), nums) else v
  {
    var colon := ":" + (colonSpace + value);
    var b := [QUOTE] + (key + ([QUOTE] + colon));
    ObjectOver(ws, b, acc, nums);
    NextTokenSymbol(QUOTE, key + ([QUOTE] + colon), nums);
    LexPlain<N>(key, colon, "");
    assert "" + key == key;
    NextTokenSymbol(':', colonSpace + value, nums);
    ParseOver(colonSpace, value, nums);
  }

  lemma ObjectAfter<N>(more: bool, eol: string, next: string, acc: seq<Field<N>>, nums: Numbers<N>)
    requires AllSpace(eol)
    ensures ObjectTail(Separator(more) + (eol + next), acc, nums)
            == if more then ParseObject(next, acc, nums) else ObjectTail(next, acc, nums)
  {
    ObjectOver(eol, next, acc, nums);
    if more {
      NextTokenSymbol(',', eol + next, nums);
    } else {
      assert Separator(more) + (eol + next) == eol + next;
    }
  }

  lemma NewKeyAppends<N>(acc: seq<Field<N>>, fields: seq<Field<N>>)
    requires fields != [] && DistinctKeys(acc + fields)
    ensures SetField(acc, fields[0].key, fields[0].value) == acc + [fields[0]]
  {
    var all := acc + fields;
    assert forall i :: 0 <= i < |acc| ==> all[i] == acc[i] && acc[i].key != all[|acc|].key;
  }

  /** The first printed field, its value known to parse back. */
  lemma ObjectField<N>(fields: seq<Field<N>>, acc: seq<Field<N>>, nums: Numbers<N>, st: Style, end: string)
    requires fields != [] && DistinctKeys(acc + fields) && fields[0].key != "" && PlainKey(fields[0].key)
             && BlankStyle(st)
    requires var after := Separator(|fields| > 1) + (st.eol + (PrintFields(fields[1..], nums, st) + end));
             Parse(Print(fields[0].value, nums, st) + after, nums) == Parsed(after, fields[0].value)
    ensures var next := PrintFields(fields[1..], nums, st) + end;
            ParseObject(PrintFields(fields, nums, st) + end, acc, nums)
            == if |fields| > 1 then ParseObject(next, acc + [fields[0]], nums)
            else ObjectTail(next, acc + [fields[0]], nums)
  {
    var f, more, body := fields[0], |fields| > 1, PrintFields(fields[1..], nums, st);
    var after := Separator(more) + (st.eol + (body + end));
    ObjectKey(st.curr, f.key, st.colon, Print(f.value, nums, st) + after, acc, nums);
    FieldsText(fields, nums, st, end);
    NewKeyAppends(acc, fields);
    ObjectAfter(more, st.eol, body + end, acc + [f], nums);
  }

  lemma {:induction false} ObjectRoundTrip<N>(fields: seq<Field<N>>, acc: seq<Field<N>>, nums: Numbers<N>, st: Style,
                                              closing: string, rest: string)
    requires DistinctKeys(acc + fields)
    requires forall i :: 0 <= i < |fields| ==>
               fields[i].key != "" && PlainKey(fields[i].key) && WellFormed(fields[i].value, nums)
    requires BlankStyle(st) && AllSpace(closing)
    ensures ParseObject(PrintFields(fields, nums, st) + (closing + ("}" + rest)), acc,
                        nums) == Parsed(rest, Obj(acc + fields))
    decreases fields, 0
  {
    var end := closing + ("}" + rest);
    ObjectCloses(closing, rest, acc, nums);
    if fields == [] {
      assert PrintFields(fields, nums, st) + end == end;
      assert acc + fields == acc;
    } else {
      var f, more, body := fields[0], |fields| > 1, PrintFields(fields[1..], nums, st);
      var after := Separator(more) + (st.eol + (body + end));
      AfterElement(more, st.eol, body, closing, '}', rest);
      RoundTrip(f.value, nums, st, after);
      ObjectField(fields, acc, nums, st, end);
      Shift(acc, fields);
      if more {
        ObjectRoundTrip(fields[1..], acc + [f], nums, st, closing, rest);
      } else {
        assert body + end == end;
        ObjectCloses(closing, rest, acc + [f], nums);
        assert acc + fields == acc + [f];
      }
    }
  }

  lemma MarshalRoundTrip<N>(fields: seq<Field<N>>, nums: Numbers<N>, prefix: string, indent: string, rest: string)
    requires WellFormed(Obj(fields), nums) && AllSpace(prefix) && AllSpace(indent) && NoNumberAhead(rest)
    ensures UnmarshalObject(MarshalOrdered(Obj(fields), nums) + rest, nums) == Parsed(rest, Obj(fields))
    ensures UnmarshalObject(MarshalOrderedIndent(Obj(fields), nums, prefix, indent) + rest,
                            nums) == Parsed(rest, Obj(fields))
  {
    UnmarshalStyle(fields, nums, Style("", "", "", ""), rest);
    UnmarshalStyle(fields, nums, Style("\n" + prefix, indent, "", " "), rest);
  }

  lemma UnmarshalStyle<N>(fields: seq<Field<N>>, nums: Numbers<N>, st: Style, rest: string)
    requires WellFormed(Obj(fields), nums) && BlankStyle(st) && NoNumberAhead(rest)
    ensures UnmarshalObject(Print(Obj(fields), nums, st) + rest, nums) == Parsed(rest, Obj(fields))
  {
    var v := Obj(fields);
    RoundTrip(v, nums, st, rest);
    var b := Print(v, nums, st) + rest;
    assert b == "{" + b[1..];
    NextTokenSymbol('{', b[1..], nums);
  }

  // ---------- keys are printed unescaped ----------

  lemma {:induction false} LexStringExtends<N>(b: string, acc: string)
    ensures var r := LexString<N>(b, acc); r.Lexed? ==> r.tok.StrTok? && acc <= r.tok.s
    decreases |b|
  {
    if b == "" || b[0] == QUOTE {
    } else if b[0] != BACKSLASH {
      LexStringExtends<N>(b[1..], acc + [b[0]]);
    } else if |b| > 1 {
      if Unescape(b[1]).Some? {
        LexStringExtends<N>(b[2..], acc + [Unescape(b[1]).value]);
      } else if b[1] != 'u' {
        LexStringExtends<N>(b[1..], acc);
      }
    }
  }

  /** Reading a raw key that has a backslash in it falls behind and never catches up: to
      match, each of its characters from the first backslash on would have to be a
      backslash, and each of those costs two. */
  lemma {:induction false} BackslashKeyDiffers<N>(k: string, rest: string, j: nat, q: nat)
    requires j < |k| && j <= q <= |k|
    requires forall i :: j <= i < q ==> k[i] == BACKSLASH
    requires q == j ==> k[j] == BACKSLASH
    ensures forall r :: LexString<N>((k + ([QUOTE] + rest))[q..], k[..j]) != Lexed(r, StrTok(k))
    decreases |k| - q
  {
    var raw := k + ([QUOTE] + rest);
    var b := raw[q..];
    assert k[j] == BACKSLASH;
    assert b[0] == raw[q];
    if raw[q] == QUOTE {
      assert |k[..j]| < |k|;
    } else if raw[q] != BACKSLASH {
      LexStringExtends<N>(b[1..], k[..j] + [b[0]]);
      assert (k[..j] + [b[0]])[j] != k[j];
    } else {
      assert q < |k| && |b| > 1 && b[1] == raw[q + 1];
      if b[1] == BACKSLASH {
        assert b[2..] == raw[q + 2..];
        assert k[..j] + [BACKSLASH] == k[..j + 1];
        BackslashKeyDiffers<N>(k, rest, j + 1, q + 2);
      } else if Unescape(b[1]).Some? {
        LexStringExtends<N>(b[2..], k[..j] + [Unescape(b[1]).value]);
        assert (k[..j] + [Unescape(b[1]).value])[j] != k[j];
      } else if b[1] != 'u' {
        assert b[1..][0] == b[1] && b[1] != QUOTE;
        LexStringExtends<N>(b[1..][1..], k[..j] + [b[1]]);
        assert (k[..j] + [b[1]])[j] != k[j];
      }
    }
  }

  lemma {:induction false} RawKeyDiffers<N>(k: string, rest: string, j: nat)
    requires j <= |k| && PlainKey(k[..j]) && !PlainKey(k)
    ensures forall r :: LexString<N>((k + ([QUOTE] + rest))[j..], k[..j]) != Lexed(r, StrTok(k))
    decreases |k| - j
  {
    var b := (k + ([QUOTE] + rest))[j..];
    if j == |k| {
      assert false;
    } else if k[j] == BACKSLASH {
      BackslashKeyDiffers<N>(k, rest, j, j);
    } else if k[j] == QUOTE {
      assert b[0] == QUOTE && |k[..j]| < |k|;
    } else {
      assert b[0] == k[j] && b[1..] == (k + ([QUOTE] + rest))[j + 1..];
      assert k[..j] + [k[j]] == k[..j + 1];
      RawKeyDiffers<N>(k, rest, j + 1);
    }
  }

  /** A printed key is read back as itself exactly when it has no quote and no backslash,
      whatever text follows. */
  lemma KeyTokenExact<N>(k: string, rest: string, nums: Numbers<N>)
    ensures (exists r :: NextToken([QUOTE] + (k + ([QUOTE] + rest)), nums) == Lexed(r, StrTok(k))) <==> PlainKey(k)
  {
    NextTokenSymbol(QUOTE, k + ([QUOTE] + rest), nums);
    if PlainKey(k) {
      LexPlain<N>(k, rest, "");
      assert "" + k == k;
    } else {
      RawKeyDiffers<N>(k, rest, 0);
      assert (k + ([QUOTE] + rest))[0..] == k + ([QUOTE] + rest);
      assert k[..0] == "";
    }
  }
}
