/**
 The ordered JSON printer and parser (pkg/jsonutils/jsonutils.go).

 Text is a sequence of characters; every character the code singles out is ASCII, so
 working on bytes and working on characters of valid text are the same. Numbers are an
 arbitrary type with a formatter and a parser (`Numbers`); a value is only well formed
 when its numbers survive that pair, so nothing is assumed about floating point.
 Results keep apart what the code keeps apart: an error, a nil token and a Go panic.
 */
module Jsons {
  import opened Wrappers

  // ---------- values ----------

  datatype Json<N> =
    | Null
    | Bool(b: bool)
    | Num(n: N)
    | Str(s: string)
    | Arr(items: seq<Json<N>>)
    | Obj(fields: seq<Field<N>>)

  /** One entry of an OrderedMap: the fields of an object are its keys in order. */
  datatype Field<N> = Field(key: string, value: Json<N>)

  /** What printing and parsing take as given: how numbers are written and read, and how much
      capacity the input slice has beyond its length. */
  datatype Numbers<!N> = Numbers(format: N -> string, parse: string -> Option<N>, spare: nat)

  function IndexOf<N>(fields: seq<Field<N>>, key: string): (i: nat)
    ensures i <= |fields|
    ensures i < |fields| ==> fields[i].key == key
    ensures forall j :: 0 <= j < i ==> fields[j].key != key
  {
    if fields == [] || fields[0].key == key then 0 else 1 + IndexOf(fields[1..], key)
  }

  /** OrderedMap.Set: overwrite in place, or append. */
  function SetField<N>(fields: seq<Field<N>>, key: string, value: Json<N>): seq<Field<N>> {
    var i := IndexOf(fields, key);
    if i < |fields| then fields[i := Field(key, value)] else fields + [Field(key, value)]
  }

  // ---------- characters ----------

  const QUOTE: char := '\"'
  const BACKSLASH: char := '\\'
  const BACKSPACE: char := '\U{8}'
  const FORMFEED: char := '\U{C}'

  predicate IsSpace(c: char) { c == ' ' || c == '\n' || c == '\r' || c == '\t' }

  predicate IsNumber(c: char) { '0' <= c <= '9' || c == '-' || c == '.' || c == 'e' || c == 'E' }

  predicate AllSpace(s: string) { forall i :: 0 <= i < |s| ==> IsSpace(s[i]) }

  predicate AllNumber(s: string) { forall i :: 0 <= i < |s| ==> IsNumber(s[i]) }

  /** Text that cannot prolong a number printed in front of it. */
  predicate NoNumberAhead(s: string) { s == "" || !IsNumber(s[0]) }

  // ---------- printer ----------

  function EscapeChar(c: char): string {
    if c == QUOTE then [BACKSLASH, QUOTE]
    else if c == BACKSLASH then [BACKSLASH, BACKSLASH]
    else if c == BACKSPACE then [BACKSLASH, 'b']
    else if c == FORMFEED then [BACKSLASH, 'f']
    else if c == '\n' then [BACKSLASH, 'n']
    else if c == '\r' then [BACKSLASH, 'r']
    else if c == '\t' then [BACKSLASH, 't']
    else [c]
  }

  function Escape(s: string): string {
    if s == "" then "" else EscapeChar(s[0]) + Escape(s[1..])
  }

  predicate IsTrivial<N>(v: Json<N>) {
    match v
    case Arr(items) => |items| == 0 || (|items| == 1 && IsTrivial(items[0]))
    case Obj(fields) => |fields| == 0 || (|fields| == 1 && IsTrivial(fields[0].value))
    case _ => true
  }

  datatype Style = Style(eol: string, indent: string, curr: string, colon: string)

  function Inner<N>(v: Json<N>, st: Style): Style {
    if IsTrivial(v) then st.(eol := "", curr := "") else st.(curr := st.curr + st.indent)
  }

  function Closing<N>(v: Json<N>, st: Style): string {
    if IsTrivial(v) then "" else st.curr
  }

  function Print<N>(v: Json<N>, nums: Numbers<N>, st: Style): string
    decreases v, 1
  {
    match v
    case Null => "null"
    case Bool(b) => if b then "true" else "false"
    case Num(n) => nums.format(n)
    case Str(s) => [QUOTE] + Escape(s) + [QUOTE]
    case Arr(items) => "[" + (Inner(v, st).eol + PrintItems(items, nums, Inner(v, st)) + Closing(v, st) + "]")
    case Obj(fields) => "{" + (Inner(v, st).eol + PrintFields(fields, nums, Inner(v, st)) + Closing(v, st) + "}")
  }

  function Separator(more: bool): string { if more then "," else "" }

  function PrintItems<N>(items: seq<Json<N>>, nums: Numbers<N>, st: Style): string
    decreases items, 0
  {
    if items == [] then ""
    else st.curr + Print(items[0], nums, st) + Separator(|items| > 1) + st.eol + PrintItems(items[1..], nums, st)
  }

  function PrintFields<N>(fields: seq<Field<N>>, nums: Numbers<N>, st: Style): string
    decreases fields, 0
  {
    if fields == [] then ""
    else st.curr + ([QUOTE] + fields[0].key + [QUOTE] + ":" + st.colon + Print(fields[0].value, nums, st))
         + Separator(|fields| > 1) + st.eol + PrintFields(fields[1..], nums, st)
  }

  function MarshalOrdered<N>(v: Json<N>, nums: Numbers<N>): string {
    Print(v, nums, Style("", "", "", ""))
  }

  function MarshalOrderedIndent<N>(v: Json<N>, nums: Numbers<N>, prefix: string, indent: string): string {
    Print(v, nums, Style("\n" + prefix, indent, "", " "))
  }

  // ---------- lexer ----------

  datatype Token<N> =
    | StrTok(s: string) | NumTok(n: N) | BoolTok(b: bool) | NullTok
    | ObjectStart | ObjectEnd | ArrayStart | ArrayEnd | Comma | Colon

  /** `NoToken` is the nil token returned without an error. */
  datatype Lexed<N> = Lexed(rest: string, tok: Token<N>) | NoToken | LexError | LexPanic

  function SkipSpace(b: string): (r: string)
    ensures |r| <= |b|
  {
    if b == "" || !IsSpace(b[0]) then b else SkipSpace(b[1..])
  }

  function SkipNumber(b: string): (r: string)
    ensures |r| <= |b|
  {
    if b == "" || !IsNumber(b[0]) then b else SkipNumber(b[1..])
  }

  function Unescape(c: char): Option<char> {
    if c == QUOTE || c == BACKSLASH || c == '/' then Some(c)
    else if c == 'b' then Some(BACKSPACE)
    else if c == 'f' then Some(FORMFEED)
    else if c == 'n' then Some('\n')
    else if c == 'r' then Some('\r')
    else if c == 't' then Some('\t')
    else None
  }

  /** The rest of a string literal. An unknown escape only drops its backslash; running
      out of text yields no token. */
  function LexString<N>(b: string, acc: string): (r: Lexed<N>)
    ensures r.Lexed? ==> |r.rest| < |b|
    decreases |b|
  {
    if b == "" then NoToken
    else if b[0] == QUOTE then Lexed(b[1..], StrTok(acc))
    else if b[0] == BACKSLASH then
      if |b| == 1 then LexError
      else if Unescape(b[1]).Some? then LexString(b[2..], acc + [Unescape(b[1]).value])
      else if b[1] == 'u' then LexError
      else LexString(b[1..], acc)
    else LexString(b[1..], acc + [b[0]])
  }

  function LexWord<N>(b: string, word: string, tok: Token<N>, nums: Numbers<N>): (r: Lexed<N>)
    requires 0 < |word|
    ensures r.Lexed? ==> |r.rest| < |b|
  {
    if |b| >= |word| && b[..|word|] == word then Lexed(b[|word|..], tok)
    else if |b| + nums.spare < 10 then LexPanic // the error text slices b[:10], up to the capacity
    else LexError
  }

  function NextToken<N>(text: string, nums: Numbers<N>): (r: Lexed<N>)
    ensures r.Lexed? ==> |r.rest| < |text|
  {
    var b := SkipSpace(text);
    if b == "" then LexPanic // indexes b[0]
    else if IsNumber(b[0]) then
      var rest := SkipNumber(b[1..]);
      var num := nums.parse(b[..|b| - |rest|]);
      if num.Some? then Lexed(rest, NumTok(num.value)) else LexError
    else if b[0] == '{' then Lexed(b[1..], ObjectStart)
    else if b[0] == '}' then Lexed(b[1..], ObjectEnd)
    else if b[0] == '[' then Lexed(b[1..], ArrayStart)
    else if b[0] == ']' then Lexed(b[1..], ArrayEnd)
    else if b[0] == ',' then Lexed(b[1..], Comma)
    else if b[0] == ':' then Lexed(b[1..], Colon)
    else if b[0] == QUOTE then LexString(b[1..], "")
    else if b[0] == 't' then LexWord(b, "true", BoolTok(true), nums)
    else if b[0] == 'f' then LexWord(b, "false", BoolTok(false), nums)
    else if b[0] == 'n' then LexWord(b, "null", NullTok, nums)
    else NoToken
  }

  // ---------- parser ----------

  datatype Parsed<N> = Parsed(rest: string, value: Json<N>) | ParseError | ParsePanic

  function Failure<N>(r: Lexed<N>): Parsed<N>
    requires !r.Lexed?
  {
    if r.LexPanic? then ParsePanic else ParseError
  }

  function Parse<N>(b: string, nums: Numbers<N>): (r: Parsed<N>)
    ensures r.Parsed? ==> |r.rest| < |b|
    decreases |b|, 0
  {
    var t := NextToken(b, nums);
    if !t.Lexed? then Failure(t)
    else match t.tok
      case ObjectStart => ParseObject(t.rest, [], nums)
      case ArrayStart => ParseArray(t.rest, [], nums)
      case StrTok(s) => Parsed(t.rest, Str(s))
      case NumTok(n) => Parsed(t.rest, Num(n))
      case BoolTok(v) => Parsed(t.rest, Bool(v))
      case NullTok => Parsed(t.rest, Null)
      case _ => ParseError
  }

  function ParseArray<N>(b: string, acc: seq<Json<N>>, nums: Numbers<N>): (r: Parsed<N>)
    ensures r.Parsed? ==> |r.rest| < |b|
    decreases |b|, 2
  {
    var peek := NextToken(b, nums);
    if peek.NoToken? then ParsePanic // tok.Type of a nil token
    else if !peek.Lexed? then Failure(peek)
    else if peek.tok.ArrayEnd? then ArrayTail(b, acc, nums)
    else
      var v := Parse(b, nums);
      if v.Parsed? then ArrayTail(v.rest, acc + [v.value], nums) else v
  }

  function ArrayTail<N>(b: string, acc: seq<Json<N>>, nums: Numbers<N>): (r: Parsed<N>)
    ensures r.Parsed? ==> |r.rest| < |b|
    decreases |b|, 1
  {
    var t := NextToken(b, nums);
    if !t.Lexed? then Failure(t)
    else if t.tok.ArrayEnd? then Parsed(t.rest, Arr(acc))
    else if t.tok.Comma? then ParseArray(t.rest, acc, nums)
    else ParseError
  }

  function ParseObject<N>(b: string, acc: seq<Field<N>>, nums: Numbers<N>): (r: Parsed<N>)
    ensures r.Parsed? ==> |r.rest| < |b|
    decreases |b|, 2
  {
    var peek := NextToken(b, nums);
    if peek.NoToken? then ParsePanic
    else if !peek.Lexed? then Failure(peek)
    else if peek.tok.ObjectEnd? then ObjectTail(b, acc, nums)
    else if !peek.tok.StrTok? || peek.tok.s == "" then ParseError
    else
      var colon := NextToken(peek.rest, nums);
      if !colon.Lexed? then Failure(colon)
      else if !colon.tok.Colon? then ParseError
      else
        var v := Parse(colon.rest, nums);
        if v.Parsed? then ObjectTail(v.rest, SetField(acc, peek.tok.s, v.value), nums) else v
  }

  function ObjectTail<N>(b: string, acc: seq<Field<N>>, nums: Numbers<N>): (r: Parsed<N>)
    ensures r.Parsed? ==> |r.rest| < |b|
    decreases |b|, 1
  {
    var t := NextToken(b, nums);
    if !t.Lexed? then Failure(t)
    else if t.tok.ObjectEnd? then Parsed(t.rest, Obj(acc))
    else if t.tok.Comma? then ParseObject(t.rest, acc, nums)
    else ParseError
  }

  /** UnmarshalOrdered into an object; a leading null is not treated as a result, the
      code goes on to parse an object body after it. */
  function UnmarshalObject<N>(b: string, nums: Numbers<N>): Parsed<N> {
    if b == "" then ParseError else
      var t := NextToken(b, nums);
      if !t.Lexed? then Failure(t)
      else if t.tok.NullTok? || t.tok.ObjectStart? then ParseObject(t.rest, [], nums)
      else ParseError
  }

  // ---------- well-formed values ----------

  predicate PlainKey(k: string) { forall i :: 0 <= i < |k| ==> k[i] != QUOTE && k[i] != BACKSLASH }

  predicate DistinctKeys<N>(fields: seq<Field<N>>) {
    forall i, j :: 0 <= i < j < |fields| ==> fields[i].key != fields[j].key
  }

  ghost predicate GoodNumber<N>(n: N, nums: Numbers<N>) {
    var s := nums.format(n);
    s != "" && AllNumber(s) && nums.parse(s) == Some(n)
  }

  ghost predicate WellFormed<N>(v: Json<N>, nums: Numbers<N>) {
    match v
    case Num(n) => GoodNumber(n, nums)
    case Arr(items) => forall i :: 0 <= i < |items| ==> WellFormed(items[i], nums)
    case Obj(fields) =>
      && DistinctKeys(fields)
      && forall i :: 0 <= i < |fields| ==>
           fields[i].key != "" && PlainKey(fields[i].key) && WellFormed(fields[i].value, nums)
    case _ => true
  }

  predicate BlankStyle(st: Style) {
    AllSpace(st.eol) && AllSpace(st.indent) && AllSpace(st.curr) && AllSpace(st.colon)
  }
}
