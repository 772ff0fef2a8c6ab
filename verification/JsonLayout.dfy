/**
 The text the ordered JSON printer writes (marshal in pkg/jsonutils/jsonutils.go), laid out as
 lines: without an indent one line without any layout, and with one each entry of an array or
 object on lines of its own, one indent deeper than the brackets, but for trivial ones.
 */
module JsonLayouts {
  import opened Seqs
  import opened Jsons

  // ---------- the layout by itself ----------

  /** A value on one line; `colon` follows the colon of a key. */
  function OneLine<N>(v: Json<N>, nums: Numbers<N>, colon: string): string
    decreases v, 1
  {
    match v
    case Null => "null"
    case Bool(b) => if b then "true" else "false"
    case Num(n) => nums.format(n)
    case Str(s) => [QUOTE] + Escape(s) + [QUOTE]
    case Arr(items) => "[" + CommaItems(items, nums, colon) + "]"
    case Obj(fields) => "{" + CommaFields(fields, nums, colon) + "}"
  }

  function CommaItems<N>(items: seq<Json<N>>, nums: Numbers<N>, colon: string): string
    decreases items, 0
  {
    if items == [] then ""
    else if |items| == 1 then OneLine(items[0], nums, colon)
    else OneLine(items[0], nums, colon) + "," + CommaItems(items[1..], nums, colon)
  }

  function KeyText<N>(f: Field<N>, colon: string): string { [QUOTE] + f.key + [QUOTE] + ":" + colon }

  function CommaFields<N>(fields: seq<Field<N>>, nums: Numbers<N>, colon: string): string
    decreases fields, 0
  {
    if fields == [] then ""
    else
      var first := KeyText(fields[0], colon) + OneLine(fields[0].value, nums, colon);
      if |fields| == 1 then first else first + "," + CommaFields(fields[1..], nums, colon)
  }

  /** Empty, or a single entry that is not an array or object or trivial itself. */
  predicate FitsLine<N>(v: Json<N>) {
    match v
    case Arr(items) => items == [] || (|items| == 1 && FitsLine(items[0]))
    case Obj(fields) => fields == [] || (|fields| == 1 && FitsLine(fields[0].value))
    case _ => true
  }

  function Indented(ls: seq<string>, indent: string): (r: seq<string>)
    ensures |r| == |ls|
  {
    seq(|ls|, i requires 0 <= i < |ls| => indent + ls[i])
  }

  /** The lines of one entry: the key on the first, a comma on the last unless it is the last
      entry. */
  function Entry(ls: seq<string>, first: string, more: bool): (r: seq<string>)
    requires ls != []
    ensures |r| == |ls|
  {
    Comma([first + ls[0]] + ls[1..], more)
  }

  function Comma(ls: seq<string>, more: bool): (r: seq<string>)
    requires ls != []
    ensures |r| == |ls|
  {
    ls[|ls| - 1 := ls[|ls| - 1] + if more then "," else ""]
  }

  function Lines<N>(v: Json<N>, nums: Numbers<N>, indent: string): (r: seq<string>)
    ensures r != []
    decreases v, 1
  {
    if FitsLine(v) then [OneLine(v, nums, " ")]
    else match v
      case Arr(items) => ["["] + Indented(ItemLines(items, nums, indent), indent) + ["]"]
      case Obj(fields) => ["{"] + Indented(FieldLines(fields, nums, indent), indent) + ["}"]
      case _ => [OneLine(v, nums, " ")]
  }

  function ItemLines<N>(items: seq<Json<N>>, nums: Numbers<N>, indent: string): seq<string>
    decreases items, 0
  {
    if items == [] then []
    else Entry(Lines(items[0], nums, indent), "", |items| > 1) + ItemLines(items[1..], nums, indent)
  }

  function FieldLines<N>(fields: seq<Field<N>>, nums: Numbers<N>, indent: string): seq<string>
    decreases fields, 0
  {
    if fields == [] then []
    else Entry(Lines(fields[0].value, nums, indent), KeyText(fields[0], " "), |fields| > 1)
         + FieldLines(fields[1..], nums, indent)
  }

  /** Lines put one below the other. */
  function Below(ls: seq<string>, eol: string): string
    requires ls != []
  {
    if |ls| == 1 then ls[0] else ls[0] + eol + Below(ls[1..], eol)
  }

  // ---------- the printer follows it ----------

  lemma {:induction false} TrivialFits<N>(v: Json<N>)
    ensures FitsLine(v) <==> IsTrivial(v)
  {
    match v
    case Arr(items) => if |items| == 1 { TrivialFits(items[0]); }
    case Obj(fields) => if |fields| == 1 { TrivialFits(fields[0].value); }
    case _ =>
  }

  /** Without line ends and indentation, anything is printed on one line. */
  lemma {:induction false} PrintsOneLine<N>(v: Json<N>, nums: Numbers<N>, st: Style)
    requires st.eol == "" && st.curr == "" && (st.indent == "" || IsTrivial(v))
    ensures Print(v, nums, st) == OneLine(v, nums, st.colon)
    decreases v, 1
  {
    InnerPlain(v, st);
    match v
    case Arr(items) =>
      ItemsOneLine(items, nums, Inner(v, st));
      Bare("[", CommaItems(items, nums, st.colon), "]");
    case Obj(fields) =>
      FieldsOneLine(fields, nums, Inner(v, st));
      Bare("{", CommaFields(fields, nums, st.colon), "}");
    case _ =>
  }

  lemma InnerPlain<N>(v: Json<N>, st: Style)
    requires st.eol == "" && st.curr == "" && (st.indent == "" || IsTrivial(v))
    ensures var s := Inner(v, st);
            s.eol == "" && s.curr == "" && s.indent == st.indent && s.colon == st.colon && Closing(v, st) == ""
  {
  }

  lemma Bare(open: string, s: string, close: string)
    ensures open + ("" + s + "" + close) == open + s + close
  {
  }

  lemma {:induction false} ItemsOneLine<N>(items: seq<Json<N>>, nums: Numbers<N>, st: Style)
    requires st.eol == "" && st.curr == "" && (st.indent == "" || forall i :: i in items ==> IsTrivial(i))
    ensures PrintItems(items, nums, st) == CommaItems(items, nums, st.colon)
    decreases items, 0
  {
    if items != [] {
      PrintsOneLine(items[0], nums, st);
      ItemsOneLine(items[1..], nums, st);
    }
  }

  lemma {:induction false} FieldsOneLine<N>(fields: seq<Field<N>>, nums: Numbers<N>, st: Style)
    requires st.eol == "" && st.curr == "" && (st.indent == "" || forall f :: f in fields ==> IsTrivial(f.value))
    ensures PrintFields(fields, nums, st) == CommaFields(fields, nums, st.colon)
    decreases fields, 0
  {
    if fields != [] {
      PrintsOneLine(fields[0].value, nums, st);
      FieldsOneLine(fields[1..], nums, st);
    }
  }

  lemma TrivialPrints<N>(v: Json<N>, nums: Numbers<N>, st: Style)
    requires IsTrivial(v)
    ensures Print(v, nums, st) == OneLine(v, nums, st.colon)
  {
    var plain := st.(eol := "", curr := "");
    assert Inner(v, st) == Inner(v, plain) && Closing(v, st) == Closing(v, plain) == "";
    PrintsOneLine(v, nums, plain);
  }

  /** Every line with its indentation in front and a line end behind. */
  function Each(ls: seq<string>, pre: string, eol: string): string {
    if ls == [] then "" else pre + ls[0] + eol + Each(ls[1..], pre, eol)
  }

  lemma {:induction false} EachAppend(a: seq<string>, b: seq<string>, pre: string, eol: string)
    ensures Each(a + b, pre, eol) == Each(a, pre, eol) + Each(b, pre, eol)
    decreases |a|
  {
    if a == [] {
      assert a + b == b;
    } else {
      assert (a + b)[1..] == a[1..] + b;
      EachAppend(a[1..], b, pre, eol);
      Assoc(pre + a[0] + eol, Each(a[1..], pre, eol), Each(b, pre, eol));
    }
  }

  lemma {:induction false} EachIndented(ls: seq<string>, indent: string, pre: string, eol: string)
    ensures Each(Indented(ls, indent), pre, eol) == Each(ls, pre + indent, eol)
  {
    if ls != [] {
      assert Indented(ls, indent)[1..] == Indented(ls[1..], indent);
      EachIndented(ls[1..], indent, pre, eol);
      assert pre + (indent + ls[0]) == pre + indent + ls[0];
    }
  }

  lemma {:induction false} EachComma(ls: seq<string>, more: bool, pre: string, eol: string)
    requires ls != []
    ensures pre + Below(ls, eol + pre) + Separator(more) + eol == Each(Comma(ls, more), pre, eol)
    decreases |ls|
  {
    var c := Comma(ls, more);
    if |ls| == 1 {
      assert c[1..] == [] && c[0] == ls[0] + Separator(more);
      assert pre + ls[0] + Separator(more) + eol == pre + (ls[0] + Separator(more)) + eol;
      assert pre + c[0] + eol + "" == pre + c[0] + eol;
    } else {
      assert c[0] == ls[0] && c[1..] == Comma(ls[1..], more);
      EachComma(ls[1..], more, pre, eol);
      Regroup(pre, ls[0], eol, Below(ls[1..], eol + pre), Separator(more));
    }
  }

  lemma Regroup(pre: string, l: string, eol: string, rest: string, sep: string)
    ensures pre + (l + (eol + pre) + rest) + sep + eol == pre + l + eol + (pre + rest + sep + eol)
  {
  }

  lemma BelowKeyed(ls: seq<string>, first: string, eol: string)
    requires ls != []
    ensures Below([first + ls[0]] + ls[1..], eol) == first + Below(ls, eol)
  {
    var k := [first + ls[0]] + ls[1..];
    assert k[1..] == ls[1..];
    if |ls| > 1 {
      assert (first + ls[0]) + eol + Below(ls[1..], eol) == first + (ls[0] + eol + Below(ls[1..], eol));
    }
  }

  lemma EachEntry(ls: seq<string>, first: string, more: bool, pre: string, eol: string)
    requires ls != []
    ensures pre + (first + Below(ls, eol + pre)) + Separator(more) + eol == Each(Entry(ls, first, more), pre, eol)
  {
    BelowKeyed(ls, first, eol + pre);
    EachComma([first + ls[0]] + ls[1..], more, pre, eol);
  }

  /** Brackets around lines that each end. */
  lemma {:induction false} BelowEach(ls: seq<string>, close: string, pre: string, eol: string)
    ensures Below(ls + [close], eol + pre) == if ls == [] then close
                                             else ls[0] + eol + Each(ls[1..], pre, eol) + pre + close
    decreases |ls|
  {
    var s := ls + [close];
    if ls != [] {
      assert s[1..] == ls[1..] + [close];
      BelowEach(ls[1..], close, pre, eol);
      if |ls| == 1 {
        assert ls[0] + (eol + pre) + close == ls[0] + eol + "" + pre + close;
      } else {
        var rest := Each(ls[2..], pre, eol);
        assert ls[1..][1..] == ls[2..];
        assert ls[0] + (eol + pre) + (ls[1] + eol + rest + pre + close)
               == ls[0] + eol + (pre + ls[1] + eol + rest) + pre + close;
      }
    }
  }

  lemma Framed(open: string, ls: seq<string>, close: string, pre: string, eol: string)
    ensures Below([open] + ls + [close], eol + pre) == open + (eol + Each(ls, pre, eol) + pre + close)
  {
    BelowEach([open] + ls, close, pre, eol);
    assert ([open] + ls)[1..] == ls;
    var e := Each(ls, pre, eol);
    assert open + eol + e + pre + close == open + (eol + e + pre + close);
  }

  /** A value printed at some indentation is its lines, each one there. */
  lemma {:induction false} PrintsLines<N>(v: Json<N>, nums: Numbers<N>, st: Style)
    requires st.colon == " "
    ensures Print(v, nums, st) == Below(Lines(v, nums, st.indent), st.eol + st.curr)
    decreases v, 1
  {
    TrivialFits(v);
    if IsTrivial(v) {
      TrivialPrints(v, nums, st);
    } else {
      var s := Inner(v, st);
      match v
      case Arr(items) =>
        ItemsLines(items, nums, s);
        EachIndented(ItemLines(items, nums, st.indent), st.indent, st.curr, st.eol);
        Framed("[", Indented(ItemLines(items, nums, st.indent), st.indent), "]", st.curr, st.eol);
      case Obj(fields) =>
        FieldsLines(fields, nums, s);
        EachIndented(FieldLines(fields, nums, st.indent), st.indent, st.curr, st.eol);
        Framed("{", Indented(FieldLines(fields, nums, st.indent), st.indent), "}", st.curr, st.eol);
      case _ =>
    }
  }

  lemma {:induction false} ItemsLines<N>(items: seq<Json<N>>, nums: Numbers<N>, st: Style)
    requires st.colon == " "
    ensures PrintItems(items, nums, st) == Each(ItemLines(items, nums, st.indent), st.curr, st.eol)
    decreases items, 0
  {
    if items != [] {
      var ls := Lines(items[0], nums, st.indent);
      PrintsLines(items[0], nums, st);
      ItemsLines(items[1..], nums, st);
      EachEntry(ls, "", |items| > 1, st.curr, st.eol);
      assert "" + Below(ls, st.eol + st.curr) == Below(ls, st.eol + st.curr);
      EachAppend(Entry(ls, "", |items| > 1), ItemLines(items[1..], nums, st.indent), st.curr, st.eol);
    }
  }

  lemma {:induction false} FieldsLines<N>(fields: seq<Field<N>>, nums: Numbers<N>, st: Style)
    requires st.colon == " "
    ensures PrintFields(fields, nums, st) == Each(FieldLines(fields, nums, st.indent), st.curr, st.eol)
    decreases fields, 0
  {
    if fields != [] {
      var ls, key := Lines(fields[0].value, nums, st.indent), KeyText(fields[0], " ");
      PrintsLines(fields[0].value, nums, st);
      FieldsLines(fields[1..], nums, st);
      EachEntry(ls, key, |fields| > 1, st.curr, st.eol);
      EachAppend(Entry(ls, key, |fields| > 1), FieldLines(fields[1..], nums, st.indent), st.curr, st.eol);
    }
  }

  /** The two marshal entry points. */
  lemma MarshalLayout<N>(v: Json<N>, nums: Numbers<N>, prefix: string, indent: string)
    ensures MarshalOrdered(v, nums) == OneLine(v, nums, "")
    ensures MarshalOrderedIndent(v, nums, prefix, indent) == Below(Lines(v, nums, indent), "\n" + prefix)
  {
    PrintsOneLine(v, nums, Style("", "", "", ""));
    PrintsLines(v, nums, Style("\n" + prefix, indent, "", " "));
    assert "\n" + prefix + "" == "\n" + prefix;
  }
}
