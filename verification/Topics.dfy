/**
 Full topic names (pkg/rkcy/topics.go): "rkcy", platform, environment, concern, concern
 type, topic and a zero-padded generation, joined by dots.
 */
module Topics {
  import opened Wrappers
  import opened Seqs
  import opened ApecsTxns

  const RKCY := "rkcy"
  const TWO31 := 0x8000_0000
  const TWO32 := 0x1_0000_0000
  const TWO63 := 0x8000_0000_0000_0000

  datatype ConcernType = GENERAL | BATCH | APECS

  function TypeName(t: ConcernType): string {
    match t case GENERAL => "GENERAL" case BATCH => "BATCH" case APECS => "APECS"
  }

  function TypeValue(s: string): Option<ConcernType> {
    if s == "GENERAL" then Some(GENERAL) else if s == "BATCH" then Some(BATCH) else if s == "APECS" then Some(APECS)
    else None
  }

  predicate IsLetter(c: char) { 'a' <= c <= 'z' || 'A' <= c <= 'Z' }

  /** A letter, then one to fifteen letters or hyphens. */
  predicate IsValidName(name: string) {
    && 2 <= |name| <= 16 && IsLetter(name[0])
    && forall i :: 1 <= i < |name| ==> IsLetter(name[i]) || name[i] == '-'
  }

  /** Two to sixteen characters, no digit, no hyphen in front. */
  lemma NameLimits(rest: string)
    requires forall i :: 0 <= i < |rest| ==> rest[i] == '-' || rest[i] == 'z' || rest[i] == 'A'
    ensures IsValidName("a" + rest) <==> 1 <= |rest| <= 15
    ensures !IsValidName("-" + rest) && !IsValidName("a" + rest + "0") && !IsValidName("a" + rest + "_")
  {
    var name, digit, score := "a" + rest, "a" + rest + "0", "a" + rest + "_";
    assert forall i :: 1 <= i < |name| ==> name[i] == rest[i - 1];
    assert digit[|digit| - 1] == '0' && score[|score| - 1] == '_';
  }

  // ---------- decimal numbers ----------

  predicate IsDigit(c: char) { '0' <= c <= '9' }

  function DigitChar(d: int): (c: char)
    requires 0 <= d < 10
    ensures IsDigit(c) && c as int - '0' as int == d
  {
    ('0' as int + d) as char
  }

  function Decimal(n: nat): (s: string)
    ensures |s| > 0 && forall i :: 0 <= i < |s| ==> IsDigit(s[i])
  {
    if n < 10 then [DigitChar(n)] else Decimal(n / 10) + [DigitChar(n % 10)]
  }

  /** %04d of a positive number. */
  function Padded(n: nat): string { ZeroPad(Decimal(n)) }

  function ZeroPad(s: string): string
    decreases 4 - |s|
  {
    if |s| >= 4 then s else ZeroPad("0" + s)
  }

  predicate AllDigits(s: string) { forall i :: 0 <= i < |s| ==> IsDigit(s[i]) }

  function DigitsValue(s: string): nat
    requires AllDigits(s)
  {
    if s == "" then 0 else var n := |s| - 1; 10 * DigitsValue(s[..n]) + (s[n] as int - '0' as int)
  }

  /** strconv.Atoi: an optional sign and digits, within 64 bits. */
  function Atoi(s: string): Option<int> {
    var signed := s != "" && (s[0] == '-' || s[0] == '+');
    var digits := if signed then s[1..] else s;
    if digits == "" || !AllDigits(digits) then None
    else
      var v := if signed && s[0] == '-' then 0 - DigitsValue(digits) else DigitsValue(digits);
      if -TWO63 <= v < TWO63 then Some(v) else None
  }

  /** A sign in front of digits is read. */
  lemma AtoiSigns(digits: string)
    requires AllDigits(digits) && digits != "" && DigitsValue(digits) < TWO63
    ensures Atoi(digits) == Some(DigitsValue(digits)) == Atoi("+" + digits)
    ensures Atoi("-" + digits) == Some(0 - DigitsValue(digits) as int)
    ensures Atoi("") == Atoi("+") == Atoi("-") == None
  {
    var plus, minus := "+" + digits, "-" + digits;
    assert plus[1..] == digits && minus[1..] == digits;
    assert IsDigit(digits[0]);
  }

  /** Nothing but a digit may stand behind a digit or the sign. */
  lemma AtoiDigits(digits: string, c: char)
    requires AllDigits(digits) && digits != "" && !IsDigit(c)
    ensures Atoi(digits + [c]) == None && Atoi("-" + [c] + digits) == None
  {
    var behind, twice := digits + [c], "-" + [c] + digits;
    assert behind[|digits|] == c && IsDigit(behind[0]);
    assert twice[1..][0] == c;
  }

  /** int32(x) of a 64-bit number. */
  function Int32(x: int): int { (x + TWO31) % TWO32 - TWO31 }

  lemma {:induction false} DecimalValue(n: nat)
    ensures DigitsValue(Decimal(n)) == n
  {
    var s := Decimal(n);
    if n >= 10 {
      DecimalValue(n / 10);
      assert s[..|s| - 1] == Decimal(n / 10);
    }
  }

  lemma {:induction false} LeadingZero(s: string)
    requires AllDigits(s)
    ensures DigitsValue("0" + s) == DigitsValue(s)
    decreases |s|
  {
    var z := "0" + s;
    if s == "" {
      assert z[..0] == "";
    } else {
      assert z[..|z| - 1] == "0" + s[..|s| - 1];
      LeadingZero(s[..|s| - 1]);
    }
  }

  /** The generation is read back from its padded form. */
  lemma PaddedAtoi(n: nat)
    requires n < TWO63
    ensures Atoi(Padded(n)) == Some(n) && AllDigits(Padded(n))
  {
    PaddedValue(n);
    assert IsDigit(Padded(n)[0]);
  }

  /** Four digits, and more only where the number needs them. */
  lemma PaddedWidth(n: nat)
    ensures |Padded(n)| >= 4 && (|Padded(n)| > 4 ==> Padded(n) == Decimal(n))
  {
    ZeroPadWidth(Decimal(n));
  }

  lemma {:induction false} ZeroPadWidth(s: string)
    ensures |s| >= 4 ==> ZeroPad(s) == s
    ensures |s| < 4 ==> |ZeroPad(s)| == 4
    decreases 4 - |s|
  {
    if |s| < 4 {
      ZeroPadWidth("0" + s);
    }
  }

  lemma PaddedValue(n: nat)
    ensures AllDigits(Padded(n)) && Padded(n) != "" && DigitsValue(Padded(n)) == n
  {
    DecimalValue(n);
    ZeroPadValue(Decimal(n));
  }

  lemma {:induction false} ZeroPadValue(s: string)
    requires AllDigits(s) && s != ""
    ensures AllDigits(ZeroPad(s)) && ZeroPad(s) != "" && DigitsValue(ZeroPad(s)) == DigitsValue(s)
    decreases 4 - |s|
  {
    if |s| < 4 {
      LeadingZero(s);
      ZeroPadValue("0" + s);
    }
  }

  // ---------- names ----------

  /** strings.Join, with a one-character separator. */
  function Join(parts: seq<string>, sep: char): string
    requires parts != []
  {
    if |parts| == 1 then parts[0] else parts[0] + [sep] + Join(parts[1..], sep)
  }

  function IndexOf(s: string, sep: char): (i: nat)
    ensures i <= |s| && (i < |s| ==> s[i] == sep) && forall j :: 0 <= j < i ==> s[j] != sep
  {
    if s == "" || s[0] == sep then 0 else 1 + IndexOf(s[1..], sep)
  }

  /** strings.Split, with a one-character separator. */
  function Split(s: string, sep: char): (r: seq<string>)
    ensures r != []
    decreases |s|
  {
    var i := IndexOf(s, sep);
    if i == |s| then [s] else [s[..i]] + Split(s[i + 1..], sep)
  }

  predicate FreeOf(s: string, c: char) { c !in s }

  lemma SeparatorAfter(a: string, sep: char, rest: string)
    requires FreeOf(a, sep)
    ensures IndexOf(a + [sep] + rest, sep) == |a| && IndexOf(a, sep) == |a|
    decreases |a|
  {
    var s := a + [sep] + rest;
    assert forall j :: 0 <= j < |a| ==> s[j] == a[j] && s[j] in a;
    assert s[|a|] == sep;
  }

  lemma Around<T>(a: seq<T>, d: T, rest: seq<T>)
    ensures var s := a + [d] + rest; s[..|a|] == a && s[|a| + 1..] == rest
  {
  }

  lemma SplitFirst(a: string, sep: char, rest: string)
    requires FreeOf(a, sep)
    ensures Split(a + [sep] + rest, sep) == [a] + Split(rest, sep) && Split(a, sep) == [a]
  {
    SeparatorAfter(a, sep, rest);
    Around(a, sep, rest);
  }

  lemma {:induction false} SplitJoin(parts: seq<string>, sep: char)
    requires parts != [] && forall i :: 0 <= i < |parts| ==> FreeOf(parts[i], sep)
    ensures Split(Join(parts, sep), sep) == parts
    decreases |parts|
  {
    var a, more := parts[0], parts[1..];
    if |parts| == 1 {
      SplitFirst(a, sep, "");
      assert parts == [a];
    } else {
      assert forall i :: 0 <= i < |more| ==> more[i] == parts[i + 1];
      SplitJoin(more, sep);
      SplitFirst(a, sep, Join(more, sep));
      assert parts == [a] + more;
    }
  }

  lemma {:induction false} JoinSplit(s: string, sep: char)
    ensures Join(Split(s, sep), sep) == s && forall i :: 0 <= i < |Split(s, sep)| ==> FreeOf(Split(s, sep)[i], sep)
    decreases |s|
  {
    var i := IndexOf(s, sep);
    if i < |s| {
      JoinSplit(s[i + 1..], sep);
      assert s == s[..i] + [sep] + s[i + 1..];
    }
  }

  lemma {:induction false} JoinAppend(parts: seq<string>, sep: char, x: string)
    requires parts != []
    ensures Join(parts + [x], sep) == Join(parts, sep) + [sep] + x
  {
    var all := parts + [x];
    assert all[1..] == parts[1..] + [x];
    if |parts| == 1 {
      assert Join(all[1..], sep) == x;
    } else {
      JoinAppend(parts[1..], sep, x);
      Assoc5(parts[0], [sep], Join(parts[1..], sep), [sep], x);
    }
  }

  lemma ValidNameFree(name: string)
    requires IsValidName(name)
    ensures FreeOf(name, '.') && FreeOf(name, ' ')
  {
  }

  /** None is a fatal log message. */
  function BuildTopicNamePrefix(platform: string, environment: string, concern: string,
                                concernType: ConcernType): Option<string> {
    if !IsValidName(platform) || !IsValidName(environment) || !IsValidName(concern)
        || !IsValidName(TypeName(concernType)) then None
    else Some(Join([RKCY, platform, environment, concern, TypeName(concernType)], '.'))
  }

  function BuildTopicName(prefix: string, name: string, generation: int): Option<string> {
    if !IsValidName(name) || generation <= 0 then None else Some(prefix + "." + name + "." + Padded(generation))
  }

  function BuildFullTopicName(platform: string, environment: string, concern: string, concernType: ConcernType,
                              name: string, generation: int): Option<string> {
    if !IsValidName(name) || generation <= 0 then None
    else
      var prefix := BuildTopicNamePrefix(platform, environment, concern, concernType);
      if prefix.None? then None else BuildTopicName(prefix.value, name, generation)
  }

  datatype TopicParts = TopicParts(
    fullTopic: string,
    platform: string,
    environment: string,
    concern: string,
    topic: string,
    system: System,
    concernType: ConcernType,
    generation: int)

  function SystemOf(topic: string): System {
    if topic == "process" then Process else if topic == "storage" then Storage
    else if topic == "storage-scnd" then StorageScnd else NoSystem
  }

  /** The topics of the three systems; every other topic has none. */
  predicate IsSystemOf(system: System, topic: string) {
    && (system == Process <==> topic == "process") && (system == Storage <==> topic == "storage")
    && (system == StorageScnd <==> topic == "storage-scnd")
  }

  function ParseParts(fullTopic: string, parts: seq<string>): Option<TopicParts> {
    if |parts| != 7 || parts[0] != RKCY then None
    else if !IsValidName(parts[1]) || !IsValidName(parts[2]) || !IsValidName(parts[3])
        || !IsValidName(parts[5]) then None
    else if TypeValue(parts[4]).None? || Atoi(parts[6]).None? then None
    else
      var generation := Int32(Atoi(parts[6]).value);
      if generation < 0 then None
      else Some(TopicParts(fullTopic, parts[1], parts[2], parts[3], parts[5], SystemOf(parts[5]),
                           TypeValue(parts[4]).value, generation))
  }

  function ParseFullTopicName(fullTopic: string): Option<TopicParts> { ParseParts(fullTopic, Split(fullTopic, '.')) }

  lemma TypeRoundTrip(t: ConcernType)
    ensures IsValidName(TypeName(t)) && TypeValue(TypeName(t)) == Some(t)
  {
  }

  function NameParts(platform: string, environment: string, concern: string, concernType: ConcernType, name: string,
                     generation: string): seq<string> {
    [RKCY, platform, environment, concern, TypeName(concernType), name, generation]
  }

  lemma NameJoin(platform: string, environment: string, concern: string, concernType: ConcernType, name: string,
                 g: string)
    ensures Join(NameParts(platform, environment, concern, concernType, name, g), '.')
            == Join([RKCY, platform, environment, concern, TypeName(concernType)], '.') + "." + name + "." + g
  {
    var p := [RKCY, platform, environment, concern, TypeName(concernType)];
    JoinAppend(p, '.', name);
    JoinAppend(p + [name], '.', g);
    assert p + [name] + [g] == NameParts(platform, environment, concern, concernType, name, g);
  }

  /** The parts a full name is made of. */
  lemma NameParts7(platform: string, environment: string, concern: string, name: string, generation: int)
    requires IsValidName(platform) && IsValidName(environment) && IsValidName(concern) && IsValidName(name)
             && generation > 0
    ensures BuildFullTopicName(platform, environment, concern, APECS, name, generation)
            == Some(Join(["rkcy", platform, environment, concern, "APECS", name, Padded(generation)], '.'))
    ensures BuildFullTopicName(platform, environment, concern, BATCH, name, generation)
            == Some(Join(["rkcy", platform, environment, concern, "BATCH", name, Padded(generation)], '.'))
    ensures BuildFullTopicName(platform, environment, concern, GENERAL, name, generation)
            == Some(Join(["rkcy", platform, environment, concern, "GENERAL", name, Padded(generation)], '.'))
  {
    NameJoin(platform, environment, concern, APECS, name, Padded(generation));
    NameJoin(platform, environment, concern, BATCH, name, Padded(generation));
    NameJoin(platform, environment, concern, GENERAL, name, Padded(generation));
  }

  /** Every valid name is built, and parsing recovers all of its parts. */
  lemma ParseBuild(platform: string, environment: string, concern: string, concernType: ConcernType, name: string,
                   generation: int)
    requires IsValidName(platform) && IsValidName(environment) && IsValidName(concern) && IsValidName(name)
             && 1 <= generation < TWO31
    ensures var full := BuildFullTopicName(platform, environment, concern, concernType, name, generation);
            && full.Some?
            && var tp := ParseFullTopicName(full.value);
               && tp.Some? && IsSystemOf(tp.value.system, name)
               && tp.value == TopicParts(full.value, platform, environment, concern, name, tp.value.system, concernType,
                                         generation)
  {
    var g := Padded(generation);
    NameJoin(platform, environment, concern, concernType, name, g);
    PaddedAtoi(generation);
    SplitName(platform, environment, concern, concernType, name, g);
    TypeRoundTrip(concernType);
    PartsParse(Join(NameParts(platform, environment, concern, concernType, name, g), '.'), platform, environment,
               concern, concernType, name, generation);
  }

  lemma PartsParse(full: string, platform: string, environment: string, concern: string, concernType: ConcernType,
                   name: string, generation: int)
    requires IsValidName(platform) && IsValidName(environment) && IsValidName(concern) && IsValidName(name)
             && 1 <= generation < TWO31
    ensures ParseParts(full, NameParts(platform, environment, concern, concernType, name, Padded(generation)))
            == Some(TopicParts(full, platform, environment, concern, name, SystemOf(name), concernType, generation))
  {
    PaddedAtoi(generation);
    TypeRoundTrip(concernType);
  }

  lemma SplitName(platform: string, environment: string, concern: string, concernType: ConcernType, name: string,
                  g: string)
    requires IsValidName(platform) && IsValidName(environment) && IsValidName(concern) && IsValidName(name)
             && AllDigits(g)
    ensures var parts := NameParts(platform, environment, concern, concernType, name, g);
            Split(Join(parts, '.'), '.') == parts
  {
    var parts := NameParts(platform, environment, concern, concernType, name, g);
    ValidNameFree(platform);
    ValidNameFree(environment);
    ValidNameFree(concern);
    ValidNameFree(name);
    assert FreeOf(TypeName(concernType), '.') && FreeOf(RKCY, '.') && FreeOf(g, '.');
    SplitJoin(parts, '.');
  }

  /** Whatever parses has the form of a built name, up to how the generation is written. */
  lemma BuildParse(full: string)
    requires ParseFullTopicName(full).Some?
    ensures var tp := ParseFullTopicName(full).value; var g := Split(full, '.')[|Split(full, '.')| - 1];
            && Atoi(g).Some? && Int32(Atoi(g).value) == tp.generation && 0 <= tp.generation < TWO31
            && BuildTopicNamePrefix(tp.platform, tp.environment, tp.concern, tp.concernType).Some?
            && full == BuildTopicNamePrefix(tp.platform, tp.environment, tp.concern,
                                            tp.concernType).value + "." + tp.topic + "." + g
            && (g == Padded(tp.generation) && tp.generation > 0 ==>
                  BuildFullTopicName(tp.platform, tp.environment, tp.concern, tp.concernType, tp.topic,
                                     tp.generation) == Some(full))
  {
    var p, tp := Split(full, '.'), ParseFullTopicName(full).value;
    JoinSplit(full, '.');
    TypeRoundTrip(tp.concernType);
    PartsNamed(full, p, tp);
    NameJoin(tp.platform, tp.environment, tp.concern, tp.concernType, tp.topic, p[6]);
  }

  lemma PartsNamed(full: string, p: seq<string>, tp: TopicParts)
    requires ParseParts(full, p) == Some(tp)
    ensures p == NameParts(tp.platform, tp.environment, tp.concern, tp.concernType, tp.topic, p[6])
    ensures Atoi(p[6]).Some? && Int32(Atoi(p[6]).value) == tp.generation && 0 <= tp.generation < TWO31
  {
    assert TypeName(tp.concernType) == p[4];
  }
}
