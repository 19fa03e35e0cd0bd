/** A parser for stable texts, and the round trip: for keys without quotes the text gives
    back the value with its entries sorted and undefined read as null. So two values have
    the same text only if they are the same up to the order of entries. */
module StableParser {
  import opened Common
  import opened StableText

  // ---------------------------------------------------------------------------
  // Numbers
  // ---------------------------------------------------------------------------

  function DigitValue(c: char): nat
    requires IsDigit(c)
  {
    c as int - '0' as int
  }

  function CountDigits(s: string): (n: nat)
    ensures n <= |s|
    ensures forall i :: 0 <= i < n ==> IsDigit(s[i])
    ensures n < |s| ==> !IsDigit(s[n])
  {
    if s == [] || !IsDigit(s[0]) then 0 else 1 + CountDigits(s[1..])
  }

  function NatOf(s: string): nat
    requires forall i :: 0 <= i < |s| ==> IsDigit(s[i])
  {
    if s == [] then 0 else NatOf(s[..|s| - 1]) * 10 + DigitValue(s[|s| - 1])
  }

  lemma {:induction false} NatRoundTrip(n: nat)
    ensures |PrintNat(n)| >= 1
    ensures forall i :: 0 <= i < |PrintNat(n)| ==> IsDigit(PrintNat(n)[i])
    ensures NatOf(PrintNat(n)) == n
  {
    if n < 10 {
      assert PrintNat(n)[..0] == [];
    } else {
      NatRoundTrip(n / 10);
      assert PrintNat(n)[..|PrintNat(n)| - 1] == PrintNat(n / 10);
    }
  }

  lemma {:induction false} DigitsThenOther(digits: string, rest: string)
    requires forall i :: 0 <= i < |digits| ==> IsDigit(digits[i])
    requires rest == [] || !IsDigit(rest[0])
    ensures CountDigits(digits + rest) == |digits|
  {
    if digits == [] {
      assert digits + rest == rest;
    } else {
      assert (digits + rest)[1..] == digits[1..] + rest;
      DigitsThenOther(digits[1..], rest);
    }
  }

  // ---------------------------------------------------------------------------
  // Strings
  // ---------------------------------------------------------------------------

  function HexValue(c: char): Option<nat> {
    if IsDigit(c) then Some(DigitValue(c))
    else if 'a' <= c <= 'f' then Some(c as int - 'a' as int + 10)
    else None
  }

  /** The character of a short escape. */
  function Unescape(c: char): Option<char> {
    if c == '"' || c == '\\' then Some(c)
    else if c == 'b' then Some(8 as char)
    else if c == 't' then Some(9 as char)
    else if c == 'n' then Some(10 as char)
    else if c == 'f' then Some(12 as char)
    else if c == 'r' then Some(13 as char)
    else None
  }

  datatype Parsed<+T> = Failure | Parsed(value: T, rest: string)

  /** Reads the rest of a string literal, after the opening quote. */
  function ParseString(s: string): (r: Parsed<string>)
    ensures r.Parsed? ==> |r.rest| < |s|
  {
    if s == [] then Failure
    else if s[0] == '"' then Parsed("", s[1..])
    else if s[0] != '\\' then
      var tail := ParseString(s[1..]);
      if tail.Failure? then Failure else Parsed([s[0]] + tail.value, tail.rest)
    else if |s| >= 2 && Unescape(s[1]).Some? then
      var tail := ParseString(s[2..]);
      if tail.Failure? then Failure else Parsed([Unescape(s[1]).value] + tail.value, tail.rest)
    else if |s| >= 6 && s[1..4] == "u00" && HexValue(s[4]).Some? && HexValue(s[5]).Some? then
      var tail := ParseString(s[6..]);
      if tail.Failure? then Failure
      else Parsed([(HexValue(s[4]).value * 16 + HexValue(s[5]).value) as char] + tail.value, tail.rest)
    else Failure
  }

  lemma HexRoundTrip(d: nat)
    requires d < 16
    ensures HexValue(HexChar(d)) == Some(d)
  {
  }

  /** A literal that goes on with the character c before more. */
  function Prepended(c: char, tail: Parsed<string>): Parsed<string> {
    if tail.Failure? then Failure else Parsed([c] + tail.value, tail.rest)
  }

  lemma PlainStep(c: char, more: string)
    requires c != '"' && c != '\\'
    ensures ParseString([c] + more) == Prepended(c, ParseString(more))
  {
    assert ([c] + more)[1..] == more;
  }

  lemma ShortStep(e: char, more: string)
    requires Unescape(e).Some?
    ensures ParseString(['\\', e] + more) == Prepended(Unescape(e).value, ParseString(more))
  {
    var s := ['\\', e] + more;
    assert s[0] == '\\' && s[1] == e && s[2..] == more;
  }

  lemma HexStep(x: char, y: char, more: string)
    requires HexValue(x).Some? && HexValue(y).Some?
    ensures ParseString("\\u00" + [x, y] + more)
         == Prepended((HexValue(x).value * 16 + HexValue(y).value) as char, ParseString(more))
  {
    var s := "\\u00" + [x, y] + more;
    assert s[0] == '\\' && s[1] == 'u' && Unescape('u') == None;
    assert s[1..4] == "u00" && s[4] == x && s[5] == y && s[6..] == more;
  }

  lemma ControlStep(c: char, more: string)
    requires (c as int) < 32 && c as int != 8 && c as int != 9 && c as int != 10 && c as int != 12 && c as int != 13
    ensures ParseString(Escape(c) + more) == Prepended(c, ParseString(more))
  {
    hide ParseString, Prepended;
    var hi, lo := c as int / 16, c as int % 16;
    HexRoundTrip(hi);
    HexRoundTrip(lo);
    assert Escape(c) + more == "\\u00" + [HexChar(hi), HexChar(lo)] + more;
    HexStep(HexChar(hi), HexChar(lo), more);
  }

  /** One escaped character is read back as that character. */
  lemma EscapeStep(c: char, more: string)
    ensures ParseString(Escape(c) + more) == Prepended(c, ParseString(more))
  {
    hide ParseString, Prepended;
    if c == '"' || c == '\\' || c as int == 8 || c as int == 9 || c as int == 10 || c as int == 12 || c as int == 13 {
      var e := Escape(c)[1];
      assert Escape(c) == ['\\', e] && Unescape(e) == Some(c);
      ShortStep(e, more);
    } else if (c as int) < 32 {
      ControlStep(c, more);
    } else {
      PlainStep(c, more);
    }
  }

  lemma {:induction false} StringRoundTrip(t: string, rest: string)
    ensures ParseString(EscapeAll(t) + "\"" + rest) == Parsed(t, rest)
  {
    if t == [] {
      assert EscapeAll(t) + "\"" + rest == "\"" + rest;
    } else {
      var more := EscapeAll(t[1..]) + "\"" + rest;
      assert EscapeAll(t) + "\"" + rest == Escape(t[0]) + more;
      StringRoundTrip(t[1..], rest);
      EscapeStep(t[0], more);
      assert [t[0]] + t[1..] == t;
    }
  }

  // ---------------------------------------------------------------------------
  // Values
  // ---------------------------------------------------------------------------

  predicate StartsWith(s: string, p: string) { |p| <= |s| && s[..|p|] == p }

  /** A key ends at the next quote, whatever it contains. */
  function ParseKey(s: string): (r: Parsed<string>)
    ensures r.Parsed? ==> |r.rest| < |s|
  {
    if s == [] then Failure
    else if s[0] == '"' then Parsed("", s[1..])
    else
      var tail := ParseKey(s[1..]);
      if tail.Failure? then Failure else Parsed([s[0]] + tail.value, tail.rest)
  }

  function ParseDigits(s: string): (r: Parsed<nat>)
    ensures r.Parsed? ==> |r.rest| < |s|
  {
    var n := CountDigits(s);
    if n == 0 then Failure else Parsed(NatOf(s[..n]), s[n..])
  }

  function ParseNumber(s: string): (r: Parsed<Value>)
    ensures r.Parsed? ==> |r.rest| < |s|
  {
    var negative := s != [] && s[0] == '-';
    var digits := ParseDigits(if negative then s[1..] else s);
    if digits.Failure? then Failure
    else Parsed(Num(if negative then 0 - digits.value else digits.value), digits.rest)
  }

  function ParseValue(s: string): (r: Parsed<Value>)
    ensures r.Parsed? ==> |r.rest| < |s|
    decreases |s|, 1
  {
    if s == [] then Failure
    else if StartsWith(s, "null") then Parsed(Null, s[4..])
    else if StartsWith(s, "true") then Parsed(Bool(true), s[4..])
    else if StartsWith(s, "false") then Parsed(Bool(false), s[5..])
    else if s[0] == '"' then
      var t := ParseString(s[1..]);
      if t.Failure? then Failure else Parsed(Str(t.value), t.rest)
    else if s[0] == '[' then
      if |s| >= 2 && s[1] == ']' then Parsed(Arr([]), s[2..])
      else
        var t := ParseItems(s[1..]);
        if t.Failure? then Failure else Parsed(Arr(t.value), t.rest)
    else if s[0] == '{' then
      if |s| >= 2 && s[1] == '}' then Parsed(Obj([]), s[2..])
      else
        var t := ParseFields(s[1..]);
        if t.Failure? then Failure else Parsed(Obj(t.value), t.rest)
    else ParseNumber(s)
  }

  /** One or more items up to and including the closing bracket. */
  function ParseItems(s: string): (r: Parsed<seq<Value>>)
    ensures r.Parsed? ==> |r.rest| < |s|
    decreases |s|, 2
  {
    var head := ParseValue(s);
    if head.Failure? || head.rest == [] then Failure
    else if head.rest[0] == ']' then Parsed([head.value], head.rest[1..])
    else if head.rest[0] != ',' then Failure
    else
      var tail := ParseItems(head.rest[1..]);
      if tail.Failure? then Failure else Parsed([head.value] + tail.value, tail.rest)
  }

  /** One or more fields up to and including the closing brace. */
  function ParseFields(s: string): (r: Parsed<seq<Keyed<Value>>>)
    ensures r.Parsed? ==> |r.rest| < |s|
    decreases |s|, 2
  {
    if s == [] || s[0] != '"' then Failure
    else
      var key := ParseKey(s[1..]);
      if key.Failure? || key.rest == [] || key.rest[0] != ':' then Failure
      else
        var head := ParseValue(key.rest[1..]);
        if head.Failure? || head.rest == [] then Failure
        else if head.rest[0] == '}' then Parsed([Keyed(key.value, head.value)], head.rest[1..])
        else if head.rest[0] != ',' then Failure
        else
          var tail := ParseFields(head.rest[1..]);
          if tail.Failure? then Failure else Parsed([Keyed(key.value, head.value)] + tail.value, tail.rest)
  }

  // ---------------------------------------------------------------------------
  // The canonical form
  // ---------------------------------------------------------------------------

  /** Entries sorted at every depth, undefined replaced by null. */
  function Canon(less: KeyOrder, v: Value): Value
    decreases v, 1
  {
    match v
    case Undefined => Null
    case Arr(items) => Arr(CanonItems(less, items))
    case Obj(es) => Obj(Sort(less, CanonEntries(less, es)))
    case _ => v
  }

  function CanonItems(less: KeyOrder, items: seq<Value>): seq<Value>
    decreases items, 0
  {
    if items == [] then [] else [Canon(less, items[0])] + CanonItems(less, items[1..])
  }

  function CanonEntries(less: KeyOrder, es: seq<Keyed<Value>>): seq<Keyed<Value>>
    decreases es, 0
  {
    if es == [] then [] else [Keyed(es[0].key, Canon(less, es[0].value))] + CanonEntries(less, es[1..])
  }

  lemma {:induction false} SortThenCanon(less: KeyOrder, es: seq<Keyed<Value>>)
    ensures Sort(less, CanonEntries(less, es)) == CanonEntries(less, Sort(less, es))
  {
    if es != [] {
      SortThenCanon(less, es[1..]);
      InsertThenCanon(less, es[0], Sort(less, es[1..]));
    }
  }

  lemma {:induction false} InsertThenCanon(less: KeyOrder, x: Keyed<Value>, s: seq<Keyed<Value>>)
    ensures Insert(less, Keyed(x.key, Canon(less, x.value)), CanonEntries(less, s)) == CanonEntries(less, Insert(less, x, s))
  {
    if s == [] || less(x.key, s[0].key) {
      assert ([x] + s)[1..] == s;
    } else {
      InsertThenCanon(less, x, s[1..]);
      assert CanonEntries(less, s)[1..] == CanonEntries(less, s[1..]);
      assert ([s[0]] + Insert(less, x, s[1..]))[1..] == Insert(less, x, s[1..]);
    }
  }

  // ---------------------------------------------------------------------------
  // Round trip
  // ---------------------------------------------------------------------------

  predicate QuoteFree(key: string) { '"' !in key }

  ghost predicate QuoteFreeKeys(v: Value) {
    match v
    case Arr(items) => forall i :: 0 <= i < |items| ==> QuoteFreeKeys(items[i])
    case Obj(es) => forall i :: 0 <= i < |es| ==> QuoteFree(es[i].key) && QuoteFreeKeys(es[i].value)
    case _ => true
  }

  /** What may follow a value inside a text. */
  predicate Boundary(rest: string) {
    rest == [] || rest[0] == ',' || rest[0] == ']' || rest[0] == '}'
  }

  /** Value v is read back from its text, whatever follows. */
  ghost predicate ReadsBack(less: KeyOrder, v: Value) {
    forall rest {:trigger Boundary(rest)} :: Boundary(rest) ==> ParseValue(Print(less, v) + rest) == Parsed(Canon(less, v), rest)
  }

  lemma {:induction false} KeyRoundTrip(key: string, rest: string)
    requires QuoteFree(key)
    ensures ParseKey(key + "\"" + rest) == Parsed(key, rest)
  {
    if key == [] {
      assert key + "\"" + rest == "\"" + rest;
    } else {
      assert (key + "\"" + rest)[1..] == key[1..] + "\"" + rest;
      KeyRoundTrip(key[1..], rest);
      assert [key[0]] + key[1..] == key;
    }
  }

  /** The three words are told from everything else by their first letter. */
  lemma WordStarts(s: string)
    requires s != []
    ensures StartsWith(s, "null") ==> s[0] == 'n'
    ensures StartsWith(s, "true") ==> s[0] == 't'
    ensures StartsWith(s, "false") ==> s[0] == 'f'
  {
    assert s[0] == s[..1][0];
    if |s| >= 4 { assert s[..4][0] == s[0]; }
    if |s| >= 5 { assert s[..5][0] == s[0]; }
  }

  lemma NumberStarts(s: string)
    requires s != [] && (IsDigit(s[0]) || s[0] == '-')
    ensures ParseValue(s) == ParseNumber(s)
  {
    WordStarts(s);
  }

  lemma ReadsDigits(digits: string, rest: string)
    requires digits != [] && forall i :: 0 <= i < |digits| ==> IsDigit(digits[i])
    requires Boundary(rest)
    ensures ParseDigits(digits + rest) == Parsed(NatOf(digits), rest)
  {
    var s := digits + rest;
    DigitsThenOther(digits, rest);
    assert s[..|digits|] == digits && s[|digits|..] == rest;
  }

  lemma ReadsSigned(n: int, digits: string, rest: string)
    requires n < 0 && ParseDigits(digits + rest) == Parsed(-n, rest)
    ensures ParseNumber("-" + digits + rest) == Parsed(Num(n), rest)
  {
    hide ParseDigits;
    var s := "-" + digits + rest;
    assert s == ['-'] + (digits + rest);
    assert s[1..] == digits + rest;
  }

  lemma ReadsNumber(n: int, rest: string)
    requires Boundary(rest)
    ensures ParseValue(PrintInt(n) + rest) == Parsed(Num(n), rest)
  {
    var m: nat := if n < 0 then -n else n;
    NatRoundTrip(m);
    ReadsDigits(PrintNat(m), rest);
    NumberStarts(PrintInt(n) + rest);
    if n < 0 {
      ReadsSigned(n, PrintNat(m), rest);
    }
  }

  lemma ReadsString(t: string, rest: string)
    ensures ParseValue(Quote(t) + rest) == Parsed(Str(t), rest)
  {
    var s := Quote(t) + rest;
    assert s[1..] == EscapeAll(t) + "\"" + rest;
    StringRoundTrip(t, rest);
    WordStarts(s);
  }

  lemma ReadsWord(w: string, rest: string)
    requires w == "null" || w == "true" || w == "false"
    ensures ParseValue(w + rest) == Parsed(if w == "null" then Null else Bool(w == "true"), rest)
  {
    var s := w + rest;
    assert s[..|w|] == w && s[|w|..] == rest;
    WordStarts(s);
  }

  // Arrays

  lemma LastItem(s: string, v: Value, rest: string)
    requires ParseValue(s) == Parsed(v, "]" + rest)
    ensures ParseItems(s) == Parsed([v], rest)
  {
    assert ("]" + rest)[1..] == rest;
  }

  lemma NextItem(s: string, v: Value, more: string, vs: seq<Value>, rest: string)
    requires ParseValue(s) == Parsed(v, "," + more) && ParseItems(more) == Parsed(vs, rest)
    ensures ParseItems(s) == Parsed([v] + vs, rest)
  {
    assert ("," + more)[1..] == more;
  }

  lemma PrintItemsStep(less: KeyOrder, items: seq<Value>)
    requires items != []
    ensures PrintItems(less, items) == [Print(less, items[0])] + PrintItems(less, items[1..])
    ensures |PrintItems(less, items[1..])| == |items| - 1
  {
    hide Print;
    PrintItemsAt(less, items[1..]);
  }

  lemma ItemsText(less: KeyOrder, items: seq<Value>, rest: string)
    requires items != []
    ensures var head, text := Print(less, items[0]), Join(PrintItems(less, items)) + "]" + rest;
      text == head + if |items| == 1 then "]" + rest else "," + (Join(PrintItems(less, items[1..])) + "]" + rest)
  {
    hide Print, PrintItems, Join;
    PrintItemsStep(less, items);
    JoinClosed(Print(less, items[0]), PrintItems(less, items[1..]), "]", rest);
  }

  lemma JoinMore(head: string, tails: seq<string>)
    ensures Join([head] + tails) == if tails == [] then head else head + "," + Join(tails)
  {
    assert ([head] + tails)[1..] == tails;
  }

  lemma Regroup(a: string, b: string, c: string)
    ensures (a + b) + c == a + (b + c)
  {
  }

  lemma JoinClosed(head: string, tails: seq<string>, close: string, rest: string)
    ensures Join([head] + tails) + close + rest
            == head + if tails == [] then close + rest else "," + (Join(tails) + close + rest)
  {
    hide Join;
    JoinMore(head, tails);
    if tails == [] {
      Regroup(head, close, rest);
    } else {
      var t := Join(tails);
      Regroup(head, ",", t);
      Regroup(head, "," + t, close);
      Regroup(",", t, close);
      Regroup(head, "," + (t + close), rest);
      Regroup(",", t + close, rest);
    }
  }

  lemma {:induction false} ReadsItems(less: KeyOrder, items: seq<Value>, rest: string)
    requires items != [] && forall i :: 0 <= i < |items| ==> ReadsBack(less, items[i])
    ensures ParseItems(Join(PrintItems(less, items)) + "]" + rest) == Parsed(CanonItems(less, items), rest)
  {
    hide ParseItems, ParseValue, Print, PrintItems, Join;
    var head := Print(less, items[0]);
    assert ReadsBack(less, items[0]);
    ItemsText(less, items, rest);
    if |items| == 1 {
      assert Boundary("]" + rest);
      assert CanonItems(less, items) == [Canon(less, items[0])];
      LastItem(head + ("]" + rest), Canon(less, items[0]), rest);
    } else {
      var tail := Join(PrintItems(less, items[1..])) + "]" + rest;
      assert Boundary("," + tail);
      ReadsItems(less, items[1..], rest);
      NextItem(head + ("," + tail), Canon(less, items[0]), tail, CanonItems(less, items[1..]), rest);
    }
  }

  lemma ReadsArray(less: KeyOrder, items: seq<Value>, rest: string)
    requires forall i :: 0 <= i < |items| ==> ReadsBack(less, items[i])
    ensures ParseValue(Print(less, Arr(items)) + rest) == Parsed(Arr(CanonItems(less, items)), rest)
  {
    var body := Join(PrintItems(less, items)) + "]" + rest;
    var s := Print(less, Arr(items)) + rest;
    assert s == "[" + body;
    WordStarts(s);
    assert s[1..] == body;
    if items == [] {
      assert body == "]" + rest;
      assert s[2..] == rest;
    } else {
      ReadsItems(less, items, rest);
      assert body[0] != ']' by { NotClosing(less, items, rest); }
    }
  }

  lemma NotClosing(less: KeyOrder, items: seq<Value>, rest: string)
    requires items != [] && forall i :: 0 <= i < |items| ==> ReadsBack(less, items[i])
    ensures var body := Join(PrintItems(less, items)) + "]" + rest;
      body != [] && body[0] != ']'
  {
    ReadsItems(less, items, rest);
    ClosingIsNoValue(Join(PrintItems(less, items)) + "]" + rest);
  }

  lemma ClosingIsNoValue(s: string)
    requires s != []
    ensures s[0] == ']' ==> ParseValue(s).Failure?
  {
    WordStarts(s);
  }

  // Objects

  function FieldTexts(less: KeyOrder, es: seq<Keyed<Value>>): seq<string> {
    Fields(PrintEntries(less, es))
  }

  lemma FieldTextsStep(less: KeyOrder, es: seq<Keyed<Value>>)
    requires es != []
    ensures FieldTexts(less, es) == ["\"" + es[0].key + "\":" + Print(less, es[0].value)] + FieldTexts(less, es[1..])
  {
  }

  lemma ReadsField(less: KeyOrder, e: Keyed<Value>, rest: string)
    requires QuoteFree(e.key) && ReadsBack(less, e.value) && Boundary(rest)
    ensures var s := "\"" + e.key + "\":" + Print(less, e.value) + rest;
      && s[0] == '"'
      && ParseKey(s[1..]) == Parsed(e.key, ":" + (Print(less, e.value) + rest))
    ensures ParseValue(Print(less, e.value) + rest) == Parsed(Canon(less, e.value), rest)
  {
    hide Print, ParseValue, ParseKey;
    FieldStart(e.key, Print(less, e.value), rest);
    KeyRoundTrip(e.key, ":" + (Print(less, e.value) + rest));
  }

  lemma FieldStart(key: string, value: string, rest: string)
    ensures ("\"" + key + "\":" + value + rest)[1..] == key + "\"" + (":" + (value + rest))
  {
  }

  lemma LastField(s: string, text: string, e: Keyed<Value>, rest: string)
    requires s != [] && s[0] == '"' && ParseKey(s[1..]) == Parsed(e.key, ":" + text)
    requires ParseValue(text) == Parsed(e.value, "}" + rest)
    ensures ParseFields(s) == Parsed([e], rest)
  {
    hide ParseValue, ParseKey;
    assert (":" + text)[1..] == text;
    assert ("}" + rest)[1..] == rest;
  }

  lemma NextField(s: string, text: string, e: Keyed<Value>, more: string, es: seq<Keyed<Value>>, rest: string)
    requires s != [] && s[0] == '"' && ParseKey(s[1..]) == Parsed(e.key, ":" + text)
    requires ParseValue(text) == Parsed(e.value, "," + more) && ParseFields(more) == Parsed(es, rest)
    ensures ParseFields(s) == Parsed([e] + es, rest)
  {
    hide ParseValue, ParseKey;
    assert (":" + text)[1..] == text;
    assert ("," + more)[1..] == more;
  }

  lemma FieldsText(less: KeyOrder, es: seq<Keyed<Value>>, rest: string)
    requires es != []
    ensures var head, text := "\"" + es[0].key + "\":" + Print(less, es[0].value), Join(FieldTexts(less, es)) + "}" + rest;
      text == head + if |es| == 1 then "}" + rest else "," + (Join(FieldTexts(less, es[1..])) + "}" + rest)
  {
    hide Print, FieldTexts, Join;
    FieldTextsStep(less, es);
    FieldTextsLength(less, es[1..]);
    JoinClosed("\"" + es[0].key + "\":" + Print(less, es[0].value), FieldTexts(less, es[1..]), "}", rest);
  }

  lemma FieldTextsLength(less: KeyOrder, es: seq<Keyed<Value>>)
    ensures |FieldTexts(less, es)| == |es|
  {
    PrintEntriesAt(less, es);
  }

  lemma {:induction false} ReadsFields(less: KeyOrder, es: seq<Keyed<Value>>, rest: string)
    requires es != [] && forall i :: 0 <= i < |es| ==> QuoteFree(es[i].key) && ReadsBack(less, es[i].value)
    ensures ParseFields(Join(FieldTexts(less, es)) + "}" + rest) == Parsed(CanonEntries(less, es), rest)
  {
    hide ParseFields, ParseValue, ParseKey, Print, FieldTexts, Join;
    var e, value := Keyed(es[0].key, Canon(less, es[0].value)), Print(less, es[0].value);
    var head := "\"" + e.key + "\":" + value;
    FieldsText(less, es, rest);
    if |es| == 1 {
      ReadsField(less, es[0], "}" + rest);
      assert CanonEntries(less, es) == [e];
      LastField(head + ("}" + rest), value + ("}" + rest), e, rest);
    } else {
      var tail := Join(FieldTexts(less, es[1..])) + "}" + rest;
      ReadsField(less, es[0], "," + tail);
      ReadsFields(less, es[1..], rest);
      NextField(head + ("," + tail), value + ("," + tail), e, tail, CanonEntries(less, es[1..]), rest);
    }
  }

  lemma ReadsObject(less: KeyOrder, es: seq<Keyed<Value>>, rest: string)
    requires forall i :: 0 <= i < |es| ==> QuoteFree(es[i].key) && ReadsBack(less, es[i].value)
    ensures ParseValue("{" + Join(FieldTexts(less, es)) + "}" + rest) == Parsed(Obj(CanonEntries(less, es)), rest)
  {
    hide ParseFields, ParseItems, ParseString, ParseNumber, Print;
    var body := Join(FieldTexts(less, es)) + "}" + rest;
    var s := "{" + Join(FieldTexts(less, es)) + "}" + rest;
    assert s == "{" + body;
    WordStarts(s);
    assert s[1..] == body;
    if es == [] {
      assert body == "}" + rest;
      assert s[2..] == rest;
    } else {
      ReadsFields(less, es, rest);
      assert body[0] == '"' by { FieldTextsStep(less, es); }
    }
  }

  /** The text of a value with quote-free keys is read back as the canonical value. */
  lemma {:induction false} RoundTrip(less: KeyOrder, v: Value)
    requires QuoteFreeKeys(v)
    ensures ReadsBack(less, v)
    decreases v
  {
    forall rest | Boundary(rest) ensures ParseValue(Print(less, v) + rest) == Parsed(Canon(less, v), rest) {
      match v
      case Null => ReadsWord("null", rest);
      case Undefined => ReadsWord("null", rest);
      case Bool(b) => ReadsWord(if b then "true" else "false", rest);
      case Num(n) => ReadsNumber(n, rest);
      case Str(t) => ReadsString(t, rest);
      case Arr(items) =>
        forall i | 0 <= i < |items| ensures ReadsBack(less, items[i]) { RoundTrip(less, items[i]); }
        ReadsArray(less, items, rest);
      case Obj(es) =>
        forall i | 0 <= i < |es| ensures QuoteFree(es[i].key) && ReadsBack(less, es[i].value) { RoundTrip(less, es[i].value); }
        var sorted := Sort(less, es);
        SortElements(less, es);
        forall i | 0 <= i < |sorted| ensures QuoteFree(sorted[i].key) && ReadsBack(less, sorted[i].value) {
          assert sorted[i] in sorted;
          assert sorted[i] in es;
        }
        SortThenPrint(less, es);
        SortThenCanon(less, es);
        ReadsObject(less, sorted, rest);
    }
  }

  // ---------------------------------------------------------------------------
  // Equal texts mean equal values
  // ---------------------------------------------------------------------------

  lemma {:induction false} CanonItemsAt(less: KeyOrder, items: seq<Value>)
    ensures |CanonItems(less, items)| == |items|
    ensures forall i :: 0 <= i < |items| ==> CanonItems(less, items)[i] == Canon(less, items[i])
  {
    if items != [] { CanonItemsAt(less, items[1..]); }
  }

  lemma {:induction false} CanonEntriesAt(less: KeyOrder, es: seq<Keyed<Value>>)
    ensures |CanonEntries(less, es)| == |es|
    ensures forall i :: 0 <= i < |es| ==> CanonEntries(less, es)[i] == Keyed(es[i].key, Canon(less, es[i].value))
  {
    if es != [] { CanonEntriesAt(less, es[1..]); }
  }

  /** Entries with equal sorted canonical forms have the same keys and canonical values. */
  lemma SameCanonEntries(less: KeyOrder, es: seq<Keyed<Value>>, fs: seq<Keyed<Value>>, i: nat) returns (j: nat)
    requires Sort(less, CanonEntries(less, es)) == Sort(less, CanonEntries(less, fs)) && i < |es|
    ensures j < |fs| && fs[j].key == es[i].key && Canon(less, fs[j].value) == Canon(less, es[i].value)
  {
    CanonEntriesAt(less, es);
    CanonEntriesAt(less, fs);
    j := SortedAlike(less, CanonEntries(less, es), CanonEntries(less, fs), i);
  }

  lemma SortedAlike(less: KeyOrder, a: seq<Keyed<Value>>, b: seq<Keyed<Value>>, i: nat) returns (j: nat)
    requires Sort(less, a) == Sort(less, b) && i < |a|
    ensures j < |b| && b[j] == a[i]
  {
    SortElements(less, a);
    SortElements(less, b);
    assert a[i] in a;
    assert a[i] in b;
    j :| 0 <= j < |b| && b[j] == a[i];
  }

  lemma SameCanonKeys(less: KeyOrder, es: seq<Keyed<Value>>, fs: seq<Keyed<Value>>)
    requires DistinctKeys(es) && DistinctKeys(fs)
    requires Sort(less, CanonEntries(less, es)) == Sort(less, CanonEntries(less, fs))
    ensures AsMap(es).Keys <= AsMap(fs).Keys
  {
    AsMapAt(es);
    AsMapAt(fs);
    forall k | k in AsMap(es) ensures k in AsMap(fs) {
      var i :| 0 <= i < |es| && es[i].key == k;
      var _ := SameCanonEntries(less, es, fs, i);
    }
  }

  lemma {:induction false} SameCanonIsSame(less: KeyOrder, v: Value, w: Value)
    requires WellFormed(v) && WellFormed(w) && Canon(less, v) == Canon(less, w)
    ensures Same(v, w)
    decreases v
  {
    match v
    case Arr(items) =>
      CanonItemsAt(less, items);
      CanonItemsAt(less, w.items);
      forall i | 0 <= i < |items| ensures Same(items[i], w.items[i]) {
        assert CanonItems(less, items)[i] == CanonItems(less, w.items)[i];
        SameCanonIsSame(less, items[i], w.items[i]);
      }
    case Obj(es) => SameCanonObjects(less, es, w.entries);
    case _ =>
  }

  lemma {:induction false} SameCanonObjects(less: KeyOrder, es: seq<Keyed<Value>>, fs: seq<Keyed<Value>>)
    requires WellFormed(Obj(es)) && WellFormed(Obj(fs)) && Canon(less, Obj(es)) == Canon(less, Obj(fs))
    ensures SameEntries(es, fs)
    decreases es
  {
    DistinctEntries(es);
    DistinctEntries(fs);
    SameCanonKeys(less, es, fs);
    SameCanonKeys(less, fs, es);
    AsMapAt(fs);
    forall i | 0 <= i < |es| ensures es[i].key in AsMap(fs) && Same(es[i].value, AsMap(fs)[es[i].key]) {
      var j := SameCanonEntries(less, es, fs, i);
      assert WellFormed(es[i].value) && WellFormed(fs[j].value);
      SameCanonIsSame(less, es[i].value, fs[j].value);
    }
  }

  /** Main result: for quote-free keys two values have the same text exactly when they are
      the same up to the order of entries at any depth and up to undefined and null. */
  lemma TextIsCanonical(less: KeyOrder, v: Value, w: Value)
    requires StrictTotal(less) && WellFormed(v) && WellFormed(w) && QuoteFreeKeys(v) && QuoteFreeKeys(w)
    ensures Print(less, v) == Print(less, w) <==> Same(v, w)
  {
    if Same(v, w) {
      SamePrintsAlike(less, v, w);
    }
    if Print(less, v) == Print(less, w) {
      RoundTrip(less, v);
      RoundTrip(less, w);
      assert Boundary("");
      SameCanonIsSame(less, v, w);
    }
  }

  // ---------------------------------------------------------------------------
  // Keys with quotes
  // ---------------------------------------------------------------------------

  lemma SortedText(less: KeyOrder, es: seq<Keyed<Value>>)
    ensures Print(less, Obj(es)) == "{" + Join(FieldTexts(less, Sort(less, es))) + "}"
  {
    SortThenPrint(less, es);
  }

  /** Two texts in a row read like one text that contains the comma. */
  lemma JoinMerges(a: string, b: string, after: seq<string>)
    ensures Join([a, b] + after) == Join([a + "," + b] + after)
  {
    hide Join;
    assert [a, b] + after == [a] + ([b] + after);
    JoinMore(a, [b] + after);
    JoinMore(b, after);
    JoinMore(a + "," + b, after);
    Regroup(a + ",", b, "," + Join(after));
    Regroup(b, ",", Join(after));
    Regroup(a + "," + b, ",", Join(after));
  }

  /** A key that swallows a whole field: the first key, its value, and the second key. */
  function MergedKey(less: KeyOrder, x: Keyed<Value>, y: string): string {
    x.key + "\":" + Print(less, x.value) + ",\"" + y
  }

  lemma MergedField(less: KeyOrder, x: Keyed<Value>, y: Keyed<Value>)
    ensures var xt, yt := "\"" + x.key + "\":" + Print(less, x.value), "\"" + y.key + "\":" + Print(less, y.value);
      xt + "," + yt == "\"" + MergedKey(less, x, y.key) + "\":" + Print(less, y.value)
  {
    hide Print;
    var u, v := Print(less, x.value), Print(less, y.value);
    assert "\"" + x.key + "\":" + u + "," + ("\"" + y.key + "\":" + v)
        == "\"" + (x.key + "\":" + u + ",\"" + y.key) + "\":" + v;
  }

  function FieldText(less: KeyOrder, e: Keyed<Value>): string {
    "\"" + e.key + "\":" + Print(less, e.value)
  }

  /** All entries in one: its key contains everything up to the last entry's key. */
  function MergeAll(less: KeyOrder, es: seq<Keyed<Value>>): (z: Keyed<Value>)
    requires es != []
    ensures z.value == es[|es| - 1].value
    decreases |es|
  {
    if |es| == 1 then es[0]
    else MergeAll(less, [Keyed(MergedKey(less, es[0], es[1].key), es[1].value)] + es[2..])
  }

  lemma OneFieldText(less: KeyOrder, e: Keyed<Value>)
    ensures FieldTexts(less, [e]) == [FieldText(less, e)]
  {
    hide Print;
    FieldTextsStep(less, [e]);
    FieldTextsLength(less, [e][1..]);
    assert FieldTexts(less, [e][1..]) == [];
  }

  lemma FieldTextsCons(less: KeyOrder, e: Keyed<Value>, es: seq<Keyed<Value>>)
    ensures FieldTexts(less, [e] + es) == [FieldText(less, e)] + FieldTexts(less, es)
  {
    FieldTextsStep(less, [e] + es);
    assert ([e] + es)[1..] == es;
  }

  /** One merge leaves the text of a list of fields as it is. */
  lemma MergeStep(less: KeyOrder, x: Keyed<Value>, y: Keyed<Value>, after: seq<Keyed<Value>>)
    ensures Join(FieldTexts(less, [x] + ([y] + after)))
      == Join(FieldTexts(less, [Keyed(MergedKey(less, x, y.key), y.value)] + after))
  {
    hide FieldTexts, Join, Print, MergedKey;
    var z := Keyed(MergedKey(less, x, y.key), y.value);
    MergedField(less, x, y);
    FieldTextsCons(less, x, [y] + after);
    FieldTextsCons(less, y, after);
    FieldTextsCons(less, z, after);
    var a, b, rest := FieldText(less, x), FieldText(less, y), FieldTexts(less, after);
    assert [a] + ([b] + rest) == [a, b] + rest;
    JoinMerges(a, b, rest);
  }

  lemma {:induction false} MergeAllText(less: KeyOrder, es: seq<Keyed<Value>>)
    requires es != []
    ensures Join(FieldTexts(less, es)) == FieldText(less, MergeAll(less, es))
    decreases |es|
  {
    hide FieldTexts, Print, MergedKey, FieldText;
    if |es| == 1 {
      OneFieldText(less, es[0]);
      assert es == [es[0]];
    } else {
      assert es == [es[0]] + ([es[1]] + es[2..]);
      MergeStep(less, es[0], es[1], es[2..]);
      MergeAllText(less, [Keyed(MergedKey(less, es[0], es[1].key), es[1].value)] + es[2..]);
    }
  }

  /** The one-entry object that prints like an object. */
  function Twin(less: KeyOrder, es: seq<Keyed<Value>>): Value
    requires es != []
  {
    SortElements(less, es);
    Obj([MergeAll(less, Sort(less, es))])
  }

  /** Keys with quotes make different objects print alike: every object with two or more
      entries prints like an object with a single one, whose key contains all the others. */
  lemma EveryObjectHasTwin(less: KeyOrder, es: seq<Keyed<Value>>)
    requires |es| >= 2 && DistinctKeys(es)
    ensures Print(less, Obj(es)) == Print(less, Twin(less, es))
    ensures !Same(Obj(es), Twin(less, es)) && !Same(Twin(less, es), Obj(es))
  {
    SortElements(less, es);
    var z := MergeAll(less, Sort(less, es));
    TwinPrints(less, es, z);
    KeyCount(es);
    KeyCount([z]);
  }

  lemma TwinPrints(less: KeyOrder, es: seq<Keyed<Value>>, z: Keyed<Value>)
    requires |es| == |Sort(less, es)| > 0 && z == MergeAll(less, Sort(less, es))
    ensures Print(less, Obj(es)) == Print(less, Obj([z]))
  {
    hide Print, FieldTexts, MergeAll;
    SortedText(less, es);
    SortedText(less, [z]);
    assert Sort(less, [z]) == [z] by { assert [z][1..] == []; }
    MergeAllText(less, Sort(less, es));
    OneFieldText(less, z);
  }

  lemma {:induction false} KeyCount(es: seq<Keyed<Value>>)
    requires DistinctKeys(es)
    ensures |AsMap(es).Keys| == |es|
  {
    if es != [] {
      KeyCount(es[1..]);
      AsMapAt(es[1..]);
      assert es[0].key !in AsMap(es[1..]);
      assert AsMap(es).Keys == AsMap(es[1..]).Keys + {es[0].key};
    }
  }

  /** Replacing a value by one that prints alike, in an entry of an object. */
  lemma ReplaceEntry(less: KeyOrder, es: seq<Keyed<Value>>, i: nat, w: Value)
    requires i < |es| && DistinctKeys(es)
    requires Print(less, es[i].value) == Print(less, w) && !Same(es[i].value, w)
    ensures var fs := es[i := Keyed(es[i].key, w)];
      DistinctKeys(fs) && Print(less, Obj(es)) == Print(less, Obj(fs)) && !Same(Obj(es), Obj(fs))
  {
    var fs := es[i := Keyed(es[i].key, w)];
    PrintEntriesAt(less, es);
    PrintEntriesAt(less, fs);
    assert PrintEntries(less, es) == PrintEntries(less, fs);
    AsMapAt(fs);
    assert fs[i].key in AsMap(fs) && AsMap(fs)[fs[i].key] == w;
  }

  lemma ReplaceItem(less: KeyOrder, items: seq<Value>, i: nat, w: Value)
    requires i < |items| && Print(less, items[i]) == Print(less, w) && !Same(items[i], w)
    ensures Print(less, Arr(items)) == Print(less, Arr(items[i := w])) && !Same(Arr(items), Arr(items[i := w]))
  {
    PrintItemsAt(less, items);
    PrintItemsAt(less, items[i := w]);
    assert PrintItems(less, items) == PrintItems(less, items[i := w]);
    assert !Same(items[i], items[i := w][i]);
  }

  /** Somewhere in the value there is an object with two or more entries. */
  ghost predicate HasLargeObject(v: Value) {
    match v
    case Arr(items) => exists i :: 0 <= i < |items| && HasLargeObject(items[i])
    case Obj(es) => |es| >= 2 || exists i :: 0 <= i < |es| && HasLargeObject(es[i].value)
    case _ => false
  }

  /** So every value that contains such an object prints like a value that is not the same. */
  lemma {:induction false} HasTwin(less: KeyOrder, v: Value) returns (w: Value)
    requires WellFormed(v) && HasLargeObject(v)
    ensures WellFormed(w) && Print(less, v) == Print(less, w) && !Same(v, w)
    decreases v
  {
    match v
    case Arr(items) =>
      var i :| 0 <= i < |items| && HasLargeObject(items[i]);
      var x := HasTwin(less, items[i]);
      ReplaceItem(less, items, i, x);
      w := Arr(items[i := x]);
    case Obj(es) =>
      if |es| >= 2 {
        EveryObjectHasTwin(less, es);
        w := Twin(less, es);
        var _ := TwinWellFormed(less, es);
      } else {
        var i :| 0 <= i < |es| && HasLargeObject(es[i].value);
        var x := HasTwin(less, es[i].value);
        ReplaceEntry(less, es, i, x);
        w := Obj(es[i := Keyed(es[i].key, x)]);
      }
    case _ =>
  }

  lemma LastEntry(less: KeyOrder, es: seq<Keyed<Value>>) returns (k: nat)
    requires es != []
    ensures k < |es| && |Sort(less, es)| == |es| && Sort(less, es)[|es| - 1] == es[k]
  {
    SortElements(less, es);
    var last := Sort(less, es)[|es| - 1];
    assert last in Sort(less, es);
    k :| 0 <= k < |es| && es[k] == last;
  }

  /** The twin has one entry and keeps the value of the entry that sorts last. */
  lemma TwinWellFormed(less: KeyOrder, es: seq<Keyed<Value>>) returns (k: nat)
    requires es != [] && WellFormed(Obj(es))
    ensures WellFormed(Twin(less, es)) && |Twin(less, es).entries| == 1
    ensures k < |es| && Twin(less, es).entries[0].value == es[k].value
  {
    hide MergeAll, Sort, Print;
    k := LastEntry(less, es);
  }
}
