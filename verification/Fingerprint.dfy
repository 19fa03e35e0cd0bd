/** The text that is hashed into a job's fingerprint, url:strategy:options, determines the
    three parts, although urls may contain colons and option texts may contain anything
    inside their strings: no options text can start inside a string of a longer one. */
module Fingerprint {
  import opened Common
  import opened StableText
  import opened StableParser
  import Q = QueueNames

  function StrategyText(s: Q.Strategy): string {
    match s
    case Fixed(Http) => "http"
    case Fixed(Playwright) => "playwright"
    case Auto => "auto"
    case Cloudscraper => "cloudscraper"
  }

  function Preimage(less: KeyOrder, url: string, strategy: Q.Strategy, options: Value): string {
    url + ":" + StrategyText(strategy) + ":" + Print(less, options)
  }

  /** The text of a request, spelled out. */
  lemma PreimageTexts(less: KeyOrder, url: string, options: Value)
    ensures Preimage(less, url, Q.Fixed(Q.Http), options) == url + ":" + "http" + ":" + Print(less, options)
    ensures Preimage(less, url, Q.Fixed(Q.Playwright), options) == url + ":" + "playwright" + ":" + Print(less, options)
    ensures Preimage(less, url, Q.Auto, options) == url + ":" + "auto" + ":" + Print(less, options)
    ensures Preimage(less, url, Q.Cloudscraper, options) == url + ":" + "cloudscraper" + ":" + Print(less, options)
  {
    hide Print;
  }

  // ---------------------------------------------------------------------------
  // Reading a text character by character
  // ---------------------------------------------------------------------------

  /** Outside strings, just after a closing quote, inside a string, or after a backslash
      inside a string that starts an escape. */
  datatype Lex = Out | Closed | In | Esc

  /** One character. Inside a string a backslash may start an escape, as in a value, or stand
      for itself, as in a key. Outside, a stable text has no backslash, and a colon only
      after a closing quote. */
  predicate Step(l: Lex, c: char, m: Lex) {
    match l
    case Out => if c == '"' then m == In else c != '\\' && c != ':' && m == Out
    case Closed => if c == '"' then m == In else c != '\\' && m == Out
    case In => if c == '"' then m == Closed else m == In || (c == '\\' && m == Esc)
    case Esc => m == In
  }

  /** The text can be read from l to m. */
  predicate Reads(l: Lex, s: string, m: Lex) {
    if s == [] then l == m
    else
      var front, c := s[..|s| - 1], s[|s| - 1];
      || (Reads(l, front, Out) && Step(Out, c, m))
      || (Reads(l, front, Closed) && Step(Closed, c, m))
      || (Reads(l, front, In) && Step(In, c, m))
      || (Reads(l, front, Esc) && Step(Esc, c, m))
  }

  lemma {:induction false} ReadConcat(l: Lex, s: string, k: Lex, t: string, m: Lex)
    requires Reads(l, s, k) && Reads(k, t, m)
    ensures Reads(l, s + t, m)
  {
    if t == [] {
      assert s + t == s;
    } else {
      var n := |t| - 1;
      var h :| Reads(k, t[..n], h) && Step(h, t[n], m);
      ReadConcat(l, s, k, t[..n], h);
      assert (s + t)[..|s| + n] == s + t[..n];
    }
  }

  lemma {:induction false} ReadSplit(l: Lex, s: string, t: string, m: Lex) returns (k: Lex)
    requires Reads(l, s + t, m)
    ensures Reads(l, s, k) && Reads(k, t, m)
  {
    if t == [] {
      assert s + t == s;
      k := m;
    } else {
      var n := |t| - 1;
      assert (s + t)[..|s| + n] == s + t[..n];
      var h :| Reads(l, s + t[..n], h) && Step(h, t[n], m);
      k := ReadSplit(l, s, t[..n], h);
    }
  }

  lemma ReadOne(l: Lex, c: char, m: Lex)
    ensures Reads(l, [c], m) <==> Step(l, c, m)
  {
    assert [c][..0] == [];
    assert Reads(l, [], l);
  }

  predicate Outside(l: Lex) { l == Out || l == Closed }

  /** Of two readings of one text, one from outside and one from inside a string, exactly one
      is inside a string at every moment: while one is outside there is no backslash, so
      both change sides at the same quotes. */
  lemma {:induction false} ReadingsOppose(s: string, m: Lex, k: Lex)
    requires Reads(Out, s, m) && Reads(In, s, k)
    ensures (Outside(m) && k == In) || (m == In && Outside(k))
  {
    if s != [] {
      var n := |s| - 1;
      var m1 :| Reads(Out, s[..n], m1) && Step(m1, s[n], m);
      var k1 :| Reads(In, s[..n], k1) && Step(k1, s[n], k);
      ReadingsOppose(s[..n], m1, k1);
      StepOpposes(m1, k1, s[n], m, k);
    }
  }

  lemma StepOpposes(m1: Lex, k1: Lex, c: char, m: Lex, k: Lex)
    requires (Outside(m1) && k1 == In) || (m1 == In && Outside(k1))
    requires Step(m1, c, m) && Step(k1, c, k)
    ensures (Outside(m) && k == In) || (m == In && Outside(k))
  {
  }

  // ---------------------------------------------------------------------------
  // Stable texts read well
  // ---------------------------------------------------------------------------

  /** Characters that leave the reader outside. */
  predicate Dull(c: char) { c != '"' && c != '\\' && c != ':' }

  lemma {:induction false} DullText(s: string)
    requires forall i :: 0 <= i < |s| ==> Dull(s[i])
    ensures Reads(Out, s, Out)
  {
    if s != [] { DullText(s[..|s| - 1]); }
  }

  /** A key reads as it is, backslashes included. */
  lemma {:induction false} KeyReads(s: string)
    requires QuoteFree(s)
    ensures Reads(In, s, In)
  {
    if s != [] {
      assert s[|s| - 1] in s;
      assert forall c :: c in s[..|s| - 1] ==> c in s;
      KeyReads(s[..|s| - 1]);
    }
  }

  lemma {:induction false} DigitsAreDull(n: nat)
    ensures PrintNat(n) != [] && forall i :: 0 <= i < |PrintNat(n)| ==> Dull(PrintNat(n)[i])
  {
    if n >= 10 { DigitsAreDull(n / 10); }
  }

  lemma EscapeReads(c: char)
    ensures Reads(In, Escape(c), In)
  {
    var e := Escape(c);
    if |e| == 1 {
      ReadOne(In, c, In);
    } else {
      assert e == [e[0]] + [e[1]] + e[2..];
      ReadOne(In, e[0], Esc);
      ReadOne(Esc, e[1], In);
      ReadConcat(In, [e[0]], Esc, [e[1]], In);
      if |e| > 2 {
        HexRoundTrip(c as int / 16);
        HexRoundTrip(c as int % 16);
      }
      KeyReads(e[2..]);
      ReadConcat(In, [e[0]] + [e[1]], In, e[2..], In);
    }
  }

  lemma {:induction false} EscapedReads(s: string)
    ensures Reads(In, EscapeAll(s), In)
  {
    if s != [] {
      EscapeReads(s[0]);
      EscapedReads(s[1..]);
      ReadConcat(In, Escape(s[0]), In, EscapeAll(s[1..]), In);
    }
  }

  lemma QuotedReads(body: string)
    requires Reads(In, body, In)
    ensures Reads(Out, "\"" + body + "\"", Closed)
  {
    ReadOne(Out, '"', In);
    ReadConcat(Out, "\"", In, body, In);
    ReadOne(In, '"', Closed);
    ReadConcat(Out, "\"" + body, In, "\"", Closed);
  }

  /** The text can be read from outside to outside. */
  ghost predicate ReadsWell(text: string) { Reads(Out, text, Out) || Reads(Out, text, Closed) }

  function EndOf(out: bool): Lex { if out then Out else Closed }

  lemma FieldReads(key: string, text: string)
    requires QuoteFree(key) && ReadsWell(text)
    ensures ReadsWell("\"" + key + "\":" + text)
  {
    var end := EndOf(Reads(Out, text, Out));
    var head := "\"" + key + "\"";
    KeyReads(key);
    QuotedReads(key);
    ReadOne(Closed, ':', Out);
    ReadConcat(Out, head, Closed, ":", Out);
    ReadConcat(Out, head + ":", Out, text, end);
    assert "\"" + key + "\":" + text == head + ":" + text;
  }

  lemma TwoRead(a: string, b: string)
    requires ReadsWell(a) && ReadsWell(b)
    ensures ReadsWell(a + "," + b)
  {
    var l, m := EndOf(Reads(Out, a, Out)), EndOf(Reads(Out, b, Out));
    ReadOne(l, ',', Out);
    ReadConcat(Out, a, l, ",", Out);
    ReadConcat(Out, a + ",", Out, b, m);
  }

  lemma {:induction false} JoinReads(texts: seq<string>)
    requires forall i :: 0 <= i < |texts| ==> ReadsWell(texts[i])
    ensures ReadsWell(Join(texts))
  {
    if |texts| == 0 {
      assert Reads(Out, [], Out);
    } else if |texts| == 1 {
      assert ReadsWell(texts[0]);
    } else {
      assert ReadsWell(texts[0]);
      JoinReads(texts[1..]);
      TwoRead(texts[0], Join(texts[1..]));
    }
  }

  lemma BracketReads(open: char, body: string, close: char)
    requires ReadsWell(body) && Dull(open) && Dull(close)
    ensures Reads(Out, [open] + body + [close], Out)
  {
    var end := EndOf(Reads(Out, body, Out));
    ReadOne(Out, open, Out);
    ReadConcat(Out, [open], Out, body, end);
    ReadOne(end, close, Out);
    ReadConcat(Out, [open] + body, end, [close], Out);
  }

  lemma {:induction false} TextReads(less: KeyOrder, v: Value)
    requires QuoteFreeKeys(v)
    ensures ReadsWell(Print(less, v))
    ensures v.Obj? ==> Reads(Out, Print(less, v), Out) && Print(less, v)[0] == '{'
    decreases v
  {
    match v
    case Null => DullText("null");
    case Undefined => DullText("null");
    case Bool(b) => if b { DullText("true"); } else { DullText("false"); }
    case Num(n) =>
      DigitsAreDull(if n < 0 then -n else n);
      DullText(PrintInt(n));
    case Str(s) =>
      EscapedReads(s);
      QuotedReads(EscapeAll(s));
    case Arr(items) =>
      PrintItemsAt(less, items);
      forall i | 0 <= i < |items| ensures ReadsWell(PrintItems(less, items)[i]) { TextReads(less, items[i]); }
      JoinReads(PrintItems(less, items));
      BracketReads('[', Join(PrintItems(less, items)), ']');
    case Obj(es) =>
      forall i | 0 <= i < |es| ensures ReadsWell(Print(less, es[i].value)) { TextReads(less, es[i].value); }
      ObjectReads(less, es);
  }

  lemma ObjectReads(less: KeyOrder, es: seq<Keyed<Value>>)
    requires forall i :: 0 <= i < |es| ==> QuoteFree(es[i].key) && ReadsWell(Print(less, es[i].value))
    ensures Reads(Out, Print(less, Obj(es)), Out) && Print(less, Obj(es))[0] == '{'
  {
    var ps := Sort(less, PrintEntries(less, es));
    PrintEntriesAt(less, es);
    SortElements(less, PrintEntries(less, es));
    forall i | 0 <= i < |ps| ensures ReadsWell(Fields(ps)[i]) {
      assert ps[i] in ps;
      var k :| 0 <= k < |es| && PrintEntries(less, es)[k] == ps[i];
      FieldReads(es[k].key, Print(less, es[k].value));
    }
    JoinReads(Fields(ps));
    BracketReads('{', Join(Fields(ps)), '}');
  }

  // ---------------------------------------------------------------------------
  // Unique decoding
  // ---------------------------------------------------------------------------

  /** A text that reads from outside to outside cannot start inside another such text after
      a letter and a colon. */
  lemma NoInnerText(front: string, x: char, inner: string)
    requires Dull(x) && Reads(Out, inner, Out)
    ensures !Reads(Out, front + [x] + ":" + inner, Out)
  {
    if Reads(Out, front + [x] + ":" + inner, Out) {
      var m2 := ReadSplit(Out, front + [x] + ":", inner, Out);
      var m1 := ReadSplit(Out, front + [x], ":", m2);
      var m0 := ReadSplit(Out, front, [x], m1);
      ReadOne(m0, x, m1);
      ReadOne(m1, ':', m2);
      ReadingsOppose(inner, Out, Out);
    }
  }

  lemma Letters(s: Q.Strategy)
    ensures StrategyText(s) != [] && forall i :: 0 <= i < |StrategyText(s)| ==> Dull(StrategyText(s)[i]) && StrategyText(s)[i] != '{'
  {
  }

  /** Two ways to split a text: the longer tail is the front's end followed by the shorter. */
  lemma LongerTail(head: string, t1: string, front: string, t2: string)
    requires head + t1 == front + t2 && |t1| > |t2|
    ensures |front| == |head| + (|t1| - |t2|)
    ensures t1 == front[|head|..] + t2
  {
    var total := head + t1;
    assert t1 == total[|head|..];
    assert total[|head|..] == front[|head|..] + t2;
  }

  /** The longer options text would contain the shorter one. */
  lemma NotLonger(less: KeyOrder, head: string, o1: Value, url: string, s: Q.Strategy, o2: Value)
    requires QuoteFreeKeys(o1) && QuoteFreeKeys(o2) && o1.Obj? && o2.Obj?
    requires head + Print(less, o1) == Preimage(less, url, s, o2)
    ensures |Print(less, o1)| <= |Print(less, o2)|
  {
    TextReads(less, o1);
    TextReads(less, o2);
    if |Print(less, o1)| > |Print(less, o2)| {
      LongerTail(head, Print(less, o1), url + ":" + StrategyText(s) + ":", Print(less, o2));
      TailIsBad(url + ":", StrategyText(s), |head|, Print(less, o1), Print(less, o2), s);
    }
  }

  lemma TailIsBad(front: string, strategy: string, k: nat, t1: string, t2: string, s: Q.Strategy)
    requires strategy == StrategyText(s) && k < |front + strategy + ":"|
    requires t1 == (front + strategy + ":")[k..] + t2 && Reads(Out, t2, Out) && t1 != [] && t1[0] == '{'
    ensures !Reads(Out, t1, Out)
  {
    Letters(s);
    var f := front + strategy + ":";
    var n := |f| - k;
    assert f[|f| - 1] == ':' && f[|f| - 2] == strategy[|strategy| - 1];
    assert f[k..][n - 1] == ':';
    if n >= 2 {
      var x := strategy[|strategy| - 1];
      assert f[k..] == f[k..][..n - 2] + [x] + ":";
      assert t1 == f[k..][..n - 2] + [x] + ":" + t2;
      NoInnerText(f[k..][..n - 2], x, t2);
    }
  }

  lemma NoColonInTail(t: string, s: Q.Strategy)
    requires |StrategyText(s)| <= |t| && t[|t| - |StrategyText(s)|..] == StrategyText(s)
    ensures forall j :: |t| - |StrategyText(s)| <= j < |t| ==> t[j] != ':'
  {
    var a := StrategyText(s);
    Letters(s);
    forall j | |t| - |a| <= j < |t| ensures t[j] != ':' {
      assert t[j] == a[j - (|t| - |a|)];
    }
  }

  lemma LastColon(u1: string, s1: Q.Strategy, u2: string, s2: Q.Strategy)
    requires u1 + ":" + StrategyText(s1) == u2 + ":" + StrategyText(s2)
    ensures u1 == u2 && StrategyText(s1) == StrategyText(s2)
  {
    var a, b := StrategyText(s1), StrategyText(s2);
    var t := u1 + ":" + a;
    assert t[|t| - |a|..] == a && t[|t| - |b|..] == b;
    NoColonInTail(t, s1);
    NoColonInTail(t, s2);
    assert t[|t| - |a| - 1] == ':' && t[|t| - |b| - 1] == ':';
    assert u1 == t[..|t| - |a| - 1] && u2 == t[..|t| - |b| - 1];
  }

  lemma StrategyTextsDiffer(s1: Q.Strategy, s2: Q.Strategy)
    requires StrategyText(s1) == StrategyText(s2)
    ensures s1 == s2
  {
    assert "http"[0] == 'h' && "playwright"[0] == 'p' && "auto"[0] == 'a' && "cloudscraper"[0] == 'c';
    assert StrategyText(s1)[0] == StrategyText(s2)[0];
  }

  /** Equal preimages come from equal urls, equal strategies and options that are the same
      up to the order of entries. */
  lemma UniqueDecoding(less: KeyOrder, u1: string, s1: Q.Strategy, o1: Value, u2: string, s2: Q.Strategy, o2: Value)
    requires StrictTotal(less) && o1.Obj? && o2.Obj? && WellFormed(o1) && WellFormed(o2) && QuoteFreeKeys(o1) && QuoteFreeKeys(o2)
    ensures Preimage(less, u1, s1, o1) == Preimage(less, u2, s2, o2) <==> u1 == u2 && s1 == s2 && Same(o1, o2)
  {
    TextIsCanonical(less, o1, o2);
    if Preimage(less, u1, s1, o1) == Preimage(less, u2, s2, o2) {
      var t1, t2 := Print(less, o1), Print(less, o2);
      var f1, f2 := u1 + ":" + StrategyText(s1) + ":", u2 + ":" + StrategyText(s2) + ":";
      NotLonger(less, f1, o1, u2, s2, o2);
      NotLonger(less, f2, o2, u1, s1, o1);
      assert f1 == (f1 + t1)[..|f1|] && f2 == (f2 + t2)[..|f2|];
      assert t1 == (f1 + t1)[|f1|..] && t2 == (f2 + t2)[|f2|..];
      assert f1[..|f1| - 1] == u1 + ":" + StrategyText(s1);
      assert f2[..|f2| - 1] == u2 + ":" + StrategyText(s2);
      LastColon(u1, s1, u2, s2);
      StrategyTextsDiffer(s1, s2);
    }
  }
}
