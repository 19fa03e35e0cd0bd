/** The stable text of an options value: what is hashed into fingerprints and idempotency
    keys. Objects are printed with their entries sorted by key, so that the order in which
    a caller wrote them does not matter. */
module StableText {
  import opened Common

  datatype Keyed<T> = Keyed(key: string, value: T)

  /** A JSON-like value. An object is a list of entries in the order of insertion. */
  datatype Value =
    | Null
    | Undefined
    | Bool(b: bool)
    | Num(n: int)
    | Str(s: string)
    | Arr(items: seq<Value>)
    | Obj(entries: seq<Keyed<Value>>)

  /** How keys compare; the runtime's collation is a parameter. */
  type KeyOrder = (string, string) -> bool

  ghost predicate StrictTotal(less: KeyOrder) {
    && (forall a :: !less(a, a))
    && (forall a, b :: a != b ==> less(a, b) || less(b, a))
    && (forall a, b, c :: less(a, b) && less(b, c) ==> less(a, c))
  }

  // ---------------------------------------------------------------------------
  // Sorting entries
  // ---------------------------------------------------------------------------

  function Insert<T>(less: KeyOrder, x: Keyed<T>, s: seq<Keyed<T>>): seq<Keyed<T>> {
    if s == [] || less(x.key, s[0].key) then [x] + s else [s[0]] + Insert(less, x, s[1..])
  }

  function Sort<T>(less: KeyOrder, s: seq<Keyed<T>>): seq<Keyed<T>> {
    if s == [] then [] else Insert(less, s[0], Sort(less, s[1..]))
  }

  ghost predicate Sorted<T(!new)>(less: KeyOrder, s: seq<Keyed<T>>) {
    forall i, j :: 0 <= i < j < |s| ==> less(s[i].key, s[j].key)
  }

  ghost predicate DistinctKeys<T(!new)>(s: seq<Keyed<T>>) {
    forall i, j :: 0 <= i < j < |s| ==> s[i].key != s[j].key
  }

  lemma {:induction false} InsertElements<T(!new)>(less: KeyOrder, x: Keyed<T>, s: seq<Keyed<T>>)
    ensures |Insert(less, x, s)| == |s| + 1
    ensures forall y :: y in Insert(less, x, s) <==> y == x || y in s
  {
    if s != [] && !less(x.key, s[0].key) {
      InsertElements(less, x, s[1..]);
      assert s == [s[0]] + s[1..];
    }
  }

  lemma {:induction false} SortElements<T(!new)>(less: KeyOrder, s: seq<Keyed<T>>)
    ensures |Sort(less, s)| == |s|
    ensures forall y :: y in Sort(less, s) <==> y in s
  {
    if s != [] {
      SortElements(less, s[1..]);
      InsertElements(less, s[0], Sort(less, s[1..]));
      assert s == [s[0]] + s[1..];
    }
  }

  lemma HeadIsLeast<T(!new)>(less: KeyOrder, s: seq<Keyed<T>>, y: Keyed<T>)
    requires s != [] && Sorted(less, s) && y in s[1..]
    ensures less(s[0].key, y.key)
  {
    var i :| 0 <= i < |s[1..]| && s[1..][i] == y;
    assert s[i + 1] == y;
  }

  lemma {:induction false} InsertSorted<T(!new)>(less: KeyOrder, x: Keyed<T>, s: seq<Keyed<T>>)
    requires StrictTotal(less) && Sorted(less, s)
    requires forall i :: 0 <= i < |s| ==> s[i].key != x.key
    ensures Sorted(less, Insert(less, x, s))
  {
    if s != [] && !less(x.key, s[0].key) {
      InsertSorted(less, x, s[1..]);
      InsertElements(less, x, s[1..]);
      var r := Insert(less, x, s[1..]);
      forall j | 0 <= j < |r| ensures less(s[0].key, r[j].key) {
        var y := r[j];
        assert y in r;
        assert y == x || y in s[1..];
        if y != x { HeadIsLeast(less, s, y); }
      }
    }
  }

  lemma {:induction false} SortSorted<T(!new)>(less: KeyOrder, s: seq<Keyed<T>>)
    requires StrictTotal(less) && DistinctKeys(s)
    ensures Sorted(less, Sort(less, s))
  {
    if s != [] {
      SortSorted(less, s[1..]);
      SortElements(less, s[1..]);
      var r := Sort(less, s[1..]);
      forall i | 0 <= i < |r| ensures r[i].key != s[0].key {
        var y := r[i];
        assert y in r;
        assert y in s[1..];
        var k :| 0 <= k < |s[1..]| && s[1..][k] == r[i];
        assert s[k + 1] == r[i];
      }
      InsertSorted(less, s[0], r);
    }
  }

  lemma NonEmpty<T(!new)>(s: seq<Keyed<T>>)
    requires s != []
    ensures exists y :: y in s
  {
    assert s[0] in s;
  }

  /** A strictly sorted list is determined by its elements. */
  lemma {:induction false} SortedUnique<T(!new)>(less: KeyOrder, s: seq<Keyed<T>>, t: seq<Keyed<T>>)
    requires StrictTotal(less) && Sorted(less, s) && Sorted(less, t)
    requires forall y :: y in s <==> y in t
    ensures s == t
  {
    if s == [] {
      if t != [] {
        NonEmpty(t);
        assert false;
      }
    } else {
      assert s[0] in s && s[0] in t;
      assert t[0] in t && t[0] in s;
      assert s[0] == t[0];
      forall y ensures y in s[1..] <==> y in t[1..] {
        TailElements(less, s, y);
        TailElements(less, t, y);
      }
      SortedUnique(less, s[1..], t[1..]);
    }
  }

  lemma TailElements<T(!new)>(less: KeyOrder, s: seq<Keyed<T>>, y: Keyed<T>)
    requires StrictTotal(less) && Sorted(less, s) && s != []
    ensures y in s[1..] <==> y in s && y != s[0]
  {
    assert s == [s[0]] + s[1..];
    if y in s[1..] {
      var i :| 0 <= i < |s[1..]| && s[1..][i] == y;
      assert s[i + 1] == y;
    }
  }

  // ---------------------------------------------------------------------------
  // Printing
  // ---------------------------------------------------------------------------

  function DigitChar(d: nat): char
    requires d < 10
  {
    ('0' as int + d) as char
  }

  function PrintNat(n: nat): string {
    if n < 10 then [DigitChar(n)] else PrintNat(n / 10) + [DigitChar(n % 10)]
  }

  function PrintInt(n: int): string {
    if n < 0 then "-" + PrintNat(-n) else PrintNat(n)
  }

  lemma {:induction false} NatText(n: nat)
    ensures PrintNat(n) != [] && (PrintNat(n)[0] == '0' ==> n == 0) && (n == 0 ==> PrintNat(n) == "0")
    ensures forall i :: 0 <= i < |PrintNat(n)| ==> IsDigit(PrintNat(n)[i])
  {
    if n >= 10 {
      NatText(n / 10);
    }
  }

  /** Numbers are printed in the one way section 6 of RFC 8259 allows for whole numbers: a sign
      only for negative ones, and no leading zero. */
  lemma NumberText(n: int)
    ensures var text := PrintInt(n);
      && text != [] && (text[0] == '-' <==> n < 0)
      && var digits := if n < 0 then text[1..] else text;
      && digits != [] && (digits[0] == '0' ==> digits == "0" && n == 0)
      && forall i :: 0 <= i < |digits| ==> IsDigit(digits[i])
  {
    NatText(if n < 0 then -n else n);
  }

  function HexChar(d: nat): char
    requires d < 16
  {
    if d < 10 then DigitChar(d) else ('a' as int + (d - 10)) as char
  }

  /** Section 7 of RFC 8259, with the short escapes and lower-case hexadecimal digits. */
  function Escape(c: char): string {
    if c == '"' then "\\\""
    else if c == '\\' then "\\\\"
    else if c as int == 8 then "\\b"
    else if c as int == 9 then "\\t"
    else if c as int == 10 then "\\n"
    else if c as int == 12 then "\\f"
    else if c as int == 13 then "\\r"
    else if (c as int) < 32 then "\\u00" + [HexChar(c as int / 16), HexChar(c as int % 16)]
    else [c]
  }

  function EscapeAll(s: string): string {
    if s == [] then "" else Escape(s[0]) + EscapeAll(s[1..])
  }

  function Quote(s: string): string { "\"" + EscapeAll(s) + "\"" }

  function Join(texts: seq<string>): string {
    if |texts| == 0 then ""
    else if |texts| == 1 then texts[0]
    else texts[0] + "," + Join(texts[1..])
  }

  /** Keys are printed as they are, without escaping. */
  function Field(e: Keyed<string>): string { "\"" + e.key + "\":" + e.value }

  function Fields(es: seq<Keyed<string>>): seq<string> {
    seq(|es|, i requires 0 <= i < |es| => Field(es[i]))
  }

  function Print(less: KeyOrder, v: Value): string
    decreases v, 1
  {
    match v
    case Null => "null"
    case Undefined => "null"
    case Bool(b) => if b then "true" else "false"
    case Num(n) => PrintInt(n)
    case Str(s) => Quote(s)
    case Arr(items) => "[" + Join(PrintItems(less, items)) + "]"
    case Obj(entries) => "{" + Join(Fields(Sort(less, PrintEntries(less, entries)))) + "}"
  }

  function PrintItems(less: KeyOrder, items: seq<Value>): seq<string>
    decreases items, 0
  {
    if items == [] then [] else [Print(less, items[0])] + PrintItems(less, items[1..])
  }

  function PrintEntries(less: KeyOrder, es: seq<Keyed<Value>>): seq<Keyed<string>>
    decreases es, 0
  {
    if es == [] then [] else [Keyed(es[0].key, Print(less, es[0].value))] + PrintEntries(less, es[1..])
  }

  lemma {:induction false} PrintItemsAt(less: KeyOrder, items: seq<Value>)
    ensures |PrintItems(less, items)| == |items|
    ensures forall i :: 0 <= i < |items| ==> PrintItems(less, items)[i] == Print(less, items[i])
  {
    if items != [] { PrintItemsAt(less, items[1..]); }
  }

  lemma {:induction false} PrintEntriesAt(less: KeyOrder, es: seq<Keyed<Value>>)
    ensures |PrintEntries(less, es)| == |es|
    ensures forall i :: 0 <= i < |es| ==> PrintEntries(less, es)[i] == Keyed(es[i].key, Print(less, es[i].value))
  {
    if es != [] { PrintEntriesAt(less, es[1..]); }
  }

  /** Sorting before printing the values, as the program does, gives the same text. */
  lemma {:induction false} SortThenPrint(less: KeyOrder, es: seq<Keyed<Value>>)
    ensures Sort(less, PrintEntries(less, es)) == PrintEntries(less, Sort(less, es))
  {
    if es != [] {
      SortThenPrint(less, es[1..]);
      InsertThenPrint(less, es[0], Sort(less, es[1..]));
    }
  }

  lemma {:induction false} InsertThenPrint(less: KeyOrder, x: Keyed<Value>, s: seq<Keyed<Value>>)
    ensures Insert(less, Keyed(x.key, Print(less, x.value)), PrintEntries(less, s)) == PrintEntries(less, Insert(less, x, s))
  {
    if s == [] || less(x.key, s[0].key) {
      assert ([x] + s)[1..] == s;
    } else {
      InsertThenPrint(less, x, s[1..]);
      assert PrintEntries(less, s)[1..] == PrintEntries(less, s[1..]);
      assert ([s[0]] + Insert(less, x, s[1..]))[1..] == Insert(less, x, s[1..]);
    }
  }

  // ---------------------------------------------------------------------------
  // Equality up to the order of entries, and up to undefined and null
  // ---------------------------------------------------------------------------

  ghost predicate WellFormed(v: Value) {
    match v
    case Arr(items) => forall i :: 0 <= i < |items| ==> WellFormed(items[i])
    case Obj(es) => DistinctKeys(es) && forall i :: 0 <= i < |es| ==> WellFormed(es[i].value)
    case _ => true
  }

  ghost predicate Same(v: Value, w: Value)
    decreases v
  {
    match v
    case Null => w.Null? || w.Undefined?
    case Undefined => w.Null? || w.Undefined?
    case Bool(_) => v == w
    case Num(_) => v == w
    case Str(_) => v == w
    case Arr(items) =>
      w.Arr? && |items| == |w.items| && forall i :: 0 <= i < |items| ==> Same(items[i], w.items[i])
    case Obj(es) => w.Obj? && SameEntries(es, w.entries)
  }

  /** The same keys, and the same value under each of them. */
  ghost predicate SameEntries(es: seq<Keyed<Value>>, fs: seq<Keyed<Value>>)
    decreases es
  {
    && AsMap(es).Keys == AsMap(fs).Keys
    && forall i :: 0 <= i < |es| ==> es[i].key in AsMap(fs) && Same(es[i].value, AsMap(fs)[es[i].key])
  }

  function AsMap<T>(es: seq<Keyed<T>>): map<string, T> {
    if es == [] then map[] else AsMap(es[1..])[es[0].key := es[0].value]
  }

  lemma {:induction false} AsMapAt<T(!new)>(es: seq<Keyed<T>>)
    requires DistinctKeys(es)
    ensures forall i :: 0 <= i < |es| ==> es[i].key in AsMap(es) && AsMap(es)[es[i].key] == es[i].value
    ensures forall k :: k in AsMap(es) ==> exists i :: 0 <= i < |es| && es[i].key == k
  {
    if es != [] {
      AsMapAt(es[1..]);
      forall k | k in AsMap(es) ensures exists i :: 0 <= i < |es| && es[i].key == k {
        if k == es[0].key {
          assert es[0].key == k;
        } else {
          assert k in AsMap(es[1..]);
          var i :| 0 <= i < |es[1..]| && es[1..][i].key == k;
          assert es[i + 1].key == k;
        }
      }
    }
  }

  /** Some entry of fs prints exactly like e. */
  ghost predicate PrintedIn(less: KeyOrder, e: Keyed<Value>, fs: seq<Keyed<Value>>) {
    exists j :: 0 <= j < |fs| && PrintsLike(less, e, fs[j])
  }

  ghost predicate PrintsLike(less: KeyOrder, e: Keyed<Value>, f: Keyed<Value>) {
    e.key == f.key && Print(less, e.value) == Print(less, f.value)
  }

  lemma PrintedElements(less: KeyOrder, es: seq<Keyed<Value>>, fs: seq<Keyed<Value>>, y: Keyed<string>)
    requires forall i :: 0 <= i < |es| ==> PrintedIn(less, es[i], fs)
    requires y in PrintEntries(less, es)
    ensures y in PrintEntries(less, fs)
  {
    PrintEntriesAt(less, es);
    PrintEntriesAt(less, fs);
    var i :| 0 <= i < |es| && PrintEntries(less, es)[i] == y;
    var j :| 0 <= j < |fs| && PrintsLike(less, es[i], fs[j]);
    assert PrintEntries(less, fs)[j] == y;
  }

  lemma SameEntriesPrint(less: KeyOrder, es: seq<Keyed<Value>>, fs: seq<Keyed<Value>>)
    requires StrictTotal(less) && DistinctKeys(es) && DistinctKeys(fs)
    requires forall i :: 0 <= i < |es| ==> PrintedIn(less, es[i], fs)
    requires forall j :: 0 <= j < |fs| ==> PrintedIn(less, fs[j], es)
    ensures Sort(less, PrintEntries(less, es)) == Sort(less, PrintEntries(less, fs))
  {
    var a, b := PrintEntries(less, es), PrintEntries(less, fs);
    PrintEntriesAt(less, es);
    PrintEntriesAt(less, fs);
    SortSorted(less, a);
    SortSorted(less, b);
    SortElements(less, a);
    SortElements(less, b);
    forall y ensures y in Sort(less, a) <==> y in Sort(less, b) {
      if y in a { PrintedElements(less, es, fs, y); }
      if y in b { PrintedElements(less, fs, es, y); }
    }
    SortedUnique(less, Sort(less, a), Sort(less, b));
  }

  /** Permuting the entries of objects at any depth does not change the text. */
  lemma {:induction false} SamePrintsAlike(less: KeyOrder, v: Value, w: Value)
    requires StrictTotal(less) && WellFormed(v) && WellFormed(w) && Same(v, w)
    ensures Print(less, v) == Print(less, w)
    decreases v
  {
    match v
    case Arr(items) =>
      forall i | 0 <= i < |items| ensures Print(less, items[i]) == Print(less, w.items[i]) {
        SamePrintsAlike(less, items[i], w.items[i]);
      }
      SameArrays(less, items, w.items);
    case Obj(es) =>
      SameObjects(less, es, w.entries);
    case _ =>
  }

  lemma {:induction false} SameObjects(less: KeyOrder, es: seq<Keyed<Value>>, fs: seq<Keyed<Value>>)
    requires StrictTotal(less) && WellFormed(Obj(es)) && WellFormed(Obj(fs)) && SameEntries(es, fs)
    ensures Print(less, Obj(es)) == Print(less, Obj(fs))
    decreases es
  {
    DistinctEntries(es);
    DistinctEntries(fs);
    AsMapAt(es);
    AsMapAt(fs);
    forall i, j | 0 <= i < |es| && 0 <= j < |fs| && es[i].key == fs[j].key ensures PrintsLike(less, es[i], fs[j]) {
      assert Same(es[i].value, AsMap(fs)[es[i].key]);
      SamePrintsAlike(less, es[i].value, fs[j].value);
    }
    MatchedEntries(less, es, fs);
    SameEntriesPrint(less, es, fs);
  }

  lemma DistinctEntries(es: seq<Keyed<Value>>)
    requires WellFormed(Obj(es))
    ensures DistinctKeys(es)
  {
  }

  lemma MatchedEntries(less: KeyOrder, es: seq<Keyed<Value>>, fs: seq<Keyed<Value>>)
    requires AsMap(es).Keys == AsMap(fs).Keys && DistinctKeys(es) && DistinctKeys(fs)
    requires forall i, j :: 0 <= i < |es| && 0 <= j < |fs| && es[i].key == fs[j].key ==> PrintsLike(less, es[i], fs[j])
    ensures forall i :: 0 <= i < |es| ==> PrintedIn(less, es[i], fs)
    ensures forall j :: 0 <= j < |fs| ==> PrintedIn(less, fs[j], es)
  {
    AsMapAt(es);
    AsMapAt(fs);
    forall i | 0 <= i < |es| ensures PrintedIn(less, es[i], fs) {
      assert es[i].key in AsMap(fs).Keys;
      var j :| 0 <= j < |fs| && fs[j].key == es[i].key;
      assert PrintsLike(less, es[i], fs[j]);
    }
    forall j | 0 <= j < |fs| ensures PrintedIn(less, fs[j], es) {
      assert fs[j].key in AsMap(es).Keys;
      var i :| 0 <= i < |es| && es[i].key == fs[j].key;
      assert PrintsLike(less, es[i], fs[j]);
      assert PrintsLike(less, fs[j], es[i]);
    }
  }

  lemma SameArrays(less: KeyOrder, xs: seq<Value>, ys: seq<Value>)
    requires |xs| == |ys| && forall i :: 0 <= i < |xs| ==> Print(less, xs[i]) == Print(less, ys[i])
    ensures Print(less, Arr(xs)) == Print(less, Arr(ys))
  {
    PrintItemsAt(less, xs);
    PrintItemsAt(less, ys);
    assert PrintItems(less, xs) == PrintItems(less, ys);
  }
}
