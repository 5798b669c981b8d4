/**
 The JSON text that is hashed for a submission: it does not depend on the order
 of keys, nor on members that have no value.

 The main result is CanonicalTextIsMeaning: two JSON values have the same
 canonical text exactly when they mean the same, key order aside.
 */
module CanonicalJson {

  predicate IsDigit(c: char) {
    '0' <= c <= '9'
  }

  predicate InNumeral(c: char) {
    IsDigit(c) || c in {'-', '+', '.', 'e', 'E'}
  }

  /** Everything section 6 of RFC 8259 admits as a number, and more. */
  predicate IsNumeral(s: string) {
    s != "" && (s[0] == '-' || IsDigit(s[0])) && forall i :: 0 <= i < |s| ==> InNumeral(s[i])
  }

  type Numeral = s: string | IsNumeral(s) witness "0"

  /**
   A JavaScript value as JSON.stringify meets it, dates as their texts. A finite
   number is given by the numeral it prints as; numbers that differ print differently.
   */
  datatype Json =
    | Undefined
    | Null
    | Bool(b: bool)
    | Num(numeral: Numeral)
    | Str(s: string)
    | Arr(items: seq<Json>)
    | Obj(members: seq<Member>)

  datatype Member = Member(key: string, value: Json)

  /** JavaScript objects never hold a key twice. */
  ghost predicate DistinctKeys(ms: seq<Member>) {
    forall i, j :: 0 <= i < j < |ms| ==> ms[i].key != ms[j].key
  }

  ghost predicate WellFormed(v: Json) {
    match v
    case Arr(items) => forall i :: 0 <= i < |items| ==> WellFormed(items[i])
    case Obj(ms) => DistinctKeys(ms) && forall i :: 0 <= i < |ms| ==> WellFormed(ms[i].value)
    case _ => true
  }

  // ---- Printing -------------------------------------------------------------

  function HexDigit(d: nat): char
    requires d < 16
  {
    if d < 10 then '0' + d as char else 'a' + (d - 10) as char
  }

  /** One character of a JSON string (section 7 of RFC 8259). */
  function Escaped(c: char): string {
    if c == '\"' then ['\\', '\"']
    else if c == '\\' then ['\\', '\\']
    else if c as int == 8 then ['\\', 'b']
    else if c as int == 12 then ['\\', 'f']
    else if c as int == 10 then ['\\', 'n']
    else if c as int == 13 then ['\\', 'r']
    else if c as int == 9 then ['\\', 't']
    else if c as int < 32 then ['\\', 'u', '0', '0', HexDigit(c as int / 16), HexDigit(c as int % 16)]
    else [c]
  }

  function EscapedAll(s: string): string {
    if s == "" then "" else Escaped(s[0]) + EscapedAll(s[1..])
  }

  function Digit(d: nat): char
    requires d < 10
  {
    '0' + d as char
  }

  function Digits(n: nat): string {
    if n < 10 then [Digit(n)] else Digits(n / 10) + [Digit(n % 10)]
  }

  function Print(v: Json): string {
    match v
    case Undefined => "null"
    case Null => "null"
    case Bool(b) => if b then "true" else "false"
    case Num(numeral) => numeral
    case Str(s) => "\"" + EscapedAll(s) + "\""
    case Arr(items) => "[" + PrintItems(items) + "]"
    case Obj(ms) => "{" + PrintMembers(ms) + "}"
  }

  function PrintItems(items: seq<Json>): string {
    if |items| == 0 then ""
    else if |items| == 1 then Print(items[0])
    else Print(items[0]) + "," + PrintItems(items[1..])
  }

  function PrintMember(m: Member): string {
    "\"" + EscapedAll(m.key) + "\"" + ":" + Print(m.value)
  }

  function PrintMembers(ms: seq<Member>): string {
    if |ms| == 0 then ""
    else if |ms| == 1 then PrintMember(ms[0])
    else PrintMember(ms[0]) + "," + PrintMembers(ms[1..])
  }

  // ---- Canonical form -------------------------------------------------------

  /** The default order of Array.prototype.sort on strings. */
  predicate Before(a: string, b: string) {
    if b == "" then false
    else if a == "" then true
    else a[0] < b[0] || (a[0] == b[0] && Before(a[1..], b[1..]))
  }

  function Insert(m: Member, ms: seq<Member>): seq<Member> {
    if ms == [] || Before(m.key, ms[0].key) then [m] + ms else [ms[0]] + Insert(m, ms[1..])
  }

  function SortByKey(ms: seq<Member>): seq<Member> {
    if ms == [] then [] else Insert(ms[0], SortByKey(ms[1..]))
  }

  /** Absent members dropped, members sorted, an undefined item written as null. */
  function Normal(v: Json): Json {
    match v
    case Undefined => Null
    case Arr(items) => Arr(NormalItems(items))
    case Obj(ms) => Obj(SortByKey(NormalMembers(ms)))
    case _ => v
  }

  function NormalItems(items: seq<Json>): (r: seq<Json>)
    ensures |r| == |items|
  {
    if items == [] then [] else [Normal(items[0])] + NormalItems(items[1..])
  }

  function NormalMembers(ms: seq<Member>): seq<Member> {
    if ms == [] then []
    else if ms[0].value.Undefined? then NormalMembers(ms[1..])
    else [Member(ms[0].key, Normal(ms[0].value))] + NormalMembers(ms[1..])
  }

  function CanonicalText(v: Json): string {
    Print(Normal(v))
  }

  // ---- Meaning: the value with key order forgotten --------------------------

  datatype Value = VNull | VBool(b: bool) | VNum(numeral: Numeral) | VStr(s: string) | VArr(items: seq<Value>) | VObj(members: map<string, Value>)

  function Meaning(v: Json): Value {
    match v
    case Undefined => VNull
    case Null => VNull
    case Bool(b) => VBool(b)
    case Num(numeral) => VNum(numeral)
    case Str(s) => VStr(s)
    case Arr(items) => VArr(MeaningItems(items))
    case Obj(ms) => VObj(MeaningMembers(ms))
  }

  function MeaningItems(items: seq<Json>): (r: seq<Value>)
    ensures |r| == |items|
    ensures forall i :: 0 <= i < |items| ==> r[i] == Meaning(items[i])
  {
    if items == [] then [] else [Meaning(items[0])] + MeaningItems(items[1..])
  }

  function MeaningMembers(ms: seq<Member>): map<string, Value> {
    if ms == [] then map[]
    else if ms[0].value.Undefined? then MeaningMembers(ms[1..])
    else MeaningMembers(ms[1..])[ms[0].key := Meaning(ms[0].value)]
  }

  // ---- Unique readability of printed text -----------------------------------

  /** Nothing printed is undefined: what Normal leaves behind. */
  predicate Clean(v: Json) {
    match v
    case Undefined => false
    case Arr(items) => forall i :: 0 <= i < |items| ==> Clean(items[i])
    case Obj(ms) => forall i :: 0 <= i < |ms| ==> Clean(ms[i].value)
    case _ => true
  }

  /** What may follow a value inside printed text; only numbers need it. */
  predicate Stops(t: string) {
    t == "" || t[0] in {',', ']', '}'}
  }

  /** Concatenation regrouped; and equal texts cut at the same place. */
  lemma Regroup(a: string, b: string, c: string)
    ensures a + b + c == a + (b + c)
  {
  }

  lemma Cut(a: string, b: string, c: string, d: string)
    requires a + b == c + d && |a| == |c|
    ensures a == c && b == d
  {
    assert a == (a + b)[..|a|] && c == (c + d)[..|a|];
    assert b == (a + b)[|a|..] && d == (c + d)[|a|..];
  }

  lemma Closed(close: string, t: string, u: string)
    requires "" + (close + t) == "" + (close + u)
    ensures t == u
  {
    assert "" + (close + t) == close + t && "" + (close + u) == close + u;
    Cut(close, t, close, u);
  }

  /** How many characters at the front of a printed string stand for one character, and which. */
  function EscapeLength(t: string): nat {
    if t == "" || t[0] != '\\' then 1 else if |t| > 1 && t[1] == 'u' then 6 else 2
  }

  function HexValue(c: char): int {
    if c < 'a' then c as int - '0' as int else c as int - 'a' as int + 10
  }

  function Unescaped(t: string): int {
    if t == "" then 0
    else if t[0] != '\\' then t[0] as int
    else if |t| < 2 then 0
    else if t[1] == 'b' then 8
    else if t[1] == 'f' then 12
    else if t[1] == 'n' then 10
    else if t[1] == 'r' then 13
    else if t[1] == 't' then 9
    else if t[1] == 'u' && |t| >= 6 then 16 * HexValue(t[4]) + HexValue(t[5])
    else t[1] as int
  }

  lemma EscapedRoundTrip(c: char, t: string)
    ensures EscapeLength(Escaped(c) + t) == |Escaped(c)|
    ensures Unescaped(Escaped(c) + t) == c as int
  {
    var a := Escaped(c) + t;
    assert a[0] == Escaped(c)[0];
    if |Escaped(c)| == 6 {
      var n := c as int;
      assert a[1] == 'u' && a[4] == HexDigit(n / 16) && a[5] == HexDigit(n % 16);
      assert HexValue(HexDigit(n / 16)) == n / 16 && HexValue(HexDigit(n % 16)) == n % 16;
    } else if |Escaped(c)| == 2 {
      assert a[1] == Escaped(c)[1];
    }
  }

  lemma {:induction false} StringReadable(s: string, r: string, t: string, u: string)
    requires EscapedAll(s) + ("\"" + t) == EscapedAll(r) + ("\"" + u)
    ensures s == r && t == u
  {
    var a, b := EscapedAll(s) + ("\"" + t), EscapedAll(r) + ("\"" + u);
    assert a[0] == b[0];
    assert s != "" ==> a[0] == Escaped(s[0])[0] != '\"';
    assert r != "" ==> b[0] == Escaped(r[0])[0] != '\"';
    assert (s == "") == (r == "");
    if s == "" {
      Closed("\"", t, u);
    } else {
      var c, d := EscapedAll(s[1..]) + ("\"" + t), EscapedAll(r[1..]) + ("\"" + u);
      Regroup(Escaped(s[0]), EscapedAll(s[1..]), "\"" + t);
      Regroup(Escaped(r[0]), EscapedAll(r[1..]), "\"" + u);
      EscapedRoundTrip(s[0], c);
      EscapedRoundTrip(r[0], d);
      Cut(Escaped(s[0]), c, Escaped(r[0]), d);
      StringReadable(s[1..], r[1..], t, u);
      assert s == [s[0]] + s[1..] && r == [r[0]] + r[1..];
    }
  }

  /** The number a run of digits stands for. */
  function NumberOf(s: string): int {
    if s == "" then 0 else 10 * NumberOf(s[..|s| - 1]) + (s[|s| - 1] as int - '0' as int)
  }

  lemma {:induction false} DigitsRead(n: nat)
    ensures |Digits(n)| > 0
    ensures forall i :: 0 <= i < |Digits(n)| ==> IsDigit(Digits(n)[i])
    ensures NumberOf(Digits(n)) == n
  {
    if n < 10 {
      assert Digits(n)[..0] == "";
    } else {
      DigitsRead(n / 10);
      assert Digits(n)[..|Digits(n)| - 1] == Digits(n / 10);
    }
  }

  /** An integer as a number prints it. */
  function Decimal(n: int): Numeral {
    DigitsRead(if n < 0 then -n else n);
    if n < 0 then "-" + Digits(-n) else Digits(n)
  }

  lemma DecimalRead(m: int, n: int)
    requires Decimal(m) == Decimal(n)
    ensures m == n
  {
    DigitsRead(if m < 0 then -m else m);
    DigitsRead(if n < 0 then -n else n);
    assert (m < 0) == (Decimal(m)[0] == '-') == (Decimal(n)[0] == '-') == (n < 0);
    if m < 0 {
      assert Decimal(m)[1..] == Digits(-m) && Decimal(n)[1..] == Digits(-n);
    }
  }

  lemma NoShorter(a: string, t: string, b: Numeral, u: string)
    requires a + t == b + u && Stops(t)
    ensures |a| >= |b|
  {
    assert t != "" ==> (a + t)[|a|] == t[0];
    assert forall i :: 0 <= i < |b| ==> (b + u)[i] == b[i];
  }

  lemma NumeralReadable(a: Numeral, b: Numeral, t: string, u: string)
    requires a + t == b + u && Stops(t) && Stops(u)
    ensures a == b && t == u
  {
    NoShorter(a, t, b, u);
    NoShorter(b, u, a, t);
    Cut(a, t, b, u);
  }

  /** The first character of a printed value names its kind. */
  function Kind(c: char): nat {
    if c == 'n' then 1 else if c == 't' then 2 else if c == 'f' then 3
    else if c == '\"' then 5 else if c == '[' then 6 else if c == '{' then 7
    else if c == '-' || IsDigit(c) then 4 else 0
  }

  function KindOf(v: Json): nat {
    match v
    case Undefined => 1
    case Null => 1
    case Bool(b) => if b then 2 else 3
    case Num(_) => 4
    case Str(_) => 5
    case Arr(_) => 6
    case Obj(_) => 7
  }

  lemma FirstCharacter(v: Json)
    ensures |Print(v)| > 0 && Kind(Print(v)[0]) == KindOf(v)
  {
  }

  /** Printed text can be read in one way only, whatever follows it. */
  lemma {:induction false} Readable(v: Json, w: Json, t: string, u: string)
    requires Clean(v) && Clean(w) && Stops(t) && Stops(u)
    requires Print(v) + t == Print(w) + u
    ensures v == w && t == u
    decreases v, 0
  {
    FirstCharacter(v);
    FirstCharacter(w);
    assert (Print(v) + t)[0] == (Print(w) + u)[0];
    assert KindOf(v) == KindOf(w);
    match v
    case Num(m) =>
      NumeralReadable(m, w.numeral, t, u);
    case Str(s) =>
      Wrapped("\"", EscapedAll(s), "\"", t, EscapedAll(w.s), u);
      StringReadable(s, w.s, t, u);
    case Arr(items) =>
      Wrapped("[", PrintItems(items), "]", t, PrintItems(w.items), u);
      ItemsReadable(items, w.items, t, u);
    case Obj(ms) =>
      Wrapped("{", PrintMembers(ms), "}", t, PrintMembers(w.members), u);
      MembersReadable(ms, w.members, t, u);
    case _ =>
      Cut(Print(v), t, Print(w), u);
  }

  /** Texts between the same brackets: the opening one drops away. */
  lemma Wrapped(open: string, a: string, close: string, t: string, b: string, u: string)
    requires open + a + close + t == open + b + close + u
    ensures a + (close + t) == b + (close + u)
  {
    Regroup(open, a, close);
    Regroup(open, b, close);
    Regroup(open, a + close, t);
    Regroup(open, b + close, u);
    Cut(open, a + close + t, open, b + close + u);
    Regroup(a, close, t);
    Regroup(b, close, u);
  }

  /** What stands between the first item of a list and the text after the list. */
  function AfterFirst(items: seq<Json>, t: string): string
    requires items != []
  {
    if |items| == 1 then "]" + t else "," + (PrintItems(items[1..]) + ("]" + t))
  }

  lemma ItemsSplit(items: seq<Json>, t: string)
    requires items != []
    ensures PrintItems(items) + ("]" + t) == Print(items[0]) + AfterFirst(items, t)
  {
    if |items| > 1 {
      Regroup(Print(items[0]) + ",", PrintItems(items[1..]), "]" + t);
      Regroup(Print(items[0]), ",", PrintItems(items[1..]) + ("]" + t));
    }
  }

  /** The first character tells whether a list is over. */
  lemma ItemsStart(items: seq<Json>, t: string)
    ensures var text := PrintItems(items) + ("]" + t); text != "" && (text[0] == ']' <==> items == [])
    ensures items == [] ==> PrintItems(items) == ""
  {
    NoItems();
    hide Print, PrintItems, AfterFirst;
    if items != [] {
      ItemsSplit(items, t);
      FirstCharacter(items[0]);
      Leads(Print(items[0]), AfterFirst(items, t));
    }
  }

  lemma NoItems()
    ensures PrintItems([]) == ""
  {
  }

  lemma Leads(a: string, b: string)
    requires a != ""
    ensures (a + b)[0] == a[0]
  {
  }

  lemma {:induction false} ItemsReadable(xs: seq<Json>, ys: seq<Json>, t: string, u: string)
    requires forall i :: 0 <= i < |xs| ==> Clean(xs[i])
    requires forall i :: 0 <= i < |ys| ==> Clean(ys[i])
    requires PrintItems(xs) + ("]" + t) == PrintItems(ys) + ("]" + u)
    ensures xs == ys && t == u
    decreases xs, 1
  {
    hide Print, Clean, PrintItems;
    ItemsStart(xs, t);
    ItemsStart(ys, u);
    assert (xs == []) == (ys == []);
    if xs == [] {
      Closed("]", t, u);
    } else {
      ItemsSplit(xs, t);
      ItemsSplit(ys, u);
      var after, before := AfterFirst(xs, t), AfterFirst(ys, u);
      Readable(xs[0], ys[0], after, before);
      RestOfItemsReadable(xs, ys, t, u);
      assert xs == [xs[0]] + xs[1..] && ys == [ys[0]] + ys[1..];
    }
  }

  lemma {:induction false} RestOfItemsReadable(xs: seq<Json>, ys: seq<Json>, t: string, u: string)
    requires xs != [] && ys != []
    requires forall i :: 0 <= i < |xs| ==> Clean(xs[i])
    requires forall i :: 0 <= i < |ys| ==> Clean(ys[i])
    requires AfterFirst(xs, t) == AfterFirst(ys, u)
    ensures xs[1..] == ys[1..] && t == u
    decreases xs, 0
  {
    assert AfterFirst(xs, t)[0] == AfterFirst(ys, u)[0];
    assert (|xs| == 1) == (|ys| == 1);
    if |xs| == 1 {
      Cut("]", t, "]", u);
    } else {
      Cut(",", PrintItems(xs[1..]) + ("]" + t), ",", PrintItems(ys[1..]) + ("]" + u));
      ItemsReadable(xs[1..], ys[1..], t, u);
    }
  }

  function AfterFirstMember(ms: seq<Member>, t: string): string
    requires ms != []
  {
    if |ms| == 1 then "}" + t else "," + (PrintMembers(ms[1..]) + ("}" + t))
  }

  /** A member list as the text of its first key and all that follows that key. */
  lemma MembersSplit(ms: seq<Member>, t: string)
    requires ms != []
    ensures PrintMembers(ms) + ("}" + t) == "\"" + (EscapedAll(ms[0].key) + ("\"" + (":" + (Print(ms[0].value) + AfterFirstMember(ms, t)))))
  {
    var after := AfterFirstMember(ms, t);
    var key := EscapedAll(ms[0].key);
    var value := Print(ms[0].value);
    if |ms| > 1 {
      Regroup(PrintMember(ms[0]) + ",", PrintMembers(ms[1..]), "}" + t);
      Regroup(PrintMember(ms[0]), ",", PrintMembers(ms[1..]) + ("}" + t));
    }
    assert PrintMembers(ms) + ("}" + t) == PrintMember(ms[0]) + after;
    Regroup("\"" + key + "\"" + ":", value, after);
    Regroup("\"" + key + "\"", ":", value + after);
    Regroup("\"" + key, "\"", ":" + (value + after));
    Regroup("\"", key, "\"" + (":" + (value + after)));
  }

  lemma {:induction false} MembersReadable(ms: seq<Member>, ns: seq<Member>, t: string, u: string)
    requires forall i :: 0 <= i < |ms| ==> Clean(ms[i].value)
    requires forall i :: 0 <= i < |ns| ==> Clean(ns[i].value)
    requires PrintMembers(ms) + ("}" + t) == PrintMembers(ns) + ("}" + u)
    ensures ms == ns && t == u
    decreases ms, 1
  {
    assert (PrintMembers(ms) + ("}" + t))[0] == (PrintMembers(ns) + ("}" + u))[0];
    if ms != [] { MembersSplit(ms, t); }
    if ns != [] { MembersSplit(ns, u); }
    assert (ms == []) == (ns == []);
    if ms == [] {
      Closed("}", t, u);
    } else {
      var after, before := AfterFirstMember(ms, t), AfterFirstMember(ns, u);
      FirstMemberReadable(ms[0], ns[0], after, before);
      Readable(ms[0].value, ns[0].value, after, before);
      RestOfMembersReadable(ms, ns, t, u);
      assert ms == [ms[0]] + ms[1..] && ns == [ns[0]] + ns[1..];
    }
  }

  lemma {:induction false} RestOfMembersReadable(ms: seq<Member>, ns: seq<Member>, t: string, u: string)
    requires ms != [] && ns != []
    requires forall i :: 0 <= i < |ms| ==> Clean(ms[i].value)
    requires forall i :: 0 <= i < |ns| ==> Clean(ns[i].value)
    requires AfterFirstMember(ms, t) == AfterFirstMember(ns, u)
    ensures ms[1..] == ns[1..] && t == u
    decreases ms, 0
  {
    assert AfterFirstMember(ms, t)[0] == AfterFirstMember(ns, u)[0];
    assert (|ms| == 1) == (|ns| == 1);
    if |ms| == 1 {
      Cut("}", t, "}", u);
    } else {
      Cut(",", PrintMembers(ms[1..]) + ("}" + t), ",", PrintMembers(ns[1..]) + ("}" + u));
      MembersReadable(ms[1..], ns[1..], t, u);
    }
  }

  lemma FirstMemberReadable(m: Member, n: Member, t: string, u: string)
    requires "\"" + (EscapedAll(m.key) + ("\"" + (":" + (Print(m.value) + t)))) == "\"" + (EscapedAll(n.key) + ("\"" + (":" + (Print(n.value) + u))))
    ensures m.key == n.key && Print(m.value) + t == Print(n.value) + u
  {
    var x, y := ":" + (Print(m.value) + t), ":" + (Print(n.value) + u);
    Cut("\"", EscapedAll(m.key) + ("\"" + x), "\"", EscapedAll(n.key) + ("\"" + y));
    StringReadable(m.key, n.key, x, y);
    Cut(":", Print(m.value) + t, ":", Print(n.value) + u);
  }

  // ---- Sorting --------------------------------------------------------------

  lemma {:induction false} BeforeIsTotal(a: string, b: string)
    ensures Before(a, b) || a == b || Before(b, a)
    ensures !(Before(a, b) && Before(b, a)) && !Before(a, a)
  {
    if a != "" && b != "" {
      BeforeIsTotal(a[1..], b[1..]);
      assert a == [a[0]] + a[1..] && b == [b[0]] + b[1..];
    }
    if a != "" {
      BeforeIsTotal(a[1..], a[1..]);
    }
  }

  lemma {:induction false} BeforeIsTransitive(a: string, b: string, c: string)
    requires Before(a, b) && Before(b, c)
    ensures Before(a, c)
  {
    if a != "" && a[0] == b[0] == c[0] {
      BeforeIsTransitive(a[1..], b[1..], c[1..]);
    }
  }

  predicate Sorted(ms: seq<Member>) {
    forall i, j :: 0 <= i < j < |ms| ==> Before(ms[i].key, ms[j].key)
  }

  lemma {:induction false} InsertSorts(m: Member, ms: seq<Member>)
    requires Sorted(ms)
    requires forall x :: x in ms ==> x.key != m.key
    ensures Sorted(Insert(m, ms))
    ensures forall x :: x in Insert(m, ms) <==> x == m || x in ms
  {
    var r := Insert(m, ms);
    if ms == [] {
    } else if Before(m.key, ms[0].key) {
      forall j | 1 <= j < |r| ensures Before(r[0].key, r[j].key) {
        if j > 1 { BeforeIsTransitive(m.key, ms[0].key, ms[j - 1].key); }
      }
    } else {
      InsertSorts(m, ms[1..]);
      BeforeIsTotal(m.key, ms[0].key);
      assert ms[0] in ms;
      forall j | 1 <= j < |r| ensures Before(r[0].key, r[j].key) {
        assert r[j] in Insert(m, ms[1..]);
      }
      forall i, j | 1 <= i < j < |r| ensures Before(r[i].key, r[j].key) {
        assert r[i] == Insert(m, ms[1..])[i - 1] && r[j] == Insert(m, ms[1..])[j - 1];
      }
      assert ms == [ms[0]] + ms[1..];
    }
  }

  lemma {:induction false} SortSorts(ms: seq<Member>)
    requires DistinctKeys(ms)
    ensures Sorted(SortByKey(ms))
    ensures forall x :: x in SortByKey(ms) <==> x in ms
  {
    if ms != [] {
      SortSorts(ms[1..]);
      forall x | x in SortByKey(ms[1..]) ensures x.key != ms[0].key {
        var i :| 0 <= i < |ms[1..]| && ms[1..][i] == x;
        assert ms[i + 1] == x;
      }
      InsertSorts(ms[0], SortByKey(ms[1..]));
      assert ms == [ms[0]] + ms[1..];
    }
  }

  /** A strictly sorted list is fixed by its elements. */
  lemma {:induction false} SortedIsUnique(ms: seq<Member>, ns: seq<Member>)
    requires Sorted(ms) && Sorted(ns)
    requires forall x :: x in ms <==> x in ns
    ensures ms == ns
  {
    if ns != [] { assert ns[0] in ms; }
    if ms != [] {
      assert ms[0] in ms && ms[0] in ns;
      assert ns[0] in ns && ns[0] in ms;
      BeforeIsTotal(ms[0].key, ns[0].key);
      var i :| 0 <= i < |ns| && ns[i] == ms[0];
      var j :| 0 <= j < |ms| && ms[j] == ns[0];
      assert ms[0] == ns[0];
      forall x ensures x in ms[1..] <==> x in ns[1..] {
        InTail(ms, x);
        InTail(ns, x);
      }
      SortedIsUnique(ms[1..], ns[1..]);
      assert ms == [ms[0]] + ms[1..] && ns == [ns[0]] + ns[1..];
    }
  }

  lemma InTail(ms: seq<Member>, x: Member)
    requires Sorted(ms) && ms != []
    ensures x in ms[1..] <==> x in ms && x != ms[0]
  {
    BeforeIsTotal(ms[0].key, ms[0].key);
    if x in ms && x != ms[0] {
      var i :| 0 <= i < |ms| && ms[i] == x;
      assert ms[1..][i - 1] == x;
    }
    if x in ms[1..] {
      var i :| 0 <= i < |ms[1..]| && ms[1..][i] == x;
      assert ms[i + 1] == x;
    }
  }

  // ---- The normal form keeps the meaning, and the meaning fixes it ----------

  /** A member of the normal form is one with a value, made normal. */
  predicate IsNormalOf(x: Member, m: Member) {
    m.key == x.key && !m.value.Undefined? && x.value == Normal(m.value)
  }

  lemma {:induction false} NormalMembersComeFrom(ms: seq<Member>)
    ensures forall x :: x in NormalMembers(ms) ==> exists i :: 0 <= i < |ms| && IsNormalOf(x, ms[i])
  {
    hide Normal, IsNormalOf;
    if ms != [] {
      NormalMembersComeFrom(ms[1..]);
      FirstIsNormal(ms);
      forall x | x in NormalMembers(ms) ensures exists i :: 0 <= i < |ms| && IsNormalOf(x, ms[i]) {
        if x in NormalMembers(ms[1..]) {
          var i :| 0 <= i < |ms[1..]| && IsNormalOf(x, ms[1..][i]);
          assert ms[i + 1] == ms[1..][i];
        }
      }
    }
  }

  lemma FirstIsNormal(ms: seq<Member>)
    requires ms != []
    ensures forall x :: x in NormalMembers(ms) && x !in NormalMembers(ms[1..]) ==> IsNormalOf(x, ms[0])
  {
    hide Normal;
  }

  lemma {:induction false} NormalMembersHold(ms: seq<Member>)
    ensures forall i :: 0 <= i < |ms| && !ms[i].value.Undefined? ==> Member(ms[i].key, Normal(ms[i].value)) in NormalMembers(ms)
  {
    hide Normal;
    if ms != [] {
      NormalMembersHold(ms[1..]);
      forall i | 1 <= i < |ms| && !ms[i].value.Undefined? ensures Member(ms[i].key, Normal(ms[i].value)) in NormalMembers(ms) {
        assert ms[i] == ms[1..][i - 1];
      }
    }
  }

  lemma {:induction false} NormalKeysDiffer(ms: seq<Member>)
    requires DistinctKeys(ms)
    ensures DistinctKeys(NormalMembers(ms))
  {
    hide Normal;
    if ms != [] {
      NormalKeysDiffer(ms[1..]);
      NormalMembersComeFrom(ms[1..]);
      forall x | x in NormalMembers(ms[1..]) ensures x.key != ms[0].key {
        var i :| 0 <= i < |ms[1..]| && IsNormalOf(x, ms[1..][i]);
        assert ms[i + 1] == ms[1..][i];
      }
    }
  }

  lemma NormalMembersKeepKeys(ms: seq<Member>)
    requires DistinctKeys(ms)
    ensures DistinctKeys(NormalMembers(ms))
    ensures forall x :: x in NormalMembers(ms) ==> exists i :: 0 <= i < |ms| && IsNormalOf(x, ms[i])
    ensures forall i :: 0 <= i < |ms| && !ms[i].value.Undefined? ==> Member(ms[i].key, Normal(ms[i].value)) in NormalMembers(ms)
  {
    NormalMembersComeFrom(ms);
    NormalMembersHold(ms);
    NormalKeysDiffer(ms);
    hide Normal, NormalMembers, DistinctKeys, IsNormalOf;
  }

  lemma {:induction false} NormalIsClean(v: Json)
    requires WellFormed(v)
    ensures Clean(Normal(v))
    decreases v, 0
  {
    match v
    case Arr(items) =>
      NormalItemsAreClean(items);
    case Obj(ms) =>
      NormalMembersKeepKeys(ms);
      SortSorts(NormalMembers(ms));
      forall i | 0 <= i < |SortByKey(NormalMembers(ms))| ensures Clean(SortByKey(NormalMembers(ms))[i].value) {
        var x := SortByKey(NormalMembers(ms))[i];
        assert x in NormalMembers(ms);
        var k :| 0 <= k < |ms| && IsNormalOf(x, ms[k]);
        NormalIsClean(ms[k].value);
      }
    case _ =>
  }

  lemma {:induction false} NormalItemsAreClean(items: seq<Json>)
    requires forall i :: 0 <= i < |items| ==> WellFormed(items[i])
    ensures forall i :: 0 <= i < |items| ==> Clean(NormalItems(items)[i])
    decreases items, 1
  {
    if items != [] {
      NormalIsClean(items[0]);
      NormalItemsAreClean(items[1..]);
    }
  }

  /** What a member list says about one key. */
  lemma {:induction false} MeaningAt(ms: seq<Member>, i: nat)
    requires DistinctKeys(ms) && i < |ms|
    ensures ms[i].value.Undefined? ==> ms[i].key !in MeaningMembers(ms)
    ensures !ms[i].value.Undefined? ==> ms[i].key in MeaningMembers(ms) && MeaningMembers(ms)[ms[i].key] == Meaning(ms[i].value)
  {
    if i == 0 {
      if ms[0].key in MeaningMembers(ms[1..]) {
        MeaningKeys(ms[1..], ms[0].key);
      }
    } else {
      MeaningAt(ms[1..], i - 1);
    }
  }

  lemma {:induction false} MeaningKeys(ms: seq<Member>, k: string)
    requires k in MeaningMembers(ms)
    ensures exists i :: 0 <= i < |ms| && ms[i].key == k && !ms[i].value.Undefined?
  {
    if !ms[0].value.Undefined? && ms[0].key == k {
    } else {
      MeaningKeys(ms[1..], k);
      var i :| 0 <= i < |ms[1..]| && ms[1..][i].key == k && !ms[1..][i].value.Undefined?;
      assert ms[i + 1] == ms[1..][i];
    }
  }

  /** A member with a value means the same among the sorted ones. */
  lemma MeaningInSorted(ms: seq<Member>, ss: seq<Member>, i: nat)
    requires DistinctKeys(ms) && DistinctKeys(ss) && i < |ms| && !ms[i].value.Undefined? && WellFormed(ms[i].value)
    requires forall x :: x in ss <==> x in NormalMembers(ms)
    requires Meaning(Normal(ms[i].value)) == Meaning(ms[i].value)
    ensures ms[i].key in MeaningMembers(ss) && ms[i].key in MeaningMembers(ms)
    ensures MeaningMembers(ss)[ms[i].key] == MeaningMembers(ms)[ms[i].key]
  {
    NormalMembersKeepKeys(ms);
    MeaningAt(ms, i);
    NormalIsClean(ms[i].value);
    var x := Member(ms[i].key, Normal(ms[i].value));
    assert x in ss;
    var j :| 0 <= j < |ss| && ss[j] == x;
    hide Normal, NormalMembers, Meaning, MeaningMembers;
    MeaningAt(ss, j);
  }

  lemma KeyInSorted(ms: seq<Member>, ss: seq<Member>, k: string)
    requires DistinctKeys(ms) && k in MeaningMembers(ss)
    requires forall x :: x in ss <==> x in NormalMembers(ms)
    ensures k in MeaningMembers(ms)
  {
    hide Normal, NormalMembers, Meaning, MeaningMembers;
    NormalMembersKeepKeys(ms);
    MeaningKeys(ss, k);
    var j :| 0 <= j < |ss| && ss[j].key == k && !ss[j].value.Undefined?;
    assert ss[j] in ss;
    var i :| 0 <= i < |ms| && IsNormalOf(ss[j], ms[i]);
    MeaningAt(ms, i);
  }

  lemma NormalObjectKeepsMeaning(ms: seq<Member>)
    requires DistinctKeys(ms) && forall i :: 0 <= i < |ms| ==> WellFormed(ms[i].value)
    requires forall i :: 0 <= i < |ms| ==> Meaning(Normal(ms[i].value)) == Meaning(ms[i].value)
    ensures MeaningMembers(SortByKey(NormalMembers(ms))) == MeaningMembers(ms)
  {
    hide Normal, NormalMembers, Meaning, MeaningMembers, WellFormed, SortByKey;
    NormalMembersKeepKeys(ms);
    var ss := SortByKey(NormalMembers(ms));
    SortSorts(NormalMembers(ms));
    SortedIsDistinct(ss);
    forall k ensures k in MeaningMembers(ss) <==> k in MeaningMembers(ms)
      ensures k in MeaningMembers(ss) ==> MeaningMembers(ss)[k] == MeaningMembers(ms)[k]
    {
      if k in MeaningMembers(ms) {
        MeaningKeys(ms, k);
        var i :| 0 <= i < |ms| && ms[i].key == k && !ms[i].value.Undefined?;
        MeaningInSorted(ms, ss, i);
      } else if k in MeaningMembers(ss) {
        KeyInSorted(ms, ss, k);
      }
    }
    assert MeaningMembers(ss) == MeaningMembers(ms);
  }

  lemma {:induction false} NormalKeepsMeaning(v: Json)
    requires WellFormed(v)
    ensures Meaning(Normal(v)) == Meaning(v)
    decreases v, 0
  {
    match v
    case Arr(items) =>
      NormalItemsKeepMeaning(items);
    case Obj(ms) =>
      forall i | 0 <= i < |ms| ensures Meaning(Normal(ms[i].value)) == Meaning(ms[i].value) {
        NormalKeepsMeaning(ms[i].value);
      }
      NormalObjectKeepsMeaning(ms);
    case _ =>
  }

  lemma {:induction false} NormalItemsKeepMeaning(items: seq<Json>)
    requires forall i :: 0 <= i < |items| ==> WellFormed(items[i])
    ensures MeaningItems(NormalItems(items)) == MeaningItems(items)
    decreases items, 1
  {
    if items != [] {
      NormalKeepsMeaning(items[0]);
      NormalItemsKeepMeaning(items[1..]);
    }
  }

  lemma SortedIsDistinct(ms: seq<Member>)
    requires Sorted(ms)
    ensures DistinctKeys(ms)
  {
    forall i, j | 0 <= i < j < |ms| ensures ms[i].key != ms[j].key {
      BeforeIsTotal(ms[i].key, ms[j].key);
    }
  }

  /** A member of one object stands for a member of another that means the same. */
  lemma MeantBy(ms: seq<Member>, i: nat, os: seq<Member>) returns (j: nat)
    requires DistinctKeys(ms) && DistinctKeys(os) && MeaningMembers(ms) == MeaningMembers(os)
    requires i < |ms| && !ms[i].value.Undefined?
    ensures j < |os| && os[j].key == ms[i].key && !os[j].value.Undefined? && Meaning(os[j].value) == Meaning(ms[i].value)
  {
    MeaningAt(ms, i);
    MeaningKeys(os, ms[i].key);
    j :| 0 <= j < |os| && os[j].key == ms[i].key && !os[j].value.Undefined?;
    MeaningAt(os, j);
  }

  lemma {:induction false} MeaningFixesNormal(v: Json, w: Json)
    requires WellFormed(v) && WellFormed(w)
    requires Meaning(v) == Meaning(w)
    ensures Normal(v) == Normal(w)
    decreases v, 0
  {
    match v
    case Arr(items) =>
      MeaningFixesItems(items, w.items);
    case Obj(ms) =>
      NormalMembersKeepKeys(ms);
      NormalMembersKeepKeys(w.members);
      var ns, os := NormalMembers(ms), NormalMembers(w.members);
      SortSorts(ns);
      SortSorts(os);
      forall x ensures x in ns <==> x in os {
        if x in ns {
          var i :| 0 <= i < |ms| && IsNormalOf(x, ms[i]);
          var j := MeantBy(ms, i, w.members);
          MeaningFixesNormal(ms[i].value, w.members[j].value);
        }
        if x in os {
          var j :| 0 <= j < |w.members| && IsNormalOf(x, w.members[j]);
          var i := MeantBy(w.members, j, ms);
          MeaningFixesNormal(ms[i].value, w.members[j].value);
        }
      }
      SortedIsUnique(SortByKey(ns), SortByKey(os));
    case _ =>
  }

  lemma {:induction false} MeaningFixesItems(xs: seq<Json>, ys: seq<Json>)
    requires forall i :: 0 <= i < |xs| ==> WellFormed(xs[i])
    requires forall i :: 0 <= i < |ys| ==> WellFormed(ys[i])
    requires MeaningItems(xs) == MeaningItems(ys)
    ensures NormalItems(xs) == NormalItems(ys)
    decreases xs, 1
  {
    assert |xs| == |MeaningItems(xs)| == |ys|;
    if xs != [] {
      assert Meaning(xs[0]) == MeaningItems(xs)[0] == Meaning(ys[0]);
      MeaningFixesNormal(xs[0], ys[0]);
      assert MeaningItems(xs)[1..] == MeaningItems(xs[1..]);
      assert MeaningItems(ys)[1..] == MeaningItems(ys[1..]);
      MeaningFixesItems(xs[1..], ys[1..]);
    }
  }

  /** The canonical text and the meaning of a value determine each other. */
  lemma CanonicalTextIsMeaning(v: Json, w: Json)
    requires WellFormed(v) && WellFormed(w)
    ensures CanonicalText(v) == CanonicalText(w) <==> Meaning(v) == Meaning(w)
  {
    if CanonicalText(v) == CanonicalText(w) {
      NormalIsClean(v);
      NormalIsClean(w);
      assert Print(Normal(v)) + "" == Print(Normal(w)) + "";
      Readable(Normal(v), Normal(w), "", "");
      NormalKeepsMeaning(v);
      NormalKeepsMeaning(w);
    }
    if Meaning(v) == Meaning(w) {
      MeaningFixesNormal(v, w);
    }
  }
}
