/** Text as JavaScript sees it: a sequence of UTF-16 code units. */
module Texts {
  type CodeUnit = u: int | 0 <= u < 0x1_0000

  type Text = seq<CodeUnit>

  const SPACE: CodeUnit := 0x20
  const NEWLINE: CodeUnit := 0x0A
  const TAB: CodeUnit := 0x09
  const RETURN: CodeUnit := 0x0D

  /** What `\s` matches and `trim` removes. */
  predicate IsSpace(u: CodeUnit) {
    || 0x09 <= u <= 0x0D || u == 0x20 || u == 0xA0 || u == 0x1680 || 0x2000 <= u <= 0x200A
    || u == 0x2028 || u == 0x2029 || u == 0x202F || u == 0x205F || u == 0x3000 || u == 0xFEFF
  }

  /** A literal; only characters below U+10000 are used. */
  function Lit(s: string): (t: Text)
    ensures |t| == |s|
    ensures forall i :: 0 <= i < |s| && s[i] as int < 0x1_0000 ==> t[i] == s[i] as int
  {
    if s == "" then [] else [if s[0] as int < 0x1_0000 then s[0] as int else 0xFFFD] + Lit(s[1..])
  }

  // ---- Trimming -------------------------------------------------------------

  function TrimStart(t: Text): Text {
    if t != [] && IsSpace(t[0]) then TrimStart(t[1..]) else t
  }

  function TrimEnd(t: Text): Text {
    if t != [] && IsSpace(t[|t| - 1]) then TrimEnd(t[..|t| - 1]) else t
  }

  function Trim(t: Text): Text {
    TrimEnd(TrimStart(t))
  }

  /** How many code units `trimStart` removes. */
  function Leading(t: Text): (n: nat)
    ensures n <= |t|
  {
    if t != [] && IsSpace(t[0]) then 1 + Leading(t[1..]) else 0
  }

  lemma {:induction false} TrimStartIsSuffix(t: Text)
    ensures TrimStart(t) == t[Leading(t)..]
    ensures TrimStart(t) != [] ==> !IsSpace(TrimStart(t)[0])
    ensures forall i :: 0 <= i < Leading(t) ==> IsSpace(t[i])
  {
    if t != [] && IsSpace(t[0]) {
      TrimStartIsSuffix(t[1..]);
    }
  }

  lemma {:induction false} TrimEndIsPrefix(t: Text)
    ensures TrimEnd(t) <= t
    ensures TrimEnd(t) != [] ==> !IsSpace(TrimEnd(t)[|TrimEnd(t)| - 1])
    ensures forall i :: |TrimEnd(t)| <= i < |t| ==> IsSpace(t[i])
  {
    if t != [] && IsSpace(t[|t| - 1]) {
      TrimEndIsPrefix(t[..|t| - 1]);
    }
  }

  /** A text that starts and ends with something other than whitespace. */
  predicate IsTrimmed(t: Text) {
    t == [] || (!IsSpace(t[0]) && !IsSpace(t[|t| - 1]))
  }

  lemma TrimTrims(t: Text)
    ensures IsTrimmed(Trim(t)) && |Trim(t)| <= |t|
    ensures IsTrimmed(t) ==> Trim(t) == t
  {
    TrimStartIsSuffix(t);
    TrimEndIsPrefix(TrimStart(t));
  }

  // ---- Joining --------------------------------------------------------------

  function Flatten(ts: seq<Text>): Text {
    if ts == [] then [] else Flatten(ts[..|ts| - 1]) + ts[|ts| - 1]
  }

  lemma {:induction false} FlattenConcat(ss: seq<Text>, ts: seq<Text>)
    ensures Flatten(ss + ts) == Flatten(ss) + Flatten(ts)
  {
    if ts == [] {
      assert ss + ts == ss;
    } else {
      FlattenConcat(ss, ts[..|ts| - 1]);
      assert (ss + ts)[..|ss + ts| - 1] == ss + ts[..|ts| - 1];
    }
  }

  lemma FlattenFirst(ts: seq<Text>)
    requires ts != []
    ensures Flatten(ts) == ts[0] + Flatten(ts[1..])
  {
    assert ts == [ts[0]] + ts[1..];
    FlattenConcat([ts[0]], ts[1..]);
    var one := [ts[0]];
    assert one[..0] == [];
    assert Flatten(one) == ts[0];
  }

  function Join(parts: seq<Text>, sep: Text): Text {
    if parts == [] then []
    else if |parts| == 1 then parts[0]
    else Join(parts[..|parts| - 1], sep) + sep + parts[|parts| - 1]
  }

  function TotalLength(parts: seq<Text>): nat {
    if parts == [] then 0 else TotalLength(parts[..|parts| - 1]) + |parts[|parts| - 1]|
  }

  lemma {:induction false} JoinLength(parts: seq<Text>, sep: Text)
    ensures |Join(parts, sep)| == if parts == [] then 0 else TotalLength(parts) + |sep| * (|parts| - 1)
  {
    if |parts| > 1 {
      JoinLength(parts[..|parts| - 1], sep);
    } else if |parts| == 1 {
      assert parts[..0] == [];
      assert TotalLength(parts) == TotalLength(parts[..0]) + |parts[0]|;
    }
  }
}
