/**
 The diff by words that quality review shows: the texts are cut into words and
 blanks, and a table of 16-bit cells tells which of them to keep.
 */
module WordDiff {
  import opened Options
  import opened Texts
  import opened Arithmetic

  // ---- Tokens ---------------------------------------------------------------

  /** Where the run of whitespace, or of anything else, that starts at 0 ends. */
  function RunLength(t: Text): (n: nat)
    requires t != []
    ensures 1 <= n <= |t|
    ensures forall i :: 0 <= i < n ==> IsSpace(t[i]) == IsSpace(t[0])
    ensures n < |t| ==> IsSpace(t[n]) != IsSpace(t[0])
  {
    if |t| == 1 || IsSpace(t[1]) != IsSpace(t[0]) then 1 else 1 + RunLength(t[1..])
  }

  /** The maximal runs of whitespace and of other characters, in order. */
  function Tokens(t: Text): seq<Text> {
    if t == [] then [] else [t[..RunLength(t)]] + Tokens(t[RunLength(t)..])
  }

  predicate IsRun(t: Text) {
    t != [] && forall i :: 0 <= i < |t| ==> IsSpace(t[i]) == IsSpace(t[0])
  }

  /** Runs of whitespace and of other characters take turns. */
  ghost predicate Alternate(ts: seq<Text>) {
    && (forall i :: 0 <= i < |ts| ==> IsRun(ts[i]))
    && (forall i :: 0 <= i < |ts| - 1 ==> IsSpace(ts[i][0]) != IsSpace(ts[i + 1][0]))
  }

  /** A run in front of others that begin with the other kind of character. */
  lemma OneMoreRun(first: Text, rest: seq<Text>)
    requires IsRun(first) && Alternate(rest) && (rest != [] ==> IsSpace(first[0]) != IsSpace(rest[0][0]))
    ensures Alternate([first] + rest)
  {
    hide IsSpace;
    var more := [first] + rest;
    forall i | 0 <= i < |more| - 1 ensures IsSpace(more[i][0]) != IsSpace(more[i + 1][0]) {
      if i > 0 { assert more[i] == rest[i - 1] && more[i + 1] == rest[i]; }
    }
  }

  lemma {:induction false} TokensAlternate(t: Text)
    ensures Alternate(Tokens(t))
    ensures t != [] ==> Tokens(t) != [] && Tokens(t)[0][0] == t[0]
    ensures Flatten(Tokens(t)) == t
    decreases |t|
  {
    NothingAlternates();
    hide IsSpace, Alternate, Flatten;
    if t != [] {
      var n := RunLength(t);
      var rest := Tokens(t[n..]);
      TokensAlternate(t[n..]);
      assert Tokens(t) == [t[..n]] + rest;
      OneMoreRun(t[..n], rest);
      FlattenFirst([t[..n]] + rest);
      assert t[..n] + t[n..] == t;
    }
  }

  lemma NothingAlternates()
    ensures Alternate([]) && Flatten([]) == []
  {
  }

  lemma FlattenNothing()
    ensures Flatten([]) == []
  {
  }

  /** Splitting is the only way to read a text as alternating runs. */
  lemma {:induction false} TokensUnique(ts: seq<Text>)
    requires Alternate(ts)
    ensures Tokens(Flatten(ts)) == ts
    decreases |ts|
  {
    hide Flatten, IsSpace;
    FlattenNothing();
    if ts != [] {
      var t := Flatten(ts);
      FlattenFirst(ts);
      TokensUnique(ts[1..]);
      if |ts| > 1 {
        FlattenFirst(ts[1..]);
        assert t[|ts[0]|] == ts[1][0];
      }
      RunLengthIs(t, |ts[0]|);
      assert t[|ts[0]|..] == Flatten(ts[1..]);
      assert ts == [ts[0]] + ts[1..];
    }
  }

  lemma {:induction false} RunLengthIs(t: Text, n: nat)
    requires 1 <= n <= |t|
    requires forall i :: 0 <= i < n ==> IsSpace(t[i]) == IsSpace(t[0])
    requires n < |t| ==> IsSpace(t[n]) != IsSpace(t[0])
    ensures RunLength(t) == n
  {
    if n > 1 {
      RunLengthIs(t[1..], n - 1);
    }
  }

  /** Tokens are compared by their keys: all blanks have the same one. */
  function Key(t: Text): Text {
    if t != [] && IsSpace(t[0]) then [SPACE] else t
  }

  // ---- Longest common subsequences ------------------------------------------

  /** What the table holds: the longest common subsequence of the tokens from i and from j on. */
  function Lcs(a: seq<Text>, b: seq<Text>, i: nat, j: nat): nat
    requires i <= |a| && j <= |b|
    decreases |a| - i, |b| - j
  {
    if i == |a| || j == |b| then 0
    else if Key(a[i]) == Key(b[j]) then Lcs(a, b, i + 1, j + 1) + 1
    else Max(Lcs(a, b, i + 1, j), Lcs(a, b, i, j + 1))
  }

  lemma {:induction false} LcsBound(a: seq<Text>, b: seq<Text>, i: nat, j: nat)
    requires i <= |a| && j <= |b|
    ensures Lcs(a, b, i, j) <= |a| - i && Lcs(a, b, i, j) <= |b| - j
    decreases |a| - i, |b| - j
  {
    if i < |a| && j < |b| {
      LcsBound(a, b, i + 1, j + 1);
      LcsBound(a, b, i + 1, j);
      LcsBound(a, b, i, j + 1);
    }
  }

  datatype Pair = Pair(left: nat, right: nat)

  /** A common subsequence: pairs of matching tokens, moving forward in both texts. */
  ghost predicate Common(p: seq<Pair>, a: seq<Text>, b: seq<Text>, i: nat, j: nat) {
    && (forall k :: 0 <= k < |p| ==> i <= p[k].left < |a| && j <= p[k].right < |b| && Key(a[p[k].left]) == Key(b[p[k].right]))
    && (forall k, l :: 0 <= k < l < |p| ==> p[k].left < p[l].left && p[k].right < p[l].right)
  }

  lemma RestIsCommon(p: seq<Pair>, a: seq<Text>, b: seq<Text>, i: nat, j: nat)
    requires p != [] && Common(p, a, b, i, j)
    ensures Common(p[1..], a, b, i + 1, j + 1)
  {
    hide Key;
    forall k | 0 <= k < |p[1..]| ensures i + 1 <= p[1..][k].left && j + 1 <= p[1..][k].right {
      assert p[0].left < p[k + 1].left && p[0].right < p[k + 1].right;
    }
  }

  lemma OneMoreIsCommon(p: seq<Pair>, a: seq<Text>, b: seq<Text>, i: nat, j: nat)
    requires i < |a| && j < |b| && Key(a[i]) == Key(b[j]) && Common(p, a, b, i + 1, j + 1)
    ensures Common([Pair(i, j)] + p, a, b, i, j)
  {
    hide Key;
    var q := [Pair(i, j)] + p;
    forall k | 0 <= k < |q| ensures i <= q[k].left < |a| && j <= q[k].right < |b| && Key(a[q[k].left]) == Key(b[q[k].right]) {
      assert k > 0 ==> q[k] == p[k - 1];
    }
  }

  lemma NothingIsCommon(a: seq<Text>, b: seq<Text>, i: nat, j: nat)
    ensures Common([], a, b, i, j)
  {
  }

  lemma CommonFromEarlier(p: seq<Pair>, a: seq<Text>, b: seq<Text>, i: nat, j: nat, k: nat, l: nat)
    requires Common(p, a, b, i, j) && k <= i && l <= j
    ensures Common(p, a, b, k, l)
  {
    hide Key;
  }

  /** No common subsequence is longer than the table says. */
  lemma {:induction false} LcsIsLongest(p: seq<Pair>, a: seq<Text>, b: seq<Text>, i: nat, j: nat)
    requires i <= |a| && j <= |b| && Common(p, a, b, i, j)
    ensures |p| <= Lcs(a, b, i, j)
    decreases |a| - i, |b| - j
  {
    hide Key;
    if p != [] {
      assert i <= p[0].left < |a| && j <= p[0].right < |b|;
      if Key(a[i]) == Key(b[j]) {
        RestIsCommon(p, a, b, i, j);
        LcsIsLongest(p[1..], a, b, i + 1, j + 1);
      } else if p[0].left == i {
        forall k | 0 <= k < |p| ensures j + 1 <= p[k].right {
          if k > 0 { assert p[0].right < p[k].right; }
        }
        LcsIsLongest(p, a, b, i, j + 1);
      } else {
        forall k | 0 <= k < |p| ensures i + 1 <= p[k].left {
          if k > 0 { assert p[0].left < p[k].left; }
        }
        LcsIsLongest(p, a, b, i + 1, j);
      }
    }
  }

  // ---- The script the walk follows ------------------------------------------

  datatype Op = Same | Add | Del

  datatype Segment = Segment(text: Text, op: Op)

  /** One segment a token: what is pushed from (i, j) on. */
  function Script(a: seq<Text>, b: seq<Text>, i: nat, j: nat): seq<Segment>
    requires i <= |a| && j <= |b|
    decreases |a| - i, |b| - j
  {
    if i < |a| && j < |b| then
      if Key(a[i]) == Key(b[j]) then [Segment(b[j], Same)] + Script(a, b, i + 1, j + 1)
      else if Lcs(a, b, i + 1, j) >= Lcs(a, b, i, j + 1) then [Segment(a[i], Del)] + Script(a, b, i + 1, j)
      else [Segment(b[j], Add)] + Script(a, b, i, j + 1)
    else if i < |a| then [Segment(a[i], Del)] + Script(a, b, i + 1, j)
    else if j < |b| then [Segment(b[j], Add)] + Script(a, b, i, j + 1)
    else []
  }

  /** The texts of the segments with one of two operations. */
  function Picked(segments: seq<Segment>, op: Op): seq<Text> {
    if segments == [] then []
    else
      var rest := Picked(segments[1..], op);
      if segments[0].op in {Same, op} then [segments[0].text] + rest else rest
  }

  function SameCount(segments: seq<Segment>): nat {
    if segments == [] then 0 else (if segments[0].op == Same then 1 else 0) + SameCount(segments[1..])
  }

  function Keys(ts: seq<Text>): (ks: seq<Text>)
    ensures |ks| == |ts| && forall i :: 0 <= i < |ts| ==> ks[i] == Key(ts[i])
  {
    if ts == [] then [] else [Key(ts[0])] + Keys(ts[1..])
  }

  lemma {:induction false} ScriptSpellsAfter(a: seq<Text>, b: seq<Text>, i: nat, j: nat)
    requires i <= |a| && j <= |b|
    ensures Picked(Script(a, b, i, j), Add) == b[j..]
    decreases |a| - i, |b| - j
  {
    hide Lcs, Key;
    var s := Script(a, b, i, j);
    if j < |b| { assert b[j..] == [b[j]] + b[j + 1..]; }
    if i < |a| && j < |b| && Key(a[i]) == Key(b[j]) {
      ScriptSpellsAfter(a, b, i + 1, j + 1);
      assert s[1..] == Script(a, b, i + 1, j + 1);
    } else if i < |a| && (j == |b| || Lcs(a, b, i + 1, j) >= Lcs(a, b, i, j + 1)) {
      ScriptSpellsAfter(a, b, i + 1, j);
      assert s[1..] == Script(a, b, i + 1, j);
    } else if j < |b| {
      ScriptSpellsAfter(a, b, i, j + 1);
      assert s[1..] == Script(a, b, i, j + 1);
    }
  }

  lemma {:induction false} ScriptSpellsBefore(a: seq<Text>, b: seq<Text>, i: nat, j: nat)
    requires i <= |a| && j <= |b|
    ensures Keys(Picked(Script(a, b, i, j), Del)) == Keys(a[i..])
    decreases |a| - i, |b| - j
  {
    hide Lcs, Key;
    var s := Script(a, b, i, j);
    if i < |a| { assert a[i..] == [a[i]] + a[i + 1..]; }
    if i < |a| && j < |b| && Key(a[i]) == Key(b[j]) {
      ScriptSpellsBefore(a, b, i + 1, j + 1);
      assert s[1..] == Script(a, b, i + 1, j + 1);
    } else if i < |a| && (j == |b| || Lcs(a, b, i + 1, j) >= Lcs(a, b, i, j + 1)) {
      ScriptSpellsBefore(a, b, i + 1, j);
      assert s[1..] == Script(a, b, i + 1, j);
    } else if j < |b| {
      ScriptSpellsBefore(a, b, i, j + 1);
      assert s[1..] == Script(a, b, i, j + 1);
    }
  }

  /** The pairs of tokens the script keeps. */
  function Matching(a: seq<Text>, b: seq<Text>, i: nat, j: nat): seq<Pair>
    requires i <= |a| && j <= |b|
    decreases |a| - i, |b| - j
  {
    if i == |a| || j == |b| then []
    else if Key(a[i]) == Key(b[j]) then [Pair(i, j)] + Matching(a, b, i + 1, j + 1)
    else if Lcs(a, b, i + 1, j) >= Lcs(a, b, i, j + 1) then Matching(a, b, i + 1, j)
    else Matching(a, b, i, j + 1)
  }

  lemma {:induction false} MatchingIsCommon(a: seq<Text>, b: seq<Text>, i: nat, j: nat)
    requires i <= |a| && j <= |b|
    ensures Common(Matching(a, b, i, j), a, b, i, j) && |Matching(a, b, i, j)| == Lcs(a, b, i, j)
    decreases |a| - i, |b| - j
  {
    hide Key, Common;
    NothingIsCommon(a, b, i, j);
    if i < |a| && j < |b| {
      if Key(a[i]) == Key(b[j]) {
        MatchingIsCommon(a, b, i + 1, j + 1);
        OneMoreIsCommon(Matching(a, b, i + 1, j + 1), a, b, i, j);
      } else if Lcs(a, b, i + 1, j) >= Lcs(a, b, i, j + 1) {
        MatchingIsCommon(a, b, i + 1, j);
        CommonFromEarlier(Matching(a, b, i + 1, j), a, b, i + 1, j, i, j);
      } else {
        MatchingIsCommon(a, b, i, j + 1);
        CommonFromEarlier(Matching(a, b, i, j + 1), a, b, i, j + 1, i, j);
      }
    }
  }

  // ---- Merging neighbours ---------------------------------------------------

  function Push(out: seq<Segment>, text: Text, op: Op): seq<Segment> {
    if out != [] && out[|out| - 1].op == op then out[|out| - 1 := Segment(out[|out| - 1].text + text, op)]
    else out + [Segment(text, op)]
  }

  function Merge(out: seq<Segment>, script: seq<Segment>): seq<Segment>
    decreases |script|
  {
    if script == [] then out else Merge(Push(out, script[0].text, script[0].op), script[1..])
  }

  function Spelled(segments: seq<Segment>, op: Op): Text {
    Flatten(Picked(segments, op))
  }

  ghost predicate NeighboursDiffer(segments: seq<Segment>) {
    forall i :: 0 <= i < |segments| - 1 ==> segments[i].op != segments[i + 1].op
  }

  lemma {:induction false} PickedConcat(s: seq<Segment>, t: seq<Segment>, op: Op)
    ensures Picked(s + t, op) == Picked(s, op) + Picked(t, op)
  {
    if s == [] {
      assert s + t == t;
    } else {
      PickedConcat(s[1..], t, op);
      assert (s + t)[1..] == s[1..] + t;
    }
  }

  lemma OneSegment(text: Text, how: Op, op: Op)
    ensures Spelled([Segment(text, how)], op) == if how in {Same, op} then text else []
  {
    var s := [Segment(text, how)];
    assert s[1..] == [];
    assert Picked(s[1..], op) == [];
    if how in {Same, op} {
      var one := [text];
      assert Picked(s, op) == one;
      assert one[..0] == [];
      assert Flatten(one) == text;
    }
  }

  lemma SpelledConcat(s: seq<Segment>, t: seq<Segment>, op: Op)
    ensures Spelled(s + t, op) == Spelled(s, op) + Spelled(t, op)
  {
    PickedConcat(s, t, op);
    FlattenConcat(Picked(s, op), Picked(t, op));
  }

  lemma PushSpells(out: seq<Segment>, text: Text, how: Op, op: Op)
    ensures Spelled(Push(out, text, how), op) == Spelled(out, op) + Spelled([Segment(text, how)], op)
  {
    OneSegment(text, how, op);
    if out != [] && out[|out| - 1].op == how {
      var front, last := out[..|out| - 1], out[|out| - 1];
      assert out == front + [last] && last == Segment(last.text, how);
      assert Push(out, text, how) == front + [Segment(last.text + text, how)];
      SpelledConcat(front, [last], op);
      SpelledConcat(front, [Segment(last.text + text, how)], op);
      OneSegment(last.text, how, op);
      OneSegment(last.text + text, how, op);
    } else {
      SpelledConcat(out, [Segment(text, how)], op);
    }
  }

  lemma {:induction false} MergeSpells(out: seq<Segment>, script: seq<Segment>, op: Op)
    ensures Spelled(Merge(out, script), op) == Spelled(out, op) + Spelled(script, op)
    decreases |script|
  {
    if script != [] {
      var first := script[0];
      MergeSpells(Push(out, first.text, first.op), script[1..], op);
      PushSpells(out, first.text, first.op, op);
      assert script == [first] + script[1..] && first == Segment(first.text, first.op);
      SpelledConcat([first], script[1..], op);
    }
  }

  lemma {:induction false} MergeSeparates(out: seq<Segment>, script: seq<Segment>)
    requires NeighboursDiffer(out)
    ensures NeighboursDiffer(Merge(out, script))
    decreases |script|
  {
    if script != [] {
      MergeSeparates(Push(out, script[0].text, script[0].op), script[1..]);
    }
  }

  // ---- Counting what is kept ------------------------------------------------

  /** The tokens of the kept segments. */
  function KeptTokens(segments: seq<Segment>): nat {
    if segments == [] then 0
    else
      var last := segments[|segments| - 1];
      KeptTokens(segments[..|segments| - 1]) + if last.op == Same then |Tokens(last.text)| else 0
  }

  lemma KeptSnoc(out: seq<Segment>, last: Segment)
    ensures KeptTokens(out + [last]) == KeptTokens(out) + if last.op == Same then |Tokens(last.text)| else 0
  {
    assert (out + [last])[..|out + [last]| - 1] == out;
  }

  /** A last kept segment is made of consecutive tokens of the new text, up to j. */
  ghost predicate EndsAt(out: seq<Segment>, b: seq<Text>, j: nat)
    requires j <= |b|
  {
    out != [] && out[|out| - 1].op == Same ==> exists k | 0 <= k <= j :: out[|out| - 1].text == Flatten(b[k..j])
  }

  lemma PushKept(out: seq<Segment>, b: seq<Text>, j: nat)
    requires Alternate(b) && j < |b| && EndsAt(out, b, j)
    ensures KeptTokens(Push(out, b[j], Same)) == KeptTokens(out) + 1 && EndsAt(Push(out, b[j], Same), b, j + 1)
  {
    hide Tokens, Flatten, Alternate, KeptTokens;
    var t := Push(out, b[j], Same);
    if out != [] && out[|out| - 1].op == Same {
      var front, last := out[..|out| - 1], out[|out| - 1];
      var k :| 0 <= k <= j && last.text == Flatten(b[k..j]);
      TokensOfSlice(b, k, j);
      TokensOfSlice(b, k, j + 1);
      OneMoreToken(b, k, j);
      assert out == front + [last] && t == front + [Segment(last.text + b[j], Same)];
      KeptSnoc(front, last);
      KeptSnoc(front, Segment(last.text + b[j], Same));
    } else {
      TokensOfSlice(b, j, j + 1);
      OneToken(b, j);
      KeptSnoc(out, Segment(b[j], Same));
    }
  }

  lemma TokensOfSlice(b: seq<Text>, k: nat, j: nat)
    requires Alternate(b) && k <= j <= |b|
    ensures |Tokens(Flatten(b[k..j]))| == j - k
  {
    hide IsRun;
    TokensUnique(b[k..j]);
  }

  lemma OneMoreToken(b: seq<Text>, k: nat, j: nat)
    requires k <= j < |b|
    ensures Flatten(b[k..j + 1]) == Flatten(b[k..j]) + b[j]
  {
    assert b[k..j + 1][..|b[k..j + 1]| - 1] == b[k..j];
  }

  lemma OneToken(b: seq<Text>, j: nat)
    requires j < |b|
    ensures Flatten(b[j..j + 1]) == b[j]
  {
    OneMoreToken(b, j, j);
    assert b[j..j] == [];
  }

  lemma PushOther(out: seq<Segment>, text: Text, op: Op, b: seq<Text>, j: nat)
    requires op != Same && j <= |b|
    ensures KeptTokens(Push(out, text, op)) == KeptTokens(out) && EndsAt(Push(out, text, op), b, j)
  {
    if out != [] && out[|out| - 1].op == op {
      var front, last := out[..|out| - 1], out[|out| - 1];
      assert out == front + [last] && Push(out, text, op) == front + [Segment(last.text + text, op)];
      KeptSnoc(front, last);
      KeptSnoc(front, Segment(last.text + text, op));
    } else {
      KeptSnoc(out, Segment(text, op));
    }
  }

  lemma {:induction false} MergeKeeps(out: seq<Segment>, a: seq<Text>, b: seq<Text>, i: nat, j: nat)
    requires i <= |a| && j <= |b| && Alternate(b) && EndsAt(out, b, j)
    ensures KeptTokens(Merge(out, Script(a, b, i, j))) == KeptTokens(out) + Lcs(a, b, i, j)
    decreases |a| - i, |b| - j
  {
    hide Key, Push, KeptTokens, EndsAt, Alternate;
    var s := Script(a, b, i, j);
    if i < |a| && j < |b| && Key(a[i]) == Key(b[j]) {
      PushKept(out, b, j);
      MergeKeeps(Push(out, b[j], Same), a, b, i + 1, j + 1);
      assert s[1..] == Script(a, b, i + 1, j + 1);
    } else if i < |a| && (j == |b| || Lcs(a, b, i + 1, j) >= Lcs(a, b, i, j + 1)) {
      PushOther(out, a[i], Del, b, j);
      MergeKeeps(Push(out, a[i], Del), a, b, i + 1, j);
      assert s[1..] == Script(a, b, i + 1, j);
    } else if j < |b| {
      PushOther(out, b[j], Add, b, j + 1);
      MergeKeeps(Push(out, b[j], Add), a, b, i, j + 1);
      assert s[1..] == Script(a, b, i, j + 1);
    }
  }

  // ---- The diff -------------------------------------------------------------

  /** The text up to whitespace runs, each of which becomes one space. */
  function WithEqualBlanks(t: Text): Text {
    Flatten(Keys(Tokens(t)))
  }

  lemma SameKeysAlternate(ts: seq<Text>, us: seq<Text>)
    requires Alternate(us) && Keys(ts) == Keys(us)
    requires forall i :: 0 <= i < |ts| ==> IsRun(ts[i])
    ensures Alternate(ts)
  {
    forall i | 0 <= i < |ts| ensures IsSpace(ts[i][0]) == IsSpace(us[i][0]) {
      assert Keys(ts)[i] == Keys(us)[i];
    }
  }

  lemma {:induction false} PickedRuns(a: seq<Text>, b: seq<Text>, i: nat, j: nat)
    requires i <= |a| && j <= |b| && Alternate(a) && Alternate(b)
    ensures forall k :: 0 <= k < |Picked(Script(a, b, i, j), Del)| ==> IsRun(Picked(Script(a, b, i, j), Del)[k])
    decreases |a| - i, |b| - j
  {
    hide Lcs, Key, IsSpace;
    var s := Script(a, b, i, j);
    if i < |a| && j < |b| && Key(a[i]) == Key(b[j]) {
      PickedRuns(a, b, i + 1, j + 1);
      assert s[1..] == Script(a, b, i + 1, j + 1);
    } else if i < |a| && (j == |b| || Lcs(a, b, i + 1, j) >= Lcs(a, b, i, j + 1)) {
      PickedRuns(a, b, i + 1, j);
      assert s[1..] == Script(a, b, i + 1, j);
    } else if j < |b| {
      PickedRuns(a, b, i, j + 1);
      assert s[1..] == Script(a, b, i, j + 1);
    }
  }

  function DiffOf(before: Text, after: Text): seq<Segment> {
    Merge([], Script(Tokens(before), Tokens(after), 0, 0))
  }

  lemma SpelledNothing(op: Op)
    ensures Spelled([], op) == []
  {
  }

  /** The added and kept segments are exactly the new text. */
  lemma DiffSpellsAfter(before: Text, after: Text)
    ensures Spelled(DiffOf(before, after), Add) == after
  {
    var a, b := Tokens(before), Tokens(after);
    ScriptSpellsAfter(a, b, 0, 0);
    MergeSpells([], Script(a, b, 0, 0), Add);
    TokensAlternate(after);
    assert b[0..] == b;
  }

  /** The deleted and kept segments are the old text, up to the length and kind of whitespace runs. */
  lemma DiffSpellsBefore(before: Text, after: Text)
    ensures WithEqualBlanks(Spelled(DiffOf(before, after), Del)) == WithEqualBlanks(before)
  {
    SpelledNothing(Del);
    hide Tokens, Script, Picked, Merge, Keys, Flatten, Alternate;
    var a, b := Tokens(before), Tokens(after);
    var picked := Picked(Script(a, b, 0, 0), Del);
    ScriptSpellsBefore(a, b, 0, 0);
    MergeSpells([], Script(a, b, 0, 0), Del);
    TokensAlternate(before);
    TokensAlternate(after);
    assert a[0..] == a;
    PickedRuns(a, b, 0, 0);
    SameKeysAlternate(picked, a);
    TokensUnique(picked);
    assert Spelled(DiffOf(before, after), Del) == [] + Flatten(picked) == Flatten(picked);
  }

  /** As many tokens are kept as the two texts have in common, in order: some alignment keeps that many, none keeps more. */
  lemma DiffIsMinimal(before: Text, after: Text)
    ensures exists p :: Common(p, Tokens(before), Tokens(after), 0, 0) && |p| == KeptTokens(DiffOf(before, after))
    ensures forall p :: Common(p, Tokens(before), Tokens(after), 0, 0) ==> |p| <= KeptTokens(DiffOf(before, after))
  {
    var a, b := Tokens(before), Tokens(after);
    TokensAlternate(after);
    MergeKeeps([], a, b, 0, 0);
    MatchingIsCommon(a, b, 0, 0);
    assert KeptTokens(DiffOf(before, after)) == Lcs(a, b, 0, 0);
    hide Common, Tokens, DiffOf, KeptTokens;
    forall p | Common(p, a, b, 0, 0) ensures |p| <= Lcs(a, b, 0, 0) {
      LcsIsLongest(p, a, b, 0, 0);
    }
  }

  /** No two neighbouring segments have the same operation. */
  lemma DiffSegmentsAlternate(before: Text, after: Text)
    ensures NeighboursDiffer(DiffOf(before, after))
  {
    MergeSeparates([], Script(Tokens(before), Tokens(after), 0, 0));
  }

  // ---- In a table -----------------------------------------------------------

  newtype Cell = c: int | 0 <= c < 0x1_0000

  predicate TooLarge(n: nat, m: nat, maxCells: nat) {
    (n + 1) * (m + 1) > maxCells || Min(n, m) > 65535
  }

  lemma CellFits(n: nat, m: nat, i: nat, j: nat)
    requires i <= n && j <= m
    ensures i * (m + 1) + j < (n + 1) * (m + 1)
  {
    assert i * (m + 1) <= n * (m + 1);
  }

  /** Cell (i, j) of a table with m + 1 columns. */
  function At(m: nat, i: nat, j: nat): nat {
    i * (m + 1) + j
  }

  lemma RowsApart(m: nat, i: nat, k: nat)
    requires i < k
    ensures At(m, k, 0) >= At(m, i, 0) + m + 1
  {
    assert (k - i - 1) * (m + 1) >= 0;
    assert k * (m + 1) == i * (m + 1) + (m + 1) + (k - i - 1) * (m + 1);
  }

  lemma CellsDiffer(m: nat, i: nat, j: nat, k: nat, l: nat)
    requires j <= m && l <= m && (i != k || j != l)
    ensures At(m, i, j) != At(m, k, l)
  {
    if i < k {
      RowsApart(m, i, k);
    } else if k < i {
      RowsApart(m, k, i);
    }
  }

  /** Cell (i, j) holds the length it stands for. */
  ghost predicate Holds(cells: seq<Cell>, a: seq<Text>, b: seq<Text>, i: nat, j: nat)
    requires i <= |a| && j <= |b|
  {
    At(|b|, i, j) < |cells| && cells[At(|b|, i, j)] as int == Lcs(a, b, i, j)
  }

  /** The rows below row i, row i from column j on, and the borders are filled in. */
  ghost predicate FilledFrom(cells: seq<Cell>, a: seq<Text>, b: seq<Text>, i: nat, j: nat) {
    forall k: nat, l: nat :: k <= |a| && l <= |b| && (k > i || (k == i && l >= j) || k == |a| || l == |b|) ==> Holds(cells, a, b, k, l)
  }

  lemma BordersAreZero(cells: seq<Cell>, a: seq<Text>, b: seq<Text>)
    requires |cells| == (|a| + 1) * (|b| + 1) && forall c :: 0 <= c < |cells| ==> cells[c] == 0
    ensures FilledFrom(cells, a, b, |a|, 0)
  {
    forall k: nat, l: nat | k <= |a| && l <= |b| && (k == |a| || l == |b|) ensures Holds(cells, a, b, k, l) {
      CellFits(|a|, |b|, k, l);
    }
  }

  lemma KeptCell(cells: seq<Cell>, a: seq<Text>, b: seq<Text>, i: nat, j: nat, k: nat, l: nat, c: Cell)
    requires i <= |a| && j <= |b| && k <= |a| && l <= |b| && (i != k || j != l)
    requires At(|b|, i, j) < |cells| && Holds(cells, a, b, k, l)
    ensures Holds(cells[At(|b|, i, j) := c], a, b, k, l)
  {
    hide Lcs;
    CellsDiffer(|b|, i, j, k, l);
  }

  lemma OneMoreCell(cells: seq<Cell>, a: seq<Text>, b: seq<Text>, i: nat, j: nat, c: Cell)
    requires i < |a| && j < |b| && |cells| == (|a| + 1) * (|b| + 1)
    requires FilledFrom(cells, a, b, i, j + 1) && c as int == Lcs(a, b, i, j)
    ensures At(|b|, i, j) < |cells| && FilledFrom(cells[At(|b|, i, j) := c], a, b, i, j)
  {
    CellFits(|a|, |b|, i, j);
    var after := cells[At(|b|, i, j) := c];
    assert Holds(after, a, b, i, j);
    hide Lcs, At, Holds;
    forall k: nat, l: nat | k <= |a| && l <= |b| && (k > i || (k == i && l >= j) || k == |a| || l == |b|) ensures Holds(after, a, b, k, l) {
      if k != i || l != j {
        assert Holds(cells, a, b, k, l);
        KeptCell(cells, a, b, i, j, k, l, c);
      }
    }
  }

  /** The value of one cell from its three neighbours. */
  method CellValue(table: array<Cell>, a: seq<Text>, b: seq<Text>, i: nat, j: nat) returns (c: Cell)
    requires i < |a| && j < |b| && Min(|a|, |b|) <= 65535
    requires FilledFrom(table[..], a, b, i, j + 1)
    ensures c as int == Lcs(a, b, i, j)
  {
    assert Holds(table[..], a, b, i + 1, j) && Holds(table[..], a, b, i + 1, j + 1) && Holds(table[..], a, b, i, j + 1);
    LcsBound(a, b, i, j);
    hide Key;
    if Key(a[i]) == Key(b[j]) {
      c := table[At(|b|, i + 1, j + 1)] + 1;
    } else {
      var down, right := table[At(|b|, i + 1, j)], table[At(|b|, i, j + 1)];
      c := if down < right then right else down;
    }
  }

  method FillTable(a: seq<Text>, b: seq<Text>) returns (table: array<Cell>)
    requires Min(|a|, |b|) <= 65535
    ensures fresh(table) && table.Length == (|a| + 1) * (|b| + 1) && FilledFrom(table[..], a, b, 0, 0)
  {
    hide Lcs, Key, At, Holds, FilledFrom;
    table := new Cell[(|a| + 1) * (|b| + 1)](_ => 0);
    BordersAreZero(table[..], a, b);
    var i: nat := |a|;
    while i > 0
      invariant i <= |a| && FilledFrom(table[..], a, b, i, 0)
    {
      NextRow(table[..], a, b, i);
      i := i - 1;
      var j: nat := |b|;
      while j > 0
        invariant j <= |b| && FilledFrom(table[..], a, b, i, j)
      {
        j := j - 1;
        var c := CellValue(table, a, b, i, j);
        OneMoreCell(table[..], a, b, i, j, c);
        ghost var next := table[..][At(|b|, i, j) := c];
        table[At(|b|, i, j)] := c;
        assert table[..] == next;
      }
    }
  }

  lemma NextRow(cells: seq<Cell>, a: seq<Text>, b: seq<Text>, i: nat)
    requires i > 0 && FilledFrom(cells, a, b, i, 0)
    ensures FilledFrom(cells, a, b, i - 1, |b|)
  {
    hide Lcs, At;
  }

  /** One step of the walk peels one segment off the script. */
  lemma ScriptStep(out: seq<Segment>, a: seq<Text>, b: seq<Text>, i: nat, j: nat)
    requires i <= |a| && j <= |b| && (i < |a| || j < |b|)
    ensures var s := Script(a, b, i, j); s != [] && Merge(out, s) == Merge(Push(out, s[0].text, s[0].op), s[1..])
  {
  }

  lemma ScriptCases(a: seq<Text>, b: seq<Text>, i: nat, j: nat)
    requires i <= |a| && j <= |b| && (i < |a| || j < |b|)
    ensures var s := Script(a, b, i, j);
      s != [] && if i < |a| && j < |b| && Key(a[i]) == Key(b[j]) then s[0] == Segment(b[j], Same) && s[1..] == Script(a, b, i + 1, j + 1)
        else if i < |a| && (j == |b| || Lcs(a, b, i + 1, j) >= Lcs(a, b, i, j + 1)) then s[0] == Segment(a[i], Del) && s[1..] == Script(a, b, i + 1, j)
        else s[0] == Segment(b[j], Add) && s[1..] == Script(a, b, i, j + 1)
  {
    hide Key, Lcs;
  }

  lemma ScriptEnds(a: seq<Text>, b: seq<Text>, out: seq<Segment>)
    ensures Merge(out, Script(a, b, |a|, |b|)) == out
  {
  }

  method PushSegment(out: seq<Segment>, text: Text, op: Op) returns (pushed: seq<Segment>)
    ensures pushed == Push(out, text, op)
  {
    if out != [] && out[|out| - 1].op == op {
      pushed := out[|out| - 1 := Segment(out[|out| - 1].text + text, op)];
    } else {
      pushed := out + [Segment(text, op)];
    }
  }

  /** None exactly when the table would have too many cells or a cell could overflow. */
  method Diff(before: Text, after: Text, maxCells: nat) returns (r: Option<seq<Segment>>)
    ensures r.None? <==> TooLarge(|Tokens(before)|, |Tokens(after)|, maxCells)
    ensures r.Some? ==> r.value == DiffOf(before, after)
  {
    var a, b := Tokens(before), Tokens(after);
    if TooLarge(|a|, |b|, maxCells) { return None; }
    var table := FillTable(a, b);
    var out := Walk(table, a, b);
    return Some(out);
  }

  method Walk(table: array<Cell>, a: seq<Text>, b: seq<Text>) returns (out: seq<Segment>)
    requires FilledFrom(table[..], a, b, 0, 0)
    ensures out == Merge([], Script(a, b, 0, 0))
  {
    hide Key, Push, Merge, Script, Lcs;
    out := [];
    var i: nat, j: nat := 0, 0;
    while i < |a| && j < |b|
      invariant i <= |a| && j <= |b|
      invariant Merge(out, Script(a, b, i, j)) == Merge([], Script(a, b, 0, 0))
      decreases |a| - i + |b| - j
    {
      assert Holds(table[..], a, b, i + 1, j) && Holds(table[..], a, b, i, j + 1);
      ScriptStep(out, a, b, i, j);
      ScriptCases(a, b, i, j);
      if Key(a[i]) == Key(b[j]) {
        out := PushSegment(out, b[j], Same);
        i, j := i + 1, j + 1;
      } else if table[At(|b|, i + 1, j)] >= table[At(|b|, i, j + 1)] {
        out := PushSegment(out, a[i], Del);
        i := i + 1;
      } else {
        out := PushSegment(out, b[j], Add);
        j := j + 1;
      }
    }
    out := Rest(out, a, b, i, j);
  }

  /** What is left of one text when the other has come to its end. */
  method Rest(start: seq<Segment>, a: seq<Text>, b: seq<Text>, from: nat, at: nat) returns (out: seq<Segment>)
    requires from <= |a| && at <= |b| && (from == |a| || at == |b|)
    ensures out == Merge(start, Script(a, b, from, at))
  {
    hide Key, Push, Merge, Script, Lcs;
    out := start;
    var i, j := from, at;
    while i < |a|
      invariant i <= |a| && j <= |b| && (i == |a| || j == |b|)
      invariant Merge(out, Script(a, b, i, j)) == Merge(start, Script(a, b, from, at))
    {
      ScriptStep(out, a, b, i, j);
      ScriptCases(a, b, i, j);
      out := PushSegment(out, a[i], Del);
      i := i + 1;
    }
    while j < |b|
      invariant i == |a| && j <= |b|
      invariant Merge(out, Script(a, b, i, j)) == Merge(start, Script(a, b, from, at))
    {
      ScriptStep(out, a, b, i, j);
      ScriptCases(a, b, i, j);
      out := PushSegment(out, b[j], Add);
      j := j + 1;
    }
    ScriptEnds(a, b, out);
  }
}
