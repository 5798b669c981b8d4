/** Splitting a tutor note into chunks for the knowledge index. */
module ChunkText {
  import opened Texts

  /** What is left of a text without its whitespace. */
  function Visible(t: Text): Text {
    if t == [] then [] else Visible(t[..|t| - 1]) + if IsSpace(t[|t| - 1]) then [] else [t[|t| - 1]]
  }

  lemma {:induction false} VisibleConcat(s: Text, t: Text)
    ensures Visible(s + t) == Visible(s) + Visible(t)
  {
    if t == [] {
      assert s + t == s;
    } else {
      VisibleConcat(s, t[..|t| - 1]);
      assert (s + t)[..|s + t| - 1] == s + t[..|t| - 1];
    }
  }

  lemma {:induction false} OnlySpaces(t: Text)
    requires forall i :: 0 <= i < |t| ==> IsSpace(t[i])
    ensures Visible(t) == []
  {
    if t != [] { OnlySpaces(t[..|t| - 1]); }
  }

  lemma TrimKeepsVisible(t: Text)
    ensures Visible(Trim(t)) == Visible(t)
  {
    TrimStartIsSuffix(t);
    var u := TrimStart(t);
    TrimEndIsPrefix(u);
    var n := Leading(t);
    OnlySpaces(t[..n]);
    assert t == t[..n] + u;
    VisibleConcat(t[..n], u);
    var m := |TrimEnd(u)|;
    assert u == u[..m] + u[m..] && u[..m] == TrimEnd(u);
    OnlySpaces(u[m..]);
    VisibleConcat(u[..m], u[m..]);
  }

  // ---- Cleaning and splitting -----------------------------------------------

  function WithoutReturns(t: Text): Text {
    if t == [] then []
    else
      var front := WithoutReturns(t[..|t| - 1]);
      if t[|t| - 1] == RETURN then front else front + [t[|t| - 1]]
  }

  predicate IsBlank(u: CodeUnit) {
    u == SPACE || u == TAB
  }

  /** Every run of blanks becomes one space. */
  function WithSingleBlanks(t: Text): Text {
    if t == [] then []
    else
      var front := WithSingleBlanks(t[..|t| - 1]);
      if !IsBlank(t[|t| - 1]) then front + [t[|t| - 1]]
      else if |t| > 1 && IsBlank(t[|t| - 2]) then front
      else front + [SPACE]
  }

  function Cleaned(t: Text): Text {
    Trim(WithSingleBlanks(WithoutReturns(t)))
  }

  lemma {:induction false} WithoutReturnsKeepsVisible(t: Text)
    ensures Visible(WithoutReturns(t)) == Visible(t)
  {
    if t != [] {
      var last := t[|t| - 1];
      assert IsSpace(RETURN);
      WithoutReturnsKeepsVisible(t[..|t| - 1]);
      OneAtTheEnd(WithoutReturns(t[..|t| - 1]), last);
      OneAtTheEnd(t[..|t| - 1], last);
      assert t == t[..|t| - 1] + [last];
    }
  }

  lemma OneAtTheEnd(t: Text, u: CodeUnit)
    ensures Visible(t + [u]) == Visible(t) + if IsSpace(u) then [] else [u]
  {
    assert (t + [u])[..|t + [u]| - 1] == t;
  }

  lemma NothingVisible()
    ensures Visible([]) == []
  {
  }

  lemma BlanksAreSpaces()
    ensures IsSpace(SPACE) && forall u :: IsBlank(u) ==> IsSpace(u)
  {
  }

  lemma {:induction false} WithSingleBlanksKeepsVisible(t: Text)
    ensures Visible(WithSingleBlanks(t)) == Visible(t)
  {
    NothingVisible();
    BlanksAreSpaces();
    hide IsSpace, Visible, IsBlank;
    if t != [] {
      var front, last := WithSingleBlanks(t[..|t| - 1]), t[|t| - 1];
      WithSingleBlanksKeepsVisible(t[..|t| - 1]);
      OneAtTheEnd(t[..|t| - 1], last);
      assert t == t[..|t| - 1] + [last];
      OneAtTheEnd(front, last);
      OneAtTheEnd(front, SPACE);
    }
  }

  lemma CleaningKeepsVisible(t: Text)
    ensures Visible(Cleaned(t)) == Visible(t)
  {
    WithoutReturnsKeepsVisible(t);
    WithSingleBlanksKeepsVisible(WithoutReturns(t));
    TrimKeepsVisible(WithSingleBlanks(WithoutReturns(t)));
  }

  function Newlines(t: Text): (n: nat)
    ensures n <= |t| && forall i :: 0 <= i < n ==> t[i] == NEWLINE
  {
    if t != [] && t[0] == NEWLINE then 1 + Newlines(t[1..]) else 0
  }

  /** Split at runs of two or more newlines; `current` is the paragraph read so far. */
  function Paragraphs(current: Text, t: Text): (ps: seq<Text>)
    ensures ps != []
    decreases |t|
  {
    if t == [] then [current]
    else if Newlines(t) >= 2 then [current] + Paragraphs([], t[Newlines(t)..])
    else Paragraphs(current + [t[0]], t[1..])
  }

  /** Full stops: . ! ? and the Ethiopic one. */
  predicate IsStop(u: CodeUnit) {
    u == 0x2E || u == 0x21 || u == 0x3F || u == 0x1362
  }

  /** Split at whitespace that follows a stop. */
  function Sentences(current: Text, t: Text): (ss: seq<Text>)
    ensures ss != []
    decreases |t|
  {
    if t == [] then [current]
    else if current != [] && IsStop(current[|current| - 1]) && IsSpace(t[0]) then [current] + Sentences([], t[Leading(t)..])
    else Sentences(current + [t[0]], t[1..])
  }

  lemma DroppedSpaces(current: Text, t: Text, n: nat)
    requires n <= |t| && forall i :: 0 <= i < n ==> IsSpace(t[i])
    ensures Visible(current + t) == Visible(current) + Visible(t[n..])
  {
    assert t == t[..n] + t[n..];
    VisibleConcat(t[..n], t[n..]);
    OnlySpaces(t[..n]);
    VisibleConcat(current, t);
  }

  lemma {:induction false} ParagraphsKeepVisible(current: Text, t: Text)
    ensures Visible(Flatten(Paragraphs(current, t))) == Visible(current + t)
    decreases |t|
  {
    NothingVisible();
    hide Visible, Flatten;
    if t == [] {
      assert current + t == current;
      FlattenOne(current);
    } else if Newlines(t) >= 2 {
      var rest := Paragraphs([], t[Newlines(t)..]);
      ParagraphsKeepVisible([], t[Newlines(t)..]);
      assert [] + t[Newlines(t)..] == t[Newlines(t)..];
      DroppedSpaces(current, t, Newlines(t));
      FlattenMore(current, rest);
    } else {
      ParagraphsKeepVisible(current + [t[0]], t[1..]);
      assert current + [t[0]] + t[1..] == current + t;
    }
  }

  lemma FlattenOne(t: Text)
    ensures Flatten([t]) == t
  {
    var one := [t];
    assert one[..0] == [];
  }

  lemma FlattenMore(t: Text, rest: seq<Text>)
    ensures Flatten([t] + rest) == t + Flatten(rest)
    ensures Visible(Flatten([t] + rest)) == Visible(t) + Visible(Flatten(rest))
  {
    FlattenOne(t);
    FlattenConcat([t], rest);
    VisibleConcat(t, Flatten(rest));
  }

  lemma {:induction false} SentencesKeepVisible(current: Text, t: Text)
    ensures Visible(Flatten(Sentences(current, t))) == Visible(current + t)
    decreases |t|
  {
    if t == [] {
      assert current + t == current;
      FlattenOne(current);
    } else if current != [] && IsStop(current[|current| - 1]) && IsSpace(t[0]) {
      TrimStartIsSuffix(t);
      SentencesKeepVisible([], t[Leading(t)..]);
      assert [] + t[Leading(t)..] == t[Leading(t)..];
      DroppedSpaces(current, t, Leading(t));
      FlattenMore(current, Sentences([], t[Leading(t)..]));
    } else {
      SentencesKeepVisible(current + [t[0]], t[1..]);
      assert current + [t[0]] + t[1..] == current + t;
    }
  }

  // ---- Chunking -------------------------------------------------------------

  ghost predicate GoodChunks(chunks: seq<Text>, size: nat) {
    forall i :: 0 <= i < |chunks| ==> chunks[i] != [] && |chunks[i]| <= size && IsTrimmed(chunks[i])
  }

  /** What has been read so far, in the chunks and in the current one. */
  function Held(chunks: seq<Text>, current: Text): Text {
    Visible(Flatten(chunks)) + Visible(current)
  }

  lemma FlattenLast(chunks: seq<Text>, t: Text)
    ensures Visible(Flatten(chunks + [t])) == Visible(Flatten(chunks)) + Visible(t)
  {
    FlattenConcat(chunks, [t]);
    FlattenOne(t);
    VisibleConcat(Flatten(chunks), t);
  }

  method Push(chunks: seq<Text>, current: Text, size: nat) returns (pushed: seq<Text>)
    requires GoodChunks(chunks, size) && |current| <= size
    ensures GoodChunks(pushed, size)
    ensures Held(pushed, []) == Held(chunks, current)
  {
    TrimTrims(current);
    TrimKeepsVisible(current);
    NothingVisible();
    hide Trim, Flatten, Visible, IsTrimmed;
    var trimmed := Trim(current);
    if trimmed != [] {
      pushed := chunks + [trimmed];
      FlattenLast(chunks, trimmed);
    } else {
      pushed := chunks;
    }
  }

  /** A sentence longer than a chunk is cut into slices. */
  method PushSlices(chunks: seq<Text>, sentence: Text, size: nat) returns (pushed: seq<Text>)
    requires GoodChunks(chunks, size) && size > 0
    ensures GoodChunks(pushed, size)
    ensures Held(pushed, []) == Held(chunks, sentence)
  {
    NothingVisible();
    hide Visible, Flatten, GoodChunks;
    pushed := chunks;
    var i := 0;
    ghost var done := 0;
    assert sentence[..done] == [];
    while i < |sentence|
      invariant GoodChunks(pushed, size)
      invariant done == if i < |sentence| then i else |sentence|
      invariant Held(pushed, []) == Held(chunks, sentence[..done])
      decreases |sentence| - i
    {
      var end := if i + size < |sentence| then i + size else |sentence|;
      VisibleConcat(sentence[..i], sentence[i..end]);
      assert sentence[..end] == sentence[..i] + sentence[i..end];
      assert Held(pushed, []) + Visible(sentence[i..end]) == Held(pushed, sentence[i..end]);
      assert Held(chunks, sentence[..i]) + Visible(sentence[i..end]) == Held(chunks, sentence[..end]);
      pushed := Push(pushed, sentence[i..end], size);
      i := i + size;
      done := end;
    }
    assert sentence[..|sentence|] == sentence;
  }

  lemma JoinedVisible(left: Text, sentence: Text)
    ensures Visible(left + [SPACE] + sentence) == Visible(left) + Visible(sentence)
  {
    VisibleConcat(left + [SPACE], sentence);
    OneAtTheEnd(left, SPACE);
  }

  method AddSentence(chunks: seq<Text>, current: Text, sentence: Text, size: nat) returns (after: seq<Text>, left: Text)
    requires GoodChunks(chunks, size) && size > 0 && |current| <= size
    ensures GoodChunks(after, size) && |left| <= size
    ensures Held(after, left) == Held(chunks, current) + Visible(sentence)
  {
    hide Visible, Flatten, GoodChunks;
    NothingVisible();
    after, left := chunks, current;
    if |left| + 1 + |sentence| > size && left != [] {
      after := Push(after, left, size);
      left := [];
    }
    if |sentence| > size {
      assert left == [];
      after := PushSlices(after, sentence, size);
    } else if left != [] {
      JoinedVisible(left, sentence);
      left := left + [SPACE] + sentence;
    } else {
      left := sentence;
    }
  }

  method AddParagraph(chunks: seq<Text>, current: Text, paragraph: Text, size: nat) returns (after: seq<Text>, left: Text)
    requires GoodChunks(chunks, size) && size > 0 && |current| <= size
    ensures GoodChunks(after, size) && |left| <= size
    ensures Held(after, left) == Held(chunks, current) + Visible(paragraph)
  {
    NothingVisible();
    hide Visible, Flatten, GoodChunks;
    after, left := chunks, current;
    var sentences := Sentences([], paragraph);
    SentencesKeepVisible([], paragraph);
    assert [] + paragraph == paragraph;
    NothingFlat(sentences);
    for i := 0 to |sentences|
      invariant GoodChunks(after, size) && |left| <= size
      invariant Held(after, left) == Held(chunks, current) + Visible(Flatten(sentences[..i]))
    {
      FlattenNext(sentences, i);
      after, left := AddSentence(after, left, sentences[i], size);
    }
    assert sentences[..|sentences|] == sentences;
    // Close a chunk at a paragraph's end once it is more than 60% full.
    if 5 * |left| > 3 * size {
      after := Push(after, left, size);
      left := [];
    }
  }

  lemma NothingFlat(ts: seq<Text>)
    ensures Visible(Flatten(ts[..0])) == []
  {
  }

  lemma FlattenNext(ts: seq<Text>, i: nat)
    requires i < |ts|
    ensures Visible(Flatten(ts[..i + 1])) == Visible(Flatten(ts[..i])) + Visible(ts[i])
  {
    assert ts[..i + 1][..i] == ts[..i];
    VisibleConcat(Flatten(ts[..i]), ts[i]);
  }

  lemma NothingHeld(paragraphs: seq<Text>, size: nat)
    ensures GoodChunks([], size) && Held([], []) == Visible(Flatten(paragraphs[..0]))
  {
  }

  /** Once nothing is left over, the chunks hold everything. */
  lemma AllHeld(chunks: seq<Text>, size: nat)
    requires GoodChunks(chunks, size)
    ensures Held(chunks, []) == Visible(Flatten(chunks))
    ensures forall i :: 0 <= i < |chunks| ==> chunks[i] != [] && |chunks[i]| <= size && IsTrimmed(chunks[i])
  {
    hide IsTrimmed, Flatten;
    NothingVisible();
  }

  /** Chunks hold every visible character of the text, in order; none is empty, none longer than `size`. */
  method Chunk(text: Text, size: nat) returns (chunks: seq<Text>)
    requires size > 0
    ensures Visible(Flatten(chunks)) == Visible(text)
    ensures forall i :: 0 <= i < |chunks| ==> chunks[i] != [] && |chunks[i]| <= size && IsTrimmed(chunks[i])
  {
    var clean := Cleaned(text);
    CleaningKeepsVisible(text);
    if clean == [] { return []; }
    hide Visible, Flatten, Held, Paragraphs, Cleaned, GoodChunks;
    var paragraphs := Paragraphs([], clean);
    NothingHeld(paragraphs, size);
    ParagraphsKeepVisible([], clean);
    assert [] + clean == clean;
    chunks := [];
    var current: Text := [];
    for i := 0 to |paragraphs|
      invariant GoodChunks(chunks, size) && |current| <= size
      invariant Held(chunks, current) == Visible(Flatten(paragraphs[..i]))
    {
      FlattenNext(paragraphs, i);
      chunks, current := AddParagraph(chunks, current, paragraphs[i], size);
    }
    assert paragraphs[..|paragraphs|] == paragraphs;
    chunks := Push(chunks, current, size);
    AllHeld(chunks, size);
  }
}
