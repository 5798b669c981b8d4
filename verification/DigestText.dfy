/**
 Cutting text for the digest of a document: sentence ends, trimming, excerpts
 and windows, and the token estimate.
 */
module DigestText {
  import opened Texts
  import opened Arithmetic
  import CanonicalJson

  const ELLIPSIS: CodeUnit := 0x2026

  // ---- Tokens ---------------------------------------------------------------

  function AsciiCount(t: Text): (n: nat)
    ensures n <= |t|
  {
    if t == [] then 0 else AsciiCount(t[..|t| - 1]) + if t[|t| - 1] < 128 then 1 else 0
  }

  /** A quarter token for an ASCII character, two thirds for any other, rounded up. */
  function TokenEstimate(t: Text): nat {
    (3 * AsciiCount(t) + 8 * (|t| - AsciiCount(t)) + 11) / 12
  }

  method EstimateTokens(t: Text) returns (tokens: nat)
    ensures tokens == TokenEstimate(t)
  {
    var ascii := 0;
    for i := 0 to |t|
      invariant ascii == AsciiCount(t[..i])
    {
      assert t[..i + 1][..i] == t[..i];
      if t[i] < 128 { ascii := ascii + 1; }
    }
    assert t[..|t|] == t;
    tokens := (3 * ascii + 8 * (|t| - ascii) + 11) / 12;
  }

  /** A text of n characters comes to between n / 4 and 2n / 3 tokens. */
  lemma TokensBound(t: Text)
    ensures 3 * TokenEstimate(t) <= 2 * |t| + 2 && |t| <= 4 * TokenEstimate(t)
  {
  }

  // ---- Sentence ends --------------------------------------------------------

  /** . ! ? and the Ethiopic full stop and question mark. */
  predicate IsStop(u: CodeUnit) {
    u == 0x2E || u == 0x21 || u == 0x3F || u == 0x1362 || u == 0x1367
  }

  /** A bracket or quote that may close a sentence: ) " ' right quotes ] */
  predicate IsCloser(u: CodeUnit) {
    u == 0x29 || u == 0x22 || u == 0x27 || u == 0x2019 || u == 0x201D || u == 0x5D
  }

  predicate AtBreak(t: Text, i: nat) {
    i >= |t| || IsSpace(t[i])
  }

  /** Where a sentence that stops at i ends, or 0 when none stops there. */
  function SentenceEnd(t: Text, i: nat): (end: nat)
    requires i < |t|
    ensures end == 0 || i < end <= |t|
  {
    if !IsStop(t[i]) then 0
    else if i + 1 < |t| && IsCloser(t[i + 1]) && AtBreak(t, i + 2) then i + 2
    else if AtBreak(t, i + 1) then i + 1
    else 0
  }

  /** The end of the last sentence that stops before n; -1 when there is none. */
  function LastEnd(t: Text, n: nat): (end: int)
    requires n <= |t|
    ensures end <= |t|
  {
    if n == 0 then -1
    else if SentenceEnd(t, n - 1) > 0 then SentenceEnd(t, n - 1)
    else LastEnd(t, n - 1)
  }

  function FirstEnd(t: Text, i: nat): (end: nat)
    requires i <= |t|
    ensures end <= |t|
    decreases |t| - i
  {
    if i == |t| then 0
    else if SentenceEnd(t, i) > 0 then SentenceEnd(t, i)
    else FirstEnd(t, i + 1)
  }

  /** The last space at or before n; -1 when there is none. */
  function LastSpace(t: Text, n: int): (at: int)
    ensures at <= n || at == -1
    ensures at < |t|
  {
    if n < 0 then -1
    else if n < |t| && t[n] == SPACE then n
    else LastSpace(t, n - 1)
  }

  function FirstSpace(t: Text, i: nat): (at: int)
    requires i <= |t|
    ensures -1 <= at < |t|
    decreases |t| - i
  {
    if i == |t| then -1 else if t[i] == SPACE then i else FirstSpace(t, i + 1)
  }

  // ---- Trimming to a budget -------------------------------------------------

  /** What a cut leaves: a beginning of the text, or a shorter one and an ellipsis. */
  ghost predicate IsCutOf(cut: Text, t: Text) {
    cut <= t || (cut != [] && cut[|cut| - 1] == ELLIPSIS && cut[..|cut| - 1] <= t)
  }

  /** A text within a limit: ended with a sentence if that keeps half of it, else with an ellipsis. */
  method TrimToSentence(text: Text, max: int) returns (cut: Text)
    ensures |cut| <= Max(max, 0) && IsCutOf(cut, text)
    ensures |text| <= max ==> cut == text
    ensures 1 < max < |text| ==> var end := LastEnd(text[..max], max);
      if 2 * end >= max then cut == text[..end] else cut != [] && cut[|cut| - 1] == ELLIPSIS && cut[..|cut| - 1] <= text
  {
    hide SentenceEnd, TrimEnd, LastSpace, IsCutOf;
    PrefixIsCut(text);
    if |text| <= max { return text; }
    if max <= 1 { return []; }
    var head := text[..max];
    var end := -1;
    for i := 0 to |head|
      invariant end == LastEnd(head, i)
    {
      if SentenceEnd(head, i) > 0 { end := SentenceEnd(head, i); }
    }
    if 2 * end >= max {
      assert head[..end] == text[..end];
      return head[..end];
    }
    var space := LastSpace(head, max - 1);
    if 2 * space >= max {
      TrimEndIsPrefix(head[..space]);
      EllipsisIsCut(TrimEnd(head[..space]), text);
      return TrimEnd(head[..space]) + [ELLIPSIS];
    }
    EllipsisIsCut(head[..max - 1], text);
    return head[..max - 1] + [ELLIPSIS];
  }

  lemma PrefixIsCut(text: Text)
    ensures forall n :: 0 <= n <= |text| ==> IsCutOf(text[..n], text)
    ensures IsCutOf(text, text) && IsCutOf([], text)
  {
  }

  lemma EllipsisIsCut(start: Text, text: Text)
    requires start <= text
    ensures IsCutOf(start + [ELLIPSIS], text) && (start + [ELLIPSIS])[..|start|] == start
  {
    assert (start + [ELLIPSIS])[..|start|] == start;
  }

  // ---- Excerpts -------------------------------------------------------------

  ghost predicate IsEndOf(end: Text, t: Text) {
    |end| <= |t| && t[|t| - |end|..] == end
  }

  /** The text from `pos` on, less what is left there of a sentence or a word. */
  function AlignedFrom(text: Text, pos: nat): (t: Text)
    requires pos <= |text|
    ensures IsEndOf(t, text[pos..])
  {
    if pos == 0 then text
    else
      var ahead := text[pos..Min(pos + 200, |text|)];
      var end := FirstEnd(ahead, 0);
      if end > 0 then
        TrimStartIsSuffix(text[pos + end..]);
        TrimStart(text[pos + end..])
      else
        var space := FirstSpace(ahead, 0);
        if space >= 0 then text[pos + space + 1..] else text[pos..]
  }

  const BODY_WINDOWS := 3
  const BODY_WINDOW_MIN := 600
  const WINDOW_SEP: Text := [SPACE, ELLIPSIS, SPACE]

  lemma {:induction false} JoinWithin(parts: seq<Text>, sep: Text, each: nat)
    requires forall i :: 0 <= i < |parts| ==> |parts[i]| <= each
    ensures TotalLength(parts) <= |parts| * each
  {
    if parts != [] {
      JoinWithin(parts[..|parts| - 1], sep, each);
      assert |parts| * each == (|parts| - 1) * each + each;
    }
  }

  /**
   Samples of a text: each is a cut of what can be read from its place on, the
   places go forward, and the first is the start.
   */
  ghost predicate Samples(parts: seq<Text>, places: seq<nat>, text: Text) {
    && |parts| == |places|
    && (forall i :: 0 <= i < |parts| ==> places[i] <= |text| && IsCutOf(parts[i], AlignedFrom(text, places[i])))
    && (forall i, j :: 0 <= i < j < |places| ==> places[i] < places[j])
    && (parts != [] && places[0] == 0)
  }

  ghost predicate IsSampled(excerpt: Text, body: Text) {
    exists parts: seq<Text>, places: seq<nat> :: Samples(parts, places, body) && excerpt == Join(parts, WINDOW_SEP)
  }

  /** A body in `max` characters: whole, or its beginning, or two or three windows spread over it. */
  method ExcerptOf(body: Text, max: nat) returns (excerpt: Text)
    ensures |excerpt| <= max
    ensures |body| <= max ==> excerpt == body
    ensures max < |body| ==> if max < 2 * BODY_WINDOW_MIN || |body| < 3 * max then IsCutOf(excerpt, body) else IsSampled(excerpt, body)
  {
    hide IsCutOf, AlignedFrom, LastEnd;
    if |body| <= max { return body; }
    var windows := Min(BODY_WINDOWS, max / BODY_WINDOW_MIN);
    if windows < 2 || |body| < 3 * max {
      excerpt := TrimToSentence(body, max);
      return;
    }
    var each := (max - |WINDOW_SEP| * (windows - 1)) / windows;
    var parts;
    ghost var places;
    parts, places := SampleWindows(body, windows, each);
    JoinLength(parts, WINDOW_SEP);
    JoinWithin(parts, WINDOW_SEP, each);
    WindowsFit(|parts|, windows, each, max);
    excerpt := Join(parts, WINDOW_SEP);
  }

  /** Two or three windows of `each` characters, the first at the start of the body. */
  method SampleWindows(body: Text, windows: nat, each: nat) returns (parts: seq<Text>, ghost places: seq<nat>)
    requires 2 <= windows <= 3 && each > 1 && |body| > 2 * each
    ensures |parts| <= windows && forall i :: 0 <= i < |parts| ==> |parts[i]| <= each
    ensures Samples(parts, places, body)
  {
    hide IsCutOf, AlignedFrom, LastEnd;
    parts, places := [], [];
    for w := 0 to windows
      invariant |parts| == |places| <= w
      invariant forall i :: 0 <= i < |parts| ==> |parts[i]| <= each
      invariant w > 0 ==> Samples(parts, places, body) && places[|places| - 1] <= (w - 1) * (|body| - each) / (windows - 1)
    {
      WindowStart(w, |body| - each, windows - 1);
      if w == 0 {
        AlignedAtStart(body);
      } else {
        WindowAdvances(w, |body| - each, windows - 1);
      }
      var place := w * (|body| - each) / (windows - 1);
      var part := TrimToSentence(AlignedFrom(body, place), each);
      if part != [] {
        if w > 0 { OneMoreSample(parts, places, body, part, place); }
        parts, places := parts + [part], places + [place];
      }
    }
  }

  lemma WindowStart(w: nat, room: nat, last: nat)
    requires w <= last && last > 0
    ensures 0 <= w * room / last <= room
  {
    assert w * room <= last * room;
    assert last * room / last == room;
  }

  lemma AlignedAtStart(text: Text)
    ensures AlignedFrom(text, 0) == text
  {
  }

  lemma WindowAdvances(w: nat, room: nat, last: nat)
    requires 0 < w <= last && last <= room
    ensures (w - 1) * room / last < w * room / last
  {
    DivBounds((w - 1) * room, last);
    assert w * room == (w - 1) * room + room;
    assert ((w - 1) * room / last + 1) * last == (w - 1) * room / last * last + last;
    DivAtLeast(w * room, last, (w - 1) * room / last + 1);
  }

  lemma OneMoreSample(parts: seq<Text>, places: seq<nat>, text: Text, part: Text, place: nat)
    requires Samples(parts, places, text) && place <= |text| && IsCutOf(part, AlignedFrom(text, place))
    requires places[|places| - 1] < place
    ensures Samples(parts + [part], places + [place], text)
  {
    hide IsCutOf, AlignedFrom;
  }

  lemma WindowsFit(n: nat, windows: nat, each: nat, max: nat)
    requires n <= windows && 2 <= windows <= 3 && max >= 1200 && each == (max - 3 * (windows - 1)) / windows
    ensures n == 0 || n * each + 3 * (n - 1) <= max
  {
    if windows == 2 {
      assert 2 * each <= max - 3;
    } else {
      assert 3 * each <= max - 6;
    }
  }

  // ---- Windows through a document without headings --------------------------

  const OPENING_CHARS := 2000
  const WINDOW_CHARS := 1000
  const MIN_EXCERPT := 200

  function OpeningLabel(): (t: Text)
    ensures |t| == 12
  {
    assert |"[Beginning]"| == 11;
    Lit("[Beginning]") + [NEWLINE]
  }

  const PARAGRAPH_SEP: Text := [NEWLINE, NEWLINE]

  /** How far into the text a window starts, as a rounded percentage. */
  function Percent(pos: nat, length: nat): nat
    requires length > 0
  {
    (200 * pos + length) / (2 * length)
  }

  function WindowLabel(i: nat, n: nat, percent: nat): Text {
    Lit("[Excerpt ") + Lit(CanonicalJson.Digits(i)) + Lit("/") + Lit(CanonicalJson.Digits(n)) + Lit(" ~") + Lit(CanonicalJson.Digits(percent)) + Lit("%]") + [NEWLINE]
  }

  lemma JoinMore(parts: seq<Text>, sep: Text, part: Text)
    requires parts != []
    ensures |Join(parts + [part], sep)| == |Join(parts, sep)| + |sep| + |part|
  {
    assert (parts + [part])[..|parts + [part]| - 1] == parts;
  }

  /** Windows under their captions, numbered from 1 up. */
  function Captioned(cuts: seq<Text>, places: seq<nat>, n: nat, length: nat): (ws: seq<Text>)
    requires |cuts| == |places| && length > 0
  {
    if cuts == [] then []
    else
      var last := |cuts| - 1;
      Captioned(cuts[..last], places[..last], n, length) + [WindowLabel(last + 1, n, Percent(places[last], length)) + cuts[last]]
  }

  /** Cuts of the rest of a text after its opening, read from places that go forward. */
  ghost predicate Windows(cuts: seq<Text>, places: seq<nat>, text: Text, opening: Text) {
    && |cuts| == |places|
    && (forall i :: 0 <= i < |cuts| ==> |opening| <= places[i] <= |text| && IsCutOf(cuts[i], AlignedFrom(text, places[i])))
    && (forall i, j :: 0 <= i < j < |places| ==> places[i] < places[j])
  }

  /** The opening of the text, and windows through the rest of it in order. */
  ghost predicate IsWindowed(body: Text, text: Text) {
    text != [] && exists opening: Text, cuts: seq<Text>, places: seq<nat>, n: nat ::
      && IsCutOf(opening, text) && Windows(cuts, places, text, opening) && |cuts| <= n
      && body == Join([OpeningLabel() + opening] + Captioned(cuts, places, n, |text|), PARAGRAPH_SEP)
  }

  lemma OneMoreWindow(cuts: seq<Text>, places: seq<nat>, text: Text, opening: Text, cut: Text, place: nat, n: nat)
    requires Windows(cuts, places, text, opening) && |opening| <= place <= |text| && IsCutOf(cut, AlignedFrom(text, place))
    requires (places != [] ==> places[|places| - 1] < place) && text != []
    ensures Windows(cuts + [cut], places + [place], text, opening)
    ensures Captioned(cuts + [cut], places + [place], n, |text|)
         == Captioned(cuts, places, n, |text|) + [WindowLabel(|cuts| + 1, n, Percent(place, |text|)) + cut]
  {
    hide IsCutOf, AlignedFrom, WindowLabel, Percent;
    assert (cuts + [cut])[..|cuts|] == cuts && (places + [place])[..|cuts|] == places;
  }

  lemma WindowsFound(body: Text, text: Text, opening: Text, cuts: seq<Text>, places: seq<nat>, n: nat)
    requires text != [] && IsCutOf(opening, text) && Windows(cuts, places, text, opening) && |cuts| <= n
    requires body == Join([OpeningLabel() + opening] + Captioned(cuts, places, n, |text|), PARAGRAPH_SEP)
    ensures IsWindowed(body, text)
  {
    hide IsCutOf, Windows, Captioned, OpeningLabel;
  }

  lemma NoWindows(text: Text, opening: Text, n: nat)
    requires text != []
    ensures Windows([], [], text, opening) && Captioned([], [], n, |text|) == []
  {
  }

  /** The opening of a text and evenly spaced windows through the rest, within `budget` characters. */
  method WindowExcerpts(text: Text, budget: nat) returns (body: Text, truncated: bool)
    requires budget >= 16
    ensures |body| <= budget
    ensures truncated <==> |text| > budget
    ensures if truncated then IsWindowed(body, text) else body == text
  {
    hide WindowLabel, Percent, AlignedFrom, OpeningLabel, IsCutOf, LastEnd, Captioned, Windows, IsWindowed;
    if |text| <= budget { return text, false; }
    var opening := TrimToSentence(text, Min(OPENING_CHARS, budget / 4));
    var parts := [OpeningLabel() + opening];
    var remaining := budget - |parts[0]|;
    var rest := |text| - |opening|;
    var perWindow := WINDOW_CHARS + 24;
    var n := Min(remaining / perWindow, rest / WINDOW_CHARS);
    ghost var cuts: seq<Text>, places: seq<nat> := [], [];
    NoWindows(text, opening, Max(n, 0));
    var i := 0;
    while i < n
      invariant 0 <= i && parts != [] && remaining >= 0 && |cuts| == i
      invariant i <= n || i == 0
      invariant |Join(parts, PARAGRAPH_SEP)| + remaining == budget
      invariant Windows(cuts, places, text, opening) && |places| == i
      invariant parts == [OpeningLabel() + opening] + Captioned(cuts, places, Max(n, 0), |text|)
      invariant i > 0 ==> places[i - 1] == |opening| + (i - 1) * rest / n
    {
      WindowStart(i, rest, n);
      if i > 0 { WindowAdvances(i, rest, n); }
      var pos := |opening| + i * rest / n;
      var caption := WindowLabel(i + 1, n, Percent(pos, |text|));
      var room := Min(WINDOW_CHARS, remaining - |caption| - 2);
      if room < MIN_EXCERPT { break; }
      var window := TrimToSentence(AlignedFrom(text, pos), room);
      JoinMore(parts, PARAGRAPH_SEP, caption + window);
      OneMoreWindow(cuts, places, text, opening, window, pos, n);
      parts := parts + [caption + window];
      cuts, places := cuts + [window], places + [pos];
      remaining := remaining - (|caption| + 2 + |window|);
      i := i + 1;
    }
    body, truncated := Join(parts, PARAGRAPH_SEP), true;
    WindowsFound(body, text, opening, cuts, places, Max(n, 0));
  }
}
