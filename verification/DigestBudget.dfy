/** Sharing the digest's budget: even picking, the outline's share, and the excerpts' shares. */
module DigestBudget {
  import opened Texts
  import opened Options
  import opened Arithmetic
  import opened DigestText
  import Listing

  // ---- Even picking ---------------------------------------------------------

  lemma PickInRange(i: nat, len: nat, n: nat)
    requires i < n <= len
    ensures i <= i * len / n < len
  {
    MulMono(n, len, i);
    DivAtLeast(i * len, n, i);
    assert i * len < n * len by { MulMono(i + 1, n, len); }
    DivLess(i * len, n, len);
  }

  /** `n` of the items, spread evenly from the first on; all of them when there are no more. */
  function PickEvenly<T>(items: seq<T>, n: nat): (picked: seq<T>)
    ensures |picked| == if n >= |items| then |items| else n
    ensures n >= |items| ==> picked == items
  {
    if n >= |items| then items
    else seq(n, i requires 0 <= i < n => PickInRange(i, |items|, n); items[i * |items| / n])
  }

  /** `xs` is what is left of `ys` after removing some items: where each one came from. */
  ghost predicate IsSubsequence<T>(xs: seq<T>, ys: seq<T>) {
    exists from: seq<nat> :: Embeds(from, xs, ys)
  }

  ghost predicate Embeds<T>(from: seq<nat>, xs: seq<T>, ys: seq<T>) {
    && |from| == |xs|
    && (forall k :: 0 <= k < |xs| ==> from[k] < |ys| && xs[k] == ys[from[k]])
    && (forall k, l :: 0 <= k < l < |xs| ==> from[k] < from[l])
  }

  lemma SubsequenceOfItself<T>(xs: seq<T>)
    ensures IsSubsequence(xs, xs)
  {
    assert Embeds(seq(|xs|, i => i), xs, xs);
  }

  lemma SubsequenceTwice<T>(xs: seq<T>, ys: seq<T>, zs: seq<T>)
    requires IsSubsequence(xs, ys) && IsSubsequence(ys, zs)
    ensures IsSubsequence(xs, zs)
  {
    var f :| Embeds(f, xs, ys);
    var g :| Embeds(g, ys, zs);
    var h := seq(|xs|, i requires 0 <= i < |xs| => g[f[i]]);
    assert Embeds(h, xs, zs);
  }

  lemma SubsequenceIsNoLonger<T>(xs: seq<T>, ys: seq<T>)
    requires IsSubsequence(xs, ys)
    ensures |xs| <= |ys|
  {
    var from :| Embeds(from, xs, ys);
    var k := 0;
    while k < |xs|
      invariant k <= |xs| && forall l :: 0 <= l < k ==> l <= from[l]
    {
      assert k > 0 ==> from[k - 1] < from[k];
      k := k + 1;
    }
    assert xs != [] ==> |xs| - 1 <= from[|xs| - 1] < |ys|;
  }

  /** Nothing was removed if nothing is missing. */
  lemma SubsequenceIsWhole<T>(xs: seq<T>, ys: seq<T>)
    requires IsSubsequence(xs, ys)
    ensures |xs| == |ys| ==> xs == ys
  {
    if |xs| == |ys| {
      var from :| Embeds(from, xs, ys);
      var n := |xs|;
      var k := 0;
      while k < n
        invariant k <= n
        invariant forall l :: 0 <= l < k ==> l <= from[l]
      {
        assert k > 0 ==> from[k - 1] < from[k];
        k := k + 1;
      }
      while k > 0
        invariant k <= n
        invariant forall l :: k <= l < n ==> from[l] <= l
      {
        k := k - 1;
        assert k + 1 < n ==> from[k] < from[k + 1];
      }
    }
  }

  lemma PickStepsForward(i: nat, j: nat, len: nat, n: nat)
    requires i < j < n <= len
    ensures i * len / n < j * len / n
  {
    DivBounds(i * len, n);
    DivBounds(j * len, n);
    MulMono(i + 1, j, len);
    MulBelow(i * len / n + 1, j * len / n + 1, n);
  }

  /** Even picking keeps the order, and the first item when it keeps any. */
  lemma PickedInOrder<T>(items: seq<T>, n: nat)
    ensures IsSubsequence(PickEvenly(items, n), items)
    ensures n > 0 && items != [] ==> PickEvenly(items, n)[0] == items[0]
  {
    if n >= |items| {
      SubsequenceOfItself(items);
    } else {
      forall i | 0 <= i < n ensures 0 <= i * |items| / n < |items| { PickInRange(i, |items|, n); }
      var from := seq(n, i requires 0 <= i < n => i * |items| / n);
      forall k, l | 0 <= k < l < n ensures from[k] < from[l] { PickStepsForward(k, l, |items|, n); }
      assert Embeds(from, PickEvenly(items, n), items);
    }
  }

  // ---- The outline's share --------------------------------------------------

  /** `order` is the heading's place in the document and tells equal-looking headings apart. */
  datatype Heading = Heading(order: nat, title: Text, level: nat, anchor: Option<nat>, bodyStart: Option<nat>, skip: bool)

  function Spaces(n: nat): (t: Text)
    ensures |t| == n && forall i :: 0 <= i < n ==> t[i] == SPACE
  {
    if n == 0 then [] else Spaces(n - 1) + [SPACE]
  }

  /** A heading's line: two spaces of indent for each level below the top. */
  function OutlineLine(h: Heading): Text {
    Spaces(if h.level == 0 then 0 else 2 * (h.level - 1)) + h.title
  }

  function Lines(hs: seq<Heading>): (ls: seq<Text>)
    ensures |ls| == |hs| && forall i :: 0 <= i < |hs| ==> ls[i] == OutlineLine(hs[i])
  {
    if hs == [] then [] else Lines(hs[..|hs| - 1]) + [OutlineLine(hs[|hs| - 1])]
  }

  function OutlineLines(hs: seq<Heading>): Text {
    Join(Lines(hs), [NEWLINE])
  }

  function Deepest(hs: seq<Heading>): nat {
    if hs == [] then 0 else Max(Deepest(hs[..|hs| - 1]), hs[|hs| - 1].level)
  }

  function UpToLevel(hs: seq<Heading>, depth: int): seq<Heading> {
    if hs == [] then []
    else
      var front := UpToLevel(hs[..|hs| - 1], depth);
      if hs[|hs| - 1].level <= depth then front + [hs[|hs| - 1]] else front
  }

  lemma EmbedsMore<T>(from: seq<nat>, xs: seq<T>, ys: seq<T>, y: T)
    requires Embeds(from, xs, ys)
    ensures IsSubsequence(xs, ys + [y]) && IsSubsequence(xs + [y], ys + [y])
  {
    var place: nat := |ys|;
    assert Embeds(from, xs, ys + [y]);
    assert Embeds(from + [place], xs + [y], ys + [y]);
  }

  lemma LastOfLevel(hs: seq<Heading>, depth: int)
    requires hs != []
    ensures var front, last := hs[..|hs| - 1], hs[|hs| - 1];
      UpToLevel(hs, depth) == if last.level <= depth then UpToLevel(front, depth) + [last] else UpToLevel(front, depth)
  {
  }

  lemma {:induction false} LevelsInOrder(hs: seq<Heading>, depth: int)
    ensures IsSubsequence(UpToLevel(hs, depth), hs)
  {
    if hs == [] {
      SubsequenceOfItself(hs);
    } else {
      var front, last := hs[..|hs| - 1], hs[|hs| - 1];
      LevelsInOrder(front, depth);
      var from :| Embeds(from, UpToLevel(front, depth), front);
      hide UpToLevel, Embeds;
      LastOfLevel(hs, depth);
      EmbedsMore(from, UpToLevel(front, depth), front, last);
      assert hs == front + [last];
    }
  }

  /** Headings for the outline block: the deepest levels go first, then the rest is thinned evenly. */
  method FitOutline(headings: seq<Heading>, max: nat) returns (kept: seq<Heading>)
    ensures |OutlineLines(kept)| <= max
    ensures IsSubsequence(kept, headings)
    ensures |OutlineLines(headings)| <= max ==> kept == headings
  {
    hide IsSubsequence, OutlineLines, UpToLevel, PickEvenly;
    kept := headings;
    SubsequenceOfItself(headings);
    var depth := Deepest(headings);
    while |OutlineLines(kept)| > max && depth > 1
      invariant IsSubsequence(kept, headings)
      invariant |OutlineLines(headings)| <= max ==> kept == headings
      decreases depth
    {
      depth := depth - 1;
      LevelsInOrder(kept, depth);
      SubsequenceTwice(UpToLevel(kept, depth), kept, headings);
      kept := UpToLevel(kept, depth);
    }
    var n: nat := |kept|;
    while n > 0 && |OutlineLines(PickEvenly(kept, n))| > max
      invariant |OutlineLines(headings)| <= max ==> kept == headings && n == |kept|
    {
      MulMono(0, max, n);
      var length := |OutlineLines(PickEvenly(kept, n))|;
      DivAtLeast(n * max, length, 0);
      n := Min(n - 1, n * max / length);
    }
    PickedInOrder(kept, n);
    SubsequenceTwice(PickEvenly(kept, n), kept, headings);
    NoLines(PickEvenly(kept, n));
    kept := PickEvenly(kept, n);
  }

  lemma NoLines(hs: seq<Heading>)
    ensures hs == [] ==> OutlineLines(hs) == []
  {
  }

  // ---- The excerpts' shares -------------------------------------------------

  /** A stretch of lines under a heading; `length` is what its text can come to. */
  datatype Entry = Entry(caption: Text, start: nat, end: nat, length: nat)

  /** "## ", the caption, a newline, and the blank line between entries. */
  function EntryOverhead(e: Entry): nat {
    3 + |e.caption| + 1 + 2
  }

  function Overheads(entries: seq<Entry>): nat {
    if entries == [] then 0 else Overheads(entries[..|entries| - 1]) + EntryOverhead(entries[|entries| - 1])
  }

  /** What the entries cost when each gets no more than the minimum. */
  function LeastCost(entries: seq<Entry>): nat {
    if entries == [] then 0
    else LeastCost(entries[..|entries| - 1]) + EntryOverhead(entries[|entries| - 1]) + Min(entries[|entries| - 1].length, MIN_EXCERPT)
  }

  function Sum(ns: seq<nat>): nat {
    if ns == [] then 0 else Sum(ns[..|ns| - 1]) + ns[|ns| - 1]
  }

  /** Every entry gets its whole text or a share at least as large, within one character, as any other. */
  ghost predicate IsFair(entries: seq<Entry>, sizes: seq<nat>) {
    && |sizes| == |entries|
    && (forall i :: 0 <= i < |entries| ==> Min(entries[i].length, MIN_EXCERPT) <= sizes[i] <= entries[i].length)
    && (forall i, j :: 0 <= i < |entries| && 0 <= j < |entries| && sizes[i] < entries[i].length ==> sizes[j] <= sizes[i] + 1)
  }

  ghost predicate SomeCutShort(entries: seq<Entry>, sizes: seq<nat>)
    requires |sizes| == |entries|
  {
    exists i :: 0 <= i < |entries| && sizes[i] < entries[i].length
  }

  function Least(e: Entry): nat {
    Min(e.length, MIN_EXCERPT)
  }

  /** The minimum shares of the entries whose places are in `todo`, and how many these are. */
  function LeastOf(entries: seq<Entry>, todo: set<nat>): nat {
    if entries == [] then 0
    else LeastOf(entries[..|entries| - 1], todo) + if |entries| - 1 in todo then Least(entries[|entries| - 1]) else 0
  }

  function CountOf(entries: seq<Entry>, todo: set<nat>): nat {
    if entries == [] then 0
    else CountOf(entries[..|entries| - 1], todo) + if |entries| - 1 in todo then 1 else 0
  }

  lemma {:induction false} OneLess(entries: seq<Entry>, todo: set<nat>, x: nat)
    requires x in todo
    ensures LeastOf(entries, todo) == LeastOf(entries, todo - {x}) + if x < |entries| then Least(entries[x]) else 0
    ensures CountOf(entries, todo) == CountOf(entries, todo - {x}) + if x < |entries| then 1 else 0
  {
    if entries != [] { OneLess(entries[..|entries| - 1], todo, x); }
  }

  lemma OneMore(x: nat, count: nat)
    ensures x * (count + 1) == x * count + x
  {
  }

  lemma {:induction false} SharesBetween(entries: seq<Entry>, todo: set<nat>, lo: nat, hi: nat)
    requires forall x :: x in todo && x < |entries| ==> lo <= Least(entries[x]) <= hi
    ensures lo * CountOf(entries, todo) <= LeastOf(entries, todo) <= hi * CountOf(entries, todo)
  {
    if entries != [] {
      var front := entries[..|entries| - 1];
      SharesBetween(front, todo, lo, hi);
      hide Least;
      OneMore(lo, CountOf(front, todo));
      OneMore(hi, CountOf(front, todo));
    }
  }

  function Places(n: nat): (ps: set<nat>)
    ensures |ps| == n && forall i: nat :: i in ps <==> i < n
  {
    if n == 0 then {}
    else
      var front, last: nat := Places(n - 1), n - 1;
      assert last !in front;
      front + {last}
  }

  lemma {:induction false} AllPlaces(entries: seq<Entry>, todo: set<nat>)
    requires forall i :: 0 <= i < |entries| ==> i in todo
    ensures CountOf(entries, todo) == |entries| && LeastCost(entries) == Overheads(entries) + LeastOf(entries, todo)
  {
    if entries != [] { AllPlaces(entries[..|entries| - 1], todo); }
  }

  lemma {:induction false} SumUpdated(ns: seq<nat>, i: nat, v: nat)
    requires i < |ns|
    ensures Sum(ns[i := v]) + ns[i] == Sum(ns) + v
  {
    var front := ns[..|ns| - 1];
    if i == |ns| - 1 {
      assert ns[i := v][..|ns| - 1] == front;
    } else {
      SumUpdated(front, i, v);
      assert ns[i := v][..|ns| - 1] == front[i := v];
    }
  }

  lemma {:induction false} SumOfZeros(ns: seq<nat>)
    requires forall i :: 0 <= i < |ns| ==> ns[i] == 0
    ensures Sum(ns) == 0
  {
    if ns != [] { SumOfZeros(ns[..|ns| - 1]); }
  }

  // ---- One share at a time --------------------------------------------------

  /**
   Between two shares, shortest entries first: `given` so far, the longest of
   them `top`, `left` entries to go. Until one is cut short (`cut` below 0) all
   got their whole text and the pool covers `top` for each entry left; then it
   covers `cut` or `cut + 1` for each, exactly.
   */
  ghost predicate PoolCovers(pool: nat, left: nat, top: nat, cut: int) {
    if cut < 0 then top * left <= pool else cut * left <= pool <= (cut + 1) * left
  }

  lemma WholeShare(pool: nat, left: nat, top: nat, length: nat)
    requires left > 0 && top <= length && length * left <= pool
    ensures length <= pool && PoolCovers(pool - length, left - 1, length, -1)
  {
    OneFewer(length, left);
  }

  lemma OneFewer(a: nat, left: nat)
    requires left > 0
    ensures a * left == a * (left - 1) + a
    ensures (a + 1) * left == (a + 1) * (left - 1) + a + 1
    ensures (a + 1) * left == a * left + left
  {
  }

  lemma FirstCut(pool: nat, left: nat, top: nat, share: nat)
    requires left > 0 && share * left <= pool < (share + 1) * left
    ensures share <= pool && PoolCovers(pool - share, left - 1, top, share)
  {
    OneFewer(share, left);
  }

  lemma LaterCut(pool: nat, left: nat, top: nat, cut: nat, share: nat)
    requires left > 0 && PoolCovers(pool, left, top, cut)
    requires share * left <= pool < (share + 1) * left
    ensures cut <= share <= cut + 1 && share <= pool && PoolCovers(pool - share, left - 1, top, cut)
  {
    MulBelow(cut, share + 1, left);
    OneFewer(cut, left);
    OneFewer(cut + 1, left);
    MulBelow(share, cut + 2, left);
    OneFewer(share, left);
  }

  function LengthRank(entries: seq<Entry>): nat -> int {
    (i: nat) => if i < |entries| then entries[i].length else 0
  }

  /** The places of the entries, shortest entry first, equal ones in order. */
  function ByLength(entries: seq<Entry>): (order: seq<nat>)
    ensures SortedPlaces(entries, order) && AreLeft(order, 0, Places(|entries|))
  {
    ByLengthSorts(entries);
    Listing.Listed(Places(|entries|), LengthRank(entries))
  }

  lemma ByLengthSorts(entries: seq<Entry>)
    ensures var order := Listing.Listed(Places(|entries|), LengthRank(entries));
      SortedPlaces(entries, order) && AreLeft(order, 0, Places(|entries|))
  {
    hide Listing.Listed, Places;
    var places, rank := Places(|entries|), LengthRank(entries);
    Listing.ListedElements(places, rank);
    Listing.ListedInOrder(places, rank);
    var order := Listing.Listed(places, rank);
    forall p | 0 <= p < |order| ensures order[p] < |entries| {
      assert order[p] in order;
    }
    forall p, q | 0 <= p < q < |order| ensures entries[order[p]].length <= entries[order[q]].length {
      assert Listing.NotAfter(rank, order[p], order[q]);
      assert order[p] < |entries| && order[q] < |entries|;
    }
    forall x ensures x in places <==> exists p :: 0 <= p < |order| && order[p] == x {
      assert x in places <==> x in order;
    }
  }

  /** The shares given so far, along the first k places of `order`. */
  ghost predicate SharedWell(entries: seq<Entry>, order: seq<nat>, sizes: seq<nat>, k: nat, top: nat, cut: int)
    requires |sizes| == |entries| && k <= |order| && SortedPlaces(entries, order)
  {
    && (forall p :: 0 <= p < k ==> ShareIsGood(entries[order[p]], sizes[order[p]], top, cut))
    && (forall p :: k <= p < |order| ==> sizes[order[p]] == 0)
    && (forall p :: k <= p < |order| ==> (if cut < 0 then top else cut + 1) <= entries[order[p]].length)
    && (cut >= 0 ==> top <= cut + 1 && MIN_EXCERPT <= cut)
  }

  ghost predicate ShareIsGood(e: Entry, size: nat, top: nat, cut: int) {
    && Least(e) <= size <= e.length
    && if cut < 0 then size == e.length <= top else size <= cut + 1 && (size < e.length ==> size >= cut)
  }

  /** The entries from place k on in `order` are those in `todo`. */
  ghost predicate AreLeft(order: seq<nat>, k: nat, todo: set<nat>) {
    forall x :: x in todo <==> exists p :: k <= p < |order| && order[p] == x
  }

  ghost predicate SortedPlaces(entries: seq<Entry>, order: seq<nat>) {
    && |order| == |entries|
    && (forall p :: 0 <= p < |order| ==> order[p] < |entries|)
    && (forall p, q :: 0 <= p < q < |order| ==> order[p] != order[q] && entries[order[p]].length <= entries[order[q]].length)
  }

  /** As long as nobody is cut short, an equal part of the pool is at least the next entry's minimum. */
  lemma EqualPartIsEnough(entries: seq<Entry>, order: seq<nat>, todo: set<nat>, k: nat, rest: nat, share: nat)
    requires SortedPlaces(entries, order) && k < |order| && AreLeft(order, k, todo)
    requires CountOf(entries, todo) == |order| - k && LeastOf(entries, todo) <= rest < (share + 1) * (|order| - k)
    ensures share >= Least(entries[order[k]])
  {
    var lo := Least(entries[order[k]]);
    forall x | x in todo && x < |entries| ensures lo <= Least(entries[x]) <= MIN_EXCERPT {
      var p :| k <= p < |order| && order[p] == x;
      assert p == k || entries[order[k]].length <= entries[order[p]].length;
    }
    SharesBetween(entries, todo, lo, MIN_EXCERPT);
    MulBelow(lo, share + 1, |order| - k);
  }

  /** After a whole share, the pool still covers everybody else's minimum. */
  lemma MinimumsStayCovered(entries: seq<Entry>, todo: set<nat>, place: nat, left: nat, rest: nat)
    requires place in todo && place < |entries| && left > 0
    requires CountOf(entries, todo) == left && LeastOf(entries, todo) <= rest
    requires entries[place].length * left <= rest
    ensures LeastOf(entries, todo - {place}) <= rest - entries[place].length
  {
    var length := entries[place].length;
    OneLess(entries, todo, place);
    if length > MIN_EXCERPT {
      SharesBetween(entries, todo - {place}, 0, MIN_EXCERPT);
      OneFewer(length, left);
      MulMono(MIN_EXCERPT, length, left - 1);
    }
  }

  lemma SharesExtend(entries: seq<Entry>, order: seq<nat>, sizes: seq<nat>, k: nat, top: nat, cut: int, give: nat, nextTop: nat, nextCut: int)
    requires SortedPlaces(entries, order) && |sizes| == |entries| && k < |order|
    requires SharedWell(entries, order, sizes, k, top, cut)
    requires ShareIsGood(entries[order[k]], give, nextTop, nextCut)
    requires forall e, size :: ShareIsGood(e, size, top, cut) ==> ShareIsGood(e, size, nextTop, nextCut)
    requires (if nextCut < 0 then nextTop else nextCut + 1) <= entries[order[k]].length
    requires nextCut >= 0 ==> nextTop <= nextCut + 1 && MIN_EXCERPT <= nextCut
    ensures SharedWell(entries, order, sizes[order[k] := give], k + 1, nextTop, nextCut)
  {
    hide ShareIsGood;
  }

  lemma NextShare(entries: seq<Entry>, order: seq<nat>, sizes: seq<nat>, todo: set<nat>, k: nat, rest: nat, top: nat, cut: int,
      share: nat, nextTop: nat, nextCut: int)
    requires SortedPlaces(entries, order) && |sizes| == |entries| && k < |order|
    requires SharedWell(entries, order, sizes, k, top, cut) && AreLeft(order, k, todo)
    requires PoolCovers(rest, |order| - k, top, cut) && cut >= -1
    requires CountOf(entries, todo) == |order| - k && (cut < 0 ==> LeastOf(entries, todo) <= rest)
    requires share * (|order| - k) <= rest < (share + 1) * (|order| - k)
    requires nextTop == if cut < 0 && entries[order[k]].length <= share then entries[order[k]].length else top
    requires nextCut == if cut < 0 && share < entries[order[k]].length then share else cut
    ensures var give := Min(entries[order[k]].length, share);
      && give <= rest && nextCut >= -1 && SharedWell(entries, order, sizes[order[k] := give], k + 1, nextTop, nextCut)
      && PoolCovers(rest - give, |order| - k - 1, nextTop, nextCut)
      && (nextCut < 0 ==> LeastOf(entries, todo - {order[k]}) <= rest - give)
  {
    hide SharedWell, PoolCovers, AreLeft, LeastOf, CountOf, SortedPlaces;
    NextIsLonger(entries, order, sizes, k, top, cut);
    OneFewerLeft(entries, order, k, todo);
    var left, length := |order| - k, entries[order[k]].length;
    if cut < 0 {
      EqualPartIsEnough(entries, order, todo, k, rest, share);
      if length <= share {
        MulMono(length, share, left);
        WholeShare(rest, left, top, length);
        MinimumsStayCovered(entries, todo, order[k], left, rest);
      } else {
        FirstCut(rest, left, top, share);
        TopWithin(rest, left, top, share);
      }
    } else {
      LaterCut(rest, left, top, cut, share);
    }
    SharesExtend(entries, order, sizes, k, top, cut, Min(length, share), nextTop, nextCut);
  }

  lemma NextIsLonger(entries: seq<Entry>, order: seq<nat>, sizes: seq<nat>, k: nat, top: nat, cut: int)
    requires SortedPlaces(entries, order) && |sizes| == |entries| && k < |order|
    requires SharedWell(entries, order, sizes, k, top, cut)
    ensures |order| == |entries| && order[k] < |entries| && (if cut < 0 then top else cut + 1) <= entries[order[k]].length
    ensures cut >= 0 ==> top <= cut + 1 && MIN_EXCERPT <= cut
  {
  }

  lemma TopWithin(pool: nat, left: nat, top: nat, share: nat)
    requires left > 0 && PoolCovers(pool, left, top, -1) && pool < (share + 1) * left
    ensures top <= share
  {
    MulBelow(top, share + 1, left);
  }

  /** Everything that holds between two shares. */
  ghost predicate Sharing(entries: seq<Entry>, order: seq<nat>, sizes: seq<nat>, todo: set<nat>, k: nat, rest: nat, top: nat, cut: int, pool: nat)
    requires k <= |order|
  {
    && SortedPlaces(entries, order) && |sizes| == |entries|
    && SharedWell(entries, order, sizes, k, top, cut) && AreLeft(order, k, todo)
    && PoolCovers(rest, |order| - k, top, cut) && cut >= -1
    && CountOf(entries, todo) == |order| - k && (cut < 0 ==> LeastOf(entries, todo) <= rest)
    && Sum(sizes) + rest == pool
  }

  lemma SharingStep(entries: seq<Entry>, order: seq<nat>, sizes: seq<nat>, todo: set<nat>, k: nat, rest: nat, top: nat, cut: int, pool: nat, share: nat)
      returns (nextTop: nat, nextCut: int)
    requires k < |order| && Sharing(entries, order, sizes, todo, k, rest, top, cut, pool)
    requires IsEqualPart(rest, |order| - k, share)
    ensures order[k] < |entries| == |sizes|
    ensures var give := Min(entries[order[k]].length, share);
      give <= rest && Sharing(entries, order, sizes[order[k] := give], todo - {order[k]}, k + 1, rest - give, nextTop, nextCut, pool)
  {
    hide AreLeft, LeastOf, CountOf, PoolCovers, Sum, SortedPlaces;
    NextIsLonger(entries, order, sizes, k, top, cut);
    var place := order[k];
    NextIsUnset(entries, order, sizes, k, top, cut);
    hide SharedWell;
    var length := entries[place].length;
    nextTop := if cut < 0 && length <= share then length else top;
    nextCut := if cut < 0 && share < length then share else cut;
    NextShare(entries, order, sizes, todo, k, rest, top, cut, share, nextTop, nextCut);
    OneFewerLeft(entries, order, k, todo);
    OneLess(entries, todo, place);
    SumUpdated(sizes, place, Min(length, share));
  }

  lemma NextIsUnset(entries: seq<Entry>, order: seq<nat>, sizes: seq<nat>, k: nat, top: nat, cut: int)
    requires SortedPlaces(entries, order) && |sizes| == |entries| && k < |order|
    requires SharedWell(entries, order, sizes, k, top, cut)
    ensures order[k] < |sizes| && sizes[order[k]] == 0
  {
  }

  lemma SharingStarts(entries: seq<Entry>, order: seq<nat>, sizes: seq<nat>, pool: nat)
    requires LeastCost(entries) <= Overheads(entries) + pool
    requires SortedPlaces(entries, order) && AreLeft(order, 0, Places(|entries|)) && |sizes| == |entries|
    requires forall i :: 0 <= i < |sizes| ==> sizes[i] == 0
    ensures Sharing(entries, order, sizes, Places(|entries|), 0, pool, 0, -1, pool)
  {
    hide AreLeft, LeastOf, CountOf, Sum, LeastCost, Overheads;
    NothingShared(entries, order, sizes);
    AllPlaces(entries, Places(|entries|));
    SumOfZeros(sizes);
  }

  predicate IsEqualPart(pool: nat, among: nat, share: nat) {
    share * among <= pool < (share + 1) * among
  }

  method EqualPart(pool: nat, among: nat) returns (share: nat)
    requires among > 0
    ensures IsEqualPart(pool, among, share)
  {
    DivBounds(pool, among);
    DivAtLeast(pool, among, 0);
    share := pool / among;
  }

  /** Share `pool` characters out, shortest text first, an equal part of what is left to each. */
  method ShareOut(entries: seq<Entry>, pool: nat) returns (sizes: seq<nat>)
    requires LeastCost(entries) <= Overheads(entries) + pool
    ensures IsFair(entries, sizes)
    ensures Sum(sizes) <= pool && (SomeCutShort(entries, sizes) ==> Sum(sizes) == pool)
  {
    hide LeastCost, Overheads, Places, ByLength, Sum, IsFair, SomeCutShort, Sharing, AreLeft, IsEqualPart, SortedPlaces;
    var n := |entries|;
    var order := ByLength(entries);
    assert |order| == n && forall p :: 0 <= p < n ==> order[p] < n by { PlacesFit(entries, order); }
    var shares := new nat[n](_ => 0);
    var rest: nat := pool;
    ghost var todo := Places(n);
    ghost var top: nat := 0;
    ghost var cut := -1;
    SharingStarts(entries, order, shares[..], pool);
    for k := 0 to n
      invariant |order| == n && Sharing(entries, order, shares[..], todo, k, rest, top, cut, pool)
    {
      var share := EqualPart(rest, n - k);
      ghost var nextTop, nextCut := SharingStep(entries, order, shares[..], todo, k, rest, top, cut, pool, share);
      var place := order[k];
      var give := Min(entries[place].length, share);
      ghost var next := shares[..][place := give];
      shares[place] := give;
      assert shares[..] == next;
      rest := rest - give;
      top, cut, todo := nextTop, nextCut, todo - {place};
    }
    sizes := shares[..];
    SharingEnds(entries, order, sizes, todo, rest, top, cut, pool);
  }

  lemma SharingEnds(entries: seq<Entry>, order: seq<nat>, sizes: seq<nat>, todo: set<nat>, rest: nat, top: nat, cut: int, pool: nat)
    requires |order| == |entries| && AreLeft(order, 0, Places(|entries|))
    requires Sharing(entries, order, sizes, todo, |entries|, rest, top, cut, pool)
    ensures IsFair(entries, sizes)
    ensures Sum(sizes) <= pool && (SomeCutShort(entries, sizes) ==> Sum(sizes) == pool)
  {
    hide LeastOf, CountOf, Sum, IsFair, SomeCutShort, AreLeft;
    SharedFairly(entries, order, sizes, rest, top, cut);
  }

  lemma PlacesFit(entries: seq<Entry>, order: seq<nat>)
    requires SortedPlaces(entries, order)
    ensures |order| == |entries| && forall p :: 0 <= p < |order| ==> order[p] < |entries|
  {
  }

  lemma NothingShared(entries: seq<Entry>, order: seq<nat>, sizes: seq<nat>)
    requires SortedPlaces(entries, order) && |sizes| == |entries|
    requires forall i :: 0 <= i < |sizes| ==> sizes[i] == 0
    ensures SharedWell(entries, order, sizes, 0, 0, -1) && forall pool :: PoolCovers(pool, |entries|, 0, -1)
  {
  }

  lemma OneFewerLeft(entries: seq<Entry>, order: seq<nat>, k: nat, todo: set<nat>)
    requires SortedPlaces(entries, order) && k < |order| && AreLeft(order, k, todo)
    ensures order[k] in todo && order[k] < |entries| && AreLeft(order, k + 1, todo - {order[k]})
  {
    assert order[k] in todo;
    forall x ensures x in todo - {order[k]} <==> exists p :: k + 1 <= p < |order| && order[p] == x {
      if x in todo - {order[k]} {
        var p :| k <= p < |order| && order[p] == x;
        assert k + 1 <= p;
      }
      if exists p :: k + 1 <= p < |order| && order[p] == x {
        var p :| k + 1 <= p < |order| && order[p] == x;
        assert order[k] != order[p];
      }
    }
  }

  /** When everybody has a share, the shares are fair, and a pool that had to cut anybody short is used up. */
  lemma SharedFairly(entries: seq<Entry>, order: seq<nat>, sizes: seq<nat>, rest: nat, top: nat, cut: int)
    requires SortedPlaces(entries, order) && |sizes| == |entries|
    requires SharedWell(entries, order, sizes, |entries|, top, cut)
    requires AreLeft(order, 0, Places(|entries|)) && PoolCovers(rest, 0, top, cut)
    ensures IsFair(entries, sizes) && (SomeCutShort(entries, sizes) ==> rest == 0)
  {
    forall i: nat | i < |entries| ensures ShareIsGood(entries[i], sizes[i], top, cut) {
      assert i in Places(|entries|);
      var p :| 0 <= p < |order| && order[p] == i;
    }
  }

  /**
   The entries that get an excerpt, and how long each may be: all of them if
   even the minimum for each fits, otherwise the largest even pick for which it does.
   */
  method Allocate(entries: seq<Entry>, budget: int) returns (chosen: seq<Entry>, sizes: seq<nat>)
    ensures IsSubsequence(chosen, entries) && IsFair(chosen, sizes)
    ensures chosen != [] ==> Overheads(chosen) + Sum(sizes) <= budget
    ensures SomeCutShort(chosen, sizes) ==> Overheads(chosen) + Sum(sizes) == budget
    ensures chosen == PickEvenly(entries, |chosen|)
    ensures |chosen| < |entries| ==> LeastCost(PickEvenly(entries, |chosen| + 1)) > budget
  {
    hide PickEvenly, IsSubsequence, IsFair, LeastCost, Overheads, Sum, SomeCutShort;
    var m: nat := |entries|;
    while m > 0 && LeastCost(PickEvenly(entries, m)) > budget
      invariant m <= |entries|
      invariant m < |entries| ==> LeastCost(PickEvenly(entries, m + 1)) > budget
    {
      m := m - 1;
    }
    PickedInOrder(entries, m);
    chosen := PickEvenly(entries, m);
    LeastCostCoversOverheads(chosen);
    if m == 0 {
      NothingToShare(chosen);
      sizes := [];
    } else {
      sizes := ShareOut(chosen, budget - Overheads(chosen));
    }
  }

  lemma NothingToShare(entries: seq<Entry>)
    requires entries == []
    ensures IsFair(entries, []) && !SomeCutShort(entries, []) && LeastCost(entries) == 0
  {
  }

  lemma {:induction false} LeastCostCoversOverheads(entries: seq<Entry>)
    ensures Overheads(entries) <= LeastCost(entries)
  {
    if entries != [] { LeastCostCoversOverheads(entries[..|entries| - 1]); }
  }
}
