/** The parts of a multipart upload: how they tile the file, and which are still missing. */
module MultipartLayout {
  import opened Arithmetic

  function PartCount(size: nat, partSize: nat): (count: nat)
    requires partSize > 0
    ensures count >= 1
  {
    if size <= partSize then 1 else (size + partSize - 1) / partSize
  }

  function LastPartSize(size: nat, partSize: nat): int
    requires partSize > 0
  {
    size - (PartCount(size, partSize) - 1) * partSize
  }

  /** Parts are numbered from 1; only the last may be shorter. */
  function PartLength(size: nat, partSize: nat, n: nat): int
    requires partSize > 0
  {
    if n < PartCount(size, partSize) then partSize else LastPartSize(size, partSize)
  }

  /** Part n holds the bytes from PartStart up to, but not including, PartEnd. */
  function PartStart(size: nat, partSize: nat, n: nat): int {
    (n - 1) * partSize
  }

  function PartEnd(size: nat, partSize: nat, n: nat): int {
    if size < n * partSize then size else n * partSize
  }

  /** The whole parts before the last end before the file does, and one more part reaches its end. */
  lemma LastPartFits(size: nat, partSize: nat)
    requires partSize > 0
    ensures (PartCount(size, partSize) - 1) * partSize <= size <= PartCount(size, partSize) * partSize
    ensures size > 0 ==> (PartCount(size, partSize) - 1) * partSize < size
  {
    if size > partSize {
      DivBounds(size + partSize - 1, partSize);
      var count := PartCount(size, partSize);
      assert (count + 1) * partSize == count * partSize + partSize;
      assert (count - 1) * partSize == count * partSize - partSize;
    }
  }

  /**
   The ranges tile the file: they start at 0, follow one another without gap or
   overlap, end at the file's end, and are as long as `PartLength` says; every
   part but the last is full.
   */
  lemma PartsTile(size: nat, partSize: nat, n: nat)
    requires partSize > 0 && 1 <= n <= PartCount(size, partSize)
    ensures PartStart(size, partSize, 1) == 0
    ensures 0 <= PartStart(size, partSize, n) <= PartEnd(size, partSize, n) <= size
    ensures PartEnd(size, partSize, n) - PartStart(size, partSize, n) == PartLength(size, partSize, n) <= partSize
    ensures n < PartCount(size, partSize) ==> PartEnd(size, partSize, n) == PartStart(size, partSize, n + 1)
    ensures n == PartCount(size, partSize) ==> PartEnd(size, partSize, n) == size
    ensures size > 0 ==> PartLength(size, partSize, n) > 0
  {
    var count := PartCount(size, partSize);
    LastPartFits(size, partSize);
    hide PartCount;
    MulMono(0, n - 1, partSize);
    assert (n - 1) * partSize + partSize == n * partSize;
    if n < count {
      MulMono(n, count - 1, partSize);
    }
  }

  /** Every byte of the file is in exactly one part. */
  lemma EveryByteInOnePart(size: nat, partSize: nat, byte: nat)
    requires partSize > 0 && byte < size
    ensures 1 <= byte / partSize + 1 <= PartCount(size, partSize)
    ensures forall n :: 1 <= n <= PartCount(size, partSize) ==>
      (PartStart(size, partSize, n) <= byte < PartEnd(size, partSize, n) <==> n == byte / partSize + 1)
  {
    var k := byte / partSize + 1;
    DivBounds(byte, partSize);
    DivAtLeast(byte, partSize, 0);
    LastPartFits(size, partSize);
    MulBelow(k - 1, PartCount(size, partSize), partSize);
    hide PartCount;
    forall n | 1 <= n <= PartCount(size, partSize)
      ensures PartStart(size, partSize, n) <= byte < PartEnd(size, partSize, n) <==> n == k
    {
      if n < k {
        MulMono(n, k - 1, partSize);
      } else if n > k {
        MulMono(k, n - 1, partSize);
      }
    }
  }

  // ---- Missing parts --------------------------------------------------------

  datatype ListedPart = ListedPart(number: int, size: int)

  /** A part counts as stored only at its exact size. */
  predicate IsStored(size: nat, partSize: nat, listed: seq<ListedPart>, n: nat)
    requires partSize > 0
  {
    exists p :: p in listed && p.number == n && p.size == PartLength(size, partSize, n)
  }

  function SumOfLengths(size: nat, partSize: nat, parts: seq<nat>): int
    requires partSize > 0
  {
    if parts == [] then 0 else SumOfLengths(size, partSize, parts[..|parts| - 1]) + PartLength(size, partSize, parts[|parts| - 1])
  }

  /** Bytes of the stored parts among the first n. */
  function StoredBytes(size: nat, partSize: nat, listed: seq<ListedPart>, n: nat): int
    requires partSize > 0
  {
    if n == 0 then 0
    else StoredBytes(size, partSize, listed, n - 1) + if IsStored(size, partSize, listed, n) then PartLength(size, partSize, n) else 0
  }

  /** The parts up to n that are not stored, in ascending order. */
  function MissingUpTo(size: nat, partSize: nat, listed: seq<ListedPart>, n: nat): seq<nat>
    requires partSize > 0
  {
    if n == 0 then []
    else
      var front := MissingUpTo(size, partSize, listed, n - 1);
      if IsStored(size, partSize, listed, n) then front else front + [n]
  }

  lemma {:induction false} MissingAre(size: nat, partSize: nat, listed: seq<ListedPart>, n: nat)
    requires partSize > 0
    ensures forall k :: k in MissingUpTo(size, partSize, listed, n) <==> 1 <= k <= n && !IsStored(size, partSize, listed, k)
    ensures forall i, j :: 0 <= i < j < |MissingUpTo(size, partSize, listed, n)| ==>
      MissingUpTo(size, partSize, listed, n)[i] < MissingUpTo(size, partSize, listed, n)[j]
  {
    hide IsStored;
    if n > 0 {
      MissingAre(size, partSize, listed, n - 1);
      var front := MissingUpTo(size, partSize, listed, n - 1);
      assert forall i :: 0 <= i < |front| ==> front[i] in front;
    }
  }

  /** Stored and missing lengths together are all lengths. */
  lemma {:induction false} LengthsAddUp(size: nat, partSize: nat, listed: seq<ListedPart>, n: nat)
    requires partSize > 0
    ensures SumOfLengths(size, partSize, MissingUpTo(size, partSize, listed, n)) + StoredBytes(size, partSize, listed, n)
         == FirstLengths(size, partSize, n)
  {
    hide IsStored, PartLength;
    if n > 0 {
      LengthsAddUp(size, partSize, listed, n - 1);
      SumOfOneMore(size, partSize, MissingUpTo(size, partSize, listed, n - 1), n);
    }
  }

  /**
   The missing parts, in ascending order: exactly those not stored. The bytes
   taken as done are those of the stored parts: what the missing ones leave.
   */
  method MissingParts(size: nat, partSize: nat, listed: seq<ListedPart>) returns (missing: seq<nat>)
    requires partSize > 0
    ensures forall n :: n in missing <==> 1 <= n <= PartCount(size, partSize) && !IsStored(size, partSize, listed, n)
    ensures forall i, j :: 0 <= i < j < |missing| ==> missing[i] < missing[j]
    ensures size - SumOfLengths(size, partSize, missing) == StoredBytes(size, partSize, listed, PartCount(size, partSize))
  {
    hide IsStored, PartCount, PartLength, StoredBytes, SumOfLengths, FirstLengths;
    var count := PartCount(size, partSize);
    var stored := StoredParts(size, partSize, listed);
    missing := [];
    for n: nat := 1 to count + 1
      invariant missing == MissingUpTo(size, partSize, listed, n - 1)
    {
      if n !in stored {
        missing := missing + [n];
      }
    }
    MissingAre(size, partSize, listed, count);
    LengthsAddUp(size, partSize, listed, count);
    FirstLengthsAre(size, partSize, count);
  }

  method StoredParts(size: nat, partSize: nat, listed: seq<ListedPart>) returns (stored: set<nat>)
    requires partSize > 0
    ensures forall n :: n in stored <==> 1 <= n <= PartCount(size, partSize) && IsStored(size, partSize, listed, n)
  {
    var count := PartCount(size, partSize);
    hide PartCount, PartLength;
    stored := {};
    for i := 0 to |listed|
      invariant forall n :: n in stored <==> 1 <= n <= count && IsStored(size, partSize, listed[..i], n)
    {
      StoredSoFar(size, partSize, listed, i);
      var p := listed[i];
      if 1 <= p.number <= count && p.size == PartLength(size, partSize, p.number) {
        stored := stored + {p.number};
      }
    }
    assert listed[..|listed|] == listed;
  }

  lemma StoredSoFar(size: nat, partSize: nat, listed: seq<ListedPart>, i: nat)
    requires partSize > 0 && i < |listed|
    ensures forall n: nat :: IsStored(size, partSize, listed[..i + 1], n) <==>
      IsStored(size, partSize, listed[..i], n) || (listed[i].number == n && listed[i].size == PartLength(size, partSize, n))
  {
    hide PartLength;
    assert listed[..i + 1] == listed[..i] + [listed[i]];
  }

  lemma SumOfOneMore(size: nat, partSize: nat, parts: seq<nat>, n: nat)
    requires partSize > 0
    ensures SumOfLengths(size, partSize, parts + [n]) == SumOfLengths(size, partSize, parts) + PartLength(size, partSize, n)
  {
    assert (parts + [n])[..|parts + [n]| - 1] == parts;
  }

  function FirstLengths(size: nat, partSize: nat, n: nat): int
    requires partSize > 0
  {
    if n == 0 then 0 else FirstLengths(size, partSize, n - 1) + PartLength(size, partSize, n)
  }

  /** The first n parts reach as far as part n does; all of them are the whole file. */
  lemma {:induction false} FirstLengthsAre(size: nat, partSize: nat, n: nat)
    requires partSize > 0 && n <= PartCount(size, partSize)
    ensures n >= 1 ==> FirstLengths(size, partSize, n) == PartEnd(size, partSize, n)
    ensures n == PartCount(size, partSize) ==> FirstLengths(size, partSize, n) == size
  {
    if n >= 1 {
      PartsTile(size, partSize, n);
      FirstLengthsAre(size, partSize, n - 1);
      if n > 1 { PartsTile(size, partSize, n - 1); }
      hide PartCount, PartLength;
    }
  }
}
