/** The byte-mismatch diagnostic: two files compared block by block, described byte by byte. */
module FileMismatch {
  import opened Common

  const BLOCK: nat := 65536

  type Byte = nat

  // -------------------------------------------------------------- bytewise meaning

  function ByteAt(file: seq<Byte>, offset: nat): Option<Byte> {
    if offset < |file| then Some(file[offset]) else None
  }

  /** End of file counts as different from any byte. */
  predicate Differs(expected: seq<Byte>, actual: seq<Byte>, offset: nat) {
    ByteAt(expected, offset) != ByteAt(actual, offset)
  }

  function Occurrence(offset: nat, packetSize: nat): nat
    requires packetSize > 0
  {
    offset / packetSize + 1
  }

  /** Packets are numbered from one; packet p covers the offsets from (p - 1) * size up to p * size. */
  lemma OccurrenceIs(offset: nat, packetSize: nat, p: nat)
    requires packetSize > 0
    ensures Occurrence(offset, packetSize) == p <==> p >= 1 && (p - 1) * packetSize <= offset < p * packetSize
    ensures (Occurrence(offset, packetSize) - 1) * packetSize + offset % packetSize == offset
  {
    var q := offset / packetSize;
    assert offset == q * packetSize + offset % packetSize;
    assert (q + 1) * packetSize == q * packetSize + packetSize;
    if p >= 1 && p - 1 < q {
      Scaled(p, q, packetSize);
    } else if p >= 1 && p - 1 > q {
      Scaled(q + 1, p - 1, packetSize);
    }
  }

  lemma Scaled(a: nat, b: nat, factor: nat)
    requires a <= b
    ensures a * factor <= b * factor
  {
  }

  /** The least differing offset below n. */
  ghost predicate FirstBelow(expected: seq<Byte>, actual: seq<Byte>, n: nat, first: Option<nat>) {
    match first
    case None => forall i: nat :: i < n ==> !Differs(expected, actual, i)
    case Some(f) => f < n && Differs(expected, actual, f) && forall i: nat :: i < f ==> !Differs(expected, actual, i)
  }

  /** Packet p contains a differing offset below n. */
  ghost predicate Mismatching(expected: seq<Byte>, actual: seq<Byte>, packetSize: nat, n: nat, p: nat)
    requires packetSize > 0
  {
    exists i: nat :: i < n && Differs(expected, actual, i) && Occurrence(i, packetSize) == p
  }

  /** `l` lists the least `maximum` members of s in increasing order. */
  ghost predicate Least(s: iset<nat>, maximum: nat, l: seq<nat>) {
    && |l| <= maximum
    && (forall j, k :: 0 <= j < k < |l| ==> l[j] < l[k])
    && (forall k :: 0 <= k < |l| ==> l[k] in s)
    && (forall p :: p in s ==> p in l || (|l| == maximum && forall k :: 0 <= k < |l| ==> l[k] < p))
  }

  ghost function MismatchingPackets(expected: seq<Byte>, actual: seq<Byte>, packetSize: nat, n: nat): iset<nat>
    requires packetSize > 0
  {
    iset p: nat | Mismatching(expected, actual, packetSize, n, p)
  }

  /** `packets` are the first `maximum` mismatching packet numbers, in increasing order. */
  ghost predicate FirstPackets(expected: seq<Byte>, actual: seq<Byte>, packetSize: nat, maximum: nat, n: nat,
                               packets: seq<nat>)
    requires packetSize > 0
  {
    Least(MismatchingPackets(expected, actual, packetSize, n), maximum, packets)
  }

  lemma NotBelow(s: iset<nat>, maximum: nat, a: seq<nat>, b: seq<nat>, k: nat)
    requires Least(s, maximum, a) && Least(s, maximum, b) && k < |a| && k < |b| && a[..k] == b[..k]
    ensures a[k] >= b[k]
  {
  }

  lemma {:induction false} SamePrefix(s: iset<nat>, maximum: nat, a: seq<nat>, b: seq<nat>, k: nat)
    requires Least(s, maximum, a) && Least(s, maximum, b) && k <= |a| && k <= |b|
    ensures a[..k] == b[..k]
  {
    if k > 0 {
      SamePrefix(s, maximum, a, b, k - 1);
      NotBelow(s, maximum, a, b, k - 1);
      NotBelow(s, maximum, b, a, k - 1);
      assert a[..k] == a[..k - 1] + [a[k - 1]];
    }
  }

  lemma Within(s: iset<nat>, maximum: nat, a: seq<nat>, b: seq<nat>, k: nat)
    requires Least(s, maximum, a) && Least(s, maximum, b) && a <= b && k < |b|
    ensures k < |a|
  {
    assert b[k] in s;
  }

  lemma NotLonger(s: iset<nat>, maximum: nat, a: seq<nat>, b: seq<nat>)
    requires Least(s, maximum, a) && Least(s, maximum, b) && a <= b
    ensures a == b
  {
    if b != [] {
      Within(s, maximum, a, b, |b| - 1);
    }
  }

  /** The description determines the list. */
  lemma FirstPacketsUnique(expected: seq<Byte>, actual: seq<Byte>, packetSize: nat, maximum: nat, n: nat,
                           a: seq<nat>, b: seq<nat>)
    requires packetSize > 0
    requires FirstPackets(expected, actual, packetSize, maximum, n, a)
    requires FirstPackets(expected, actual, packetSize, maximum, n, b)
    ensures a == b
  {
    var s := iset p | Mismatching(expected, actual, packetSize, n, p);
    assert Least(s, maximum, a) && Least(s, maximum, b);
    SamePrefix(s, maximum, a, b, Shorter(|a|, |b|));
    if |a| <= |b| {
      NotLonger(s, maximum, a, b);
    } else {
      NotLonger(s, maximum, b, a);
    }
  }

  lemma EqualUnlessDiffers(expected: seq<Byte>, actual: seq<Byte>)
    ensures expected == actual <==> forall i: nat :: !Differs(expected, actual, i)
  {
    if forall i: nat :: !Differs(expected, actual, i) {
      assert !Differs(expected, actual, |expected|) && !Differs(expected, actual, |actual|);
      forall i | 0 <= i < |expected|
        ensures i < |actual| && expected[i] == actual[i]
      {
        assert !Differs(expected, actual, i);
      }
    }
  }

  // ---------------------------------------------------------------- one more offset

  lemma OccurrencesAscend(i: nat, j: nat, packetSize: nat)
    requires packetSize > 0 && i <= j
    ensures Occurrence(i, packetSize) <= Occurrence(j, packetSize)
  {
    var a: nat, b: nat := i / packetSize, j / packetSize;
    assert i == packetSize * a + i % packetSize && j == packetSize * b + j % packetSize;
    if b < a {
      NextMultiple(packetSize, b, a);
    }
  }

  /** What the comparison remembers after the offsets below n. */
  datatype Progress = Progress(first: Option<nat>, packets: seq<nat>)

  ghost predicate Describes(expected: seq<Byte>, actual: seq<Byte>, packetSize: nat, maximum: nat, n: nat, p: Progress)
    requires packetSize > 0
  {
    && FirstBelow(expected, actual, n, p.first)
    && FirstPackets(expected, actual, packetSize, maximum, n, p.packets)
  }

  lemma MismatchingStep(expected: seq<Byte>, actual: seq<Byte>, packetSize: nat, n: nat, p: nat)
    requires packetSize > 0
    ensures Mismatching(expected, actual, packetSize, n + 1, p) <==>
      || Mismatching(expected, actual, packetSize, n, p)
      || (Differs(expected, actual, n) && Occurrence(n, packetSize) == p)
  {
  }

  lemma AllOccurBefore(expected: seq<Byte>, actual: seq<Byte>, packetSize: nat, n: nat, p: nat)
    requires packetSize > 0 && Mismatching(expected, actual, packetSize, n, p)
    ensures p <= Occurrence(n, packetSize)
  {
    var i: nat :| i < n && Differs(expected, actual, i) && Occurrence(i, packetSize) == p;
    OccurrencesAscend(i, n, packetSize);
  }

  /** A differing packet is listed once, while there is room. */
  function NextPackets(packets: seq<nat>, maximum: nat, differs: bool, occurrence: nat): seq<nat> {
    if differs && |packets| < maximum && (packets == [] || packets[|packets| - 1] != occurrence)
    then packets + [occurrence] else packets
  }

  function NextFirst(first: Option<nat>, differs: bool, offset: nat): Option<nat> {
    if differs && first == None then Some(offset) else first
  }

  /** Adding a greatest member: it is listed unless it already is, or the list is full. */
  lemma LeastStep(s: iset<nat>, maximum: nat, l: seq<nat>, x: nat)
    requires maximum > 0 && Least(s, maximum, l) && forall p :: p in s ==> p <= x
    ensures Least(s + iset{x}, maximum, NextPackets(l, maximum, true, x))
  {
  }

  lemma PacketsStep(expected: seq<Byte>, actual: seq<Byte>, packetSize: nat, maximum: nat, n: nat, packets: seq<nat>)
    requires packetSize > 0 && maximum > 0 && FirstPackets(expected, actual, packetSize, maximum, n, packets)
    ensures FirstPackets(expected, actual, packetSize, maximum, n + 1,
                         NextPackets(packets, maximum, Differs(expected, actual, n), Occurrence(n, packetSize)))
  {
    var now := MismatchingPackets(expected, actual, packetSize, n);
    var next := MismatchingPackets(expected, actual, packetSize, n + 1);
    var x := Occurrence(n, packetSize);
    forall p
      ensures p in next <==> p in now || (Differs(expected, actual, n) && x == p)
      ensures p in now ==> p <= x
    {
      MismatchingStep(expected, actual, packetSize, n, p);
      if p in now {
        AllOccurBefore(expected, actual, packetSize, n, p);
      }
    }
    if Differs(expected, actual, n) {
      assert next == now + iset{x};
      LeastStep(now, maximum, packets, x);
    } else {
      assert next == now;
    }
  }

  lemma DescribesStep(expected: seq<Byte>, actual: seq<Byte>, packetSize: nat, maximum: nat, n: nat, p: Progress)
    requires packetSize > 0 && maximum > 0 && Describes(expected, actual, packetSize, maximum, n, p)
    ensures var differs := Differs(expected, actual, n);
      Describes(expected, actual, packetSize, maximum, n + 1,
        Progress(NextFirst(p.first, differs, n), NextPackets(p.packets, maximum, differs, Occurrence(n, packetSize))))
  {
    PacketsStep(expected, actual, packetSize, maximum, n, p.packets);
    FirstStep(expected, actual, n, p.first);
  }

  lemma FirstStep(expected: seq<Byte>, actual: seq<Byte>, n: nat, first: Option<nat>)
    requires FirstBelow(expected, actual, n, first)
    ensures FirstBelow(expected, actual, n + 1, NextFirst(first, Differs(expected, actual, n), n))
  {
  }

  /** One offset of the inner loop. */
  method CompareOffset(expected: seq<Byte>, actual: seq<Byte>, expectedByte: Option<Byte>, actualByte: Option<Byte>,
                       offset: nat, packetSize: nat, maximum: nat, p: Progress) returns (q: Progress)
    requires packetSize > 0 && maximum > 0
    requires expectedByte == ByteAt(expected, offset) && actualByte == ByteAt(actual, offset)
    requires Describes(expected, actual, packetSize, maximum, offset, p)
    ensures Describes(expected, actual, packetSize, maximum, offset + 1, q)
  {
    DescribesStep(expected, actual, packetSize, maximum, offset, p);
    var first, packets := p.first, p.packets;
    var differs := expectedByte != actualByte;
    if differs {
      if first == None {
        first := Some(offset);
      }
      var occurrence := Occurrence(offset, packetSize);
      if |packets| < maximum && (packets == [] || packets[|packets| - 1] != occurrence) {
        packets := packets + [occurrence];
      }
    }
    assert differs == Differs(expected, actual, offset);
    q := Progress(first, packets);
  }

  // ------------------------------------------------------------------ block by block

  /** The next block of a file and the position behind it. */
  function Read(file: seq<Byte>, position: nat): (block: seq<Byte>)
    requires position <= |file|
    ensures |block| <= BLOCK && position + |block| <= |file|
    ensures |block| == BLOCK || position + |block| == |file|
    ensures forall i :: 0 <= i < |block| ==> block[i] == file[position + i]
  {
    if |file| - position < BLOCK then file[position..] else file[position..position + BLOCK]
  }

  function Longer(a: nat, b: nat): nat {
    if a > b then a else b
  }

  function Shorter(a: nat, b: nat): nat {
    if a < b then a else b
  }

  /** Compare one pair of blocks that start at the same offset of both files. */
  method CompareBlocks(expected: seq<Byte>, actual: seq<Byte>, expectedBlock: seq<Byte>, actualBlock: seq<Byte>,
                       start: nat, packetSize: nat, maximum: nat, p: Progress) returns (q: Progress, compared: nat)
    requires packetSize > 0 && maximum > 0
    requires Describes(expected, actual, packetSize, maximum, start, p)
    requires expectedBlock == Read(expected, Shorter(start, |expected|))
    requires actualBlock == Read(actual, Shorter(start, |actual|))
    ensures compared == Longer(|expectedBlock|, |actualBlock|)
    ensures Describes(expected, actual, packetSize, maximum, start + compared, q)
  {
    compared := Longer(|expectedBlock|, |actualBlock|);
    q := p;
    for index := 0 to compared
      invariant Describes(expected, actual, packetSize, maximum, start + index, q)
    {
      var expectedByte := if index < |expectedBlock| then Some(expectedBlock[index]) else None;
      var actualByte := if index < |actualBlock| then Some(actualBlock[index]) else None;
      q := CompareOffset(expected, actual, expectedByte, actualByte, start + index, packetSize, maximum, q);
    }
  }

  datatype Description =
    | InvalidLimits
    | Identical
    | Mismatch(offset: nat, occurrence: nat, packetOffset: nat, expectedPreview: seq<Byte>, actualPreview: seq<Byte>,
               packets: seq<nat>)

  /** Beyond both ends nothing differs, so what holds below the longer length holds everywhere. */
  lemma NothingBeyond(expected: seq<Byte>, actual: seq<Byte>, n: nat)
    requires |expected| <= n && |actual| <= n
    ensures forall i: nat :: i >= n ==> !Differs(expected, actual, i)
  {
  }

  method Preview(file: seq<Byte>, offset: nat, length: nat) returns (bytes: seq<Byte>)
    ensures bytes == file[Shorter(offset, |file|)..Shorter(offset + length, |file|)]
  {
    bytes := if offset >= |file| then []
             else if offset + length < |file| then file[offset..offset + length] else file[offset..];
  }

  /**
   describe_file_mismatch: the blockwise comparison reports what the bytewise
   comparison of the whole files says.
   */
  method DescribeMismatch(expected: seq<Byte>, actual: seq<Byte>, packetSize: int, maximum: int, preview: int)
    returns (d: Description)
    ensures d.InvalidLimits? <==> packetSize <= 0 || maximum <= 0 || preview <= 0
    ensures !d.InvalidLimits? ==> (d.Identical? <==> expected == actual)
    ensures d.Mismatch? ==>
      && Differs(expected, actual, d.offset) && (forall i: nat :: i < d.offset ==> !Differs(expected, actual, i))
      && d.occurrence == Occurrence(d.offset, packetSize) && d.packetOffset < packetSize
      && (d.occurrence - 1) * packetSize + d.packetOffset == d.offset
      && (forall n: nat :: |expected| <= n && |actual| <= n ==>
        FirstPackets(expected, actual, packetSize, maximum, n, d.packets))
      && d.expectedPreview == expected[Shorter(d.offset, |expected|)..Shorter(d.offset + preview, |expected|)]
      && d.actualPreview == actual[Shorter(d.offset, |actual|)..Shorter(d.offset + preview, |actual|)]
  {
    if packetSize <= 0 || maximum <= 0 || preview <= 0 {
      return InvalidLimits;
    }
    var p := Progress(None, []);
    var offset, expectedAt, actualAt := 0, 0, 0;
    while expectedAt < |expected| || actualAt < |actual|
      invariant expectedAt == Shorter(offset, |expected|) && actualAt == Shorter(offset, |actual|)
      invariant offset <= Longer(|expected|, |actual|)
      invariant Describes(expected, actual, packetSize, maximum, offset, p)
      decreases Longer(|expected|, |actual|) - offset
    {
      var expectedBlock, actualBlock := Read(expected, expectedAt), Read(actual, actualAt);
      var compared;
      p, compared := CompareBlocks(expected, actual, expectedBlock, actualBlock, offset, packetSize, maximum, p);
      expectedAt, actualAt := expectedAt + |expectedBlock|, actualAt + |actualBlock|;
      offset := offset + compared;
    }
    NothingBeyond(expected, actual, offset);
    EqualUnlessDiffers(expected, actual);
    if p.first == None {
      return Identical;
    }
    forall n: nat | |expected| <= n && |actual| <= n
      ensures FirstPackets(expected, actual, packetSize, maximum, n, p.packets)
    {
      PacketsSettled(expected, actual, packetSize, maximum, offset, n, p.packets);
    }
    var first := p.first.value;
    OccurrenceIs(first, packetSize, Occurrence(first, packetSize));
    var expectedPreview := Preview(expected, first, preview);
    var actualPreview := Preview(actual, first, preview);
    d := Mismatch(first, Occurrence(first, packetSize), first % packetSize, expectedPreview, actualPreview, p.packets);
  }

  lemma PacketsSettled(expected: seq<Byte>, actual: seq<Byte>, packetSize: nat, maximum: nat, m: nat, n: nat,
                       packets: seq<nat>)
    requires packetSize > 0 && FirstPackets(expected, actual, packetSize, maximum, m, packets)
    requires |expected| <= m && |actual| <= m && |expected| <= n && |actual| <= n
    ensures FirstPackets(expected, actual, packetSize, maximum, n, packets)
  {
  }
}
