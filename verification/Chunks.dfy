/**
 Chunking and reassembly: src/files/chunker.js.

 A file is cut by a plan (a chunk length and a chunk count) and put together again
 by a Reassembler that takes chunks in any order, with duplicates, and refuses the
 ones that disagree with its plan or their checksum. SHA-256 is taken as ideal: two
 byte strings with one digest are equal.
 */
module Chunks {
  import opened Options
  import opened Crc32

  type Bytes = seq<Byte>

  datatype Digest = Digest(of: Bytes)

  // ------------------------------------------------------------------
  // The plan.
  // ------------------------------------------------------------------

  function Min(a: int, b: int): int {
    if a < b then a else b
  }

  /** Rounded up; a zero-byte file needs no chunk. */
  function ChunkCount(size: nat, chunkBytes: nat): nat
    requires chunkBytes > 0
  {
    if size == 0 then 0 else (size + chunkBytes - 1) / chunkBytes
  }

  function ChunkLength(size: nat, chunkBytes: nat, k: nat): nat {
    if k * chunkBytes >= size then 0 else Min(chunkBytes, size - k * chunkBytes)
  }

  function Chunk(file: Bytes, chunkBytes: nat, k: nat): (c: Bytes)
    ensures |c| == ChunkLength(|file|, chunkBytes, k)
  {
    if k * chunkBytes >= |file| then [] else file[k * chunkBytes..Min(k * chunkBytes + chunkBytes, |file|)]
  }

  lemma Multiples(a: nat, b: nat, c: nat)
    requires a < b
    ensures a * c + c <= b * c
  {
    assert b * c == a * c + (b - a) * c;
    assert (b - a) * c >= c by {
      assert (b - a) * c == c + (b - a - 1) * c;
    }
  }

  lemma CountBounds(size: nat, chunkBytes: nat)
    requires chunkBytes > 0 && size > 0
    ensures ChunkCount(size, chunkBytes) >= 1
    ensures (ChunkCount(size, chunkBytes) - 1) * chunkBytes < size <= ChunkCount(size, chunkBytes) * chunkBytes
  {
    var top := size + chunkBytes - 1;
    var n := top / chunkBytes;
    assert top == n * chunkBytes + top % chunkBytes;
    assert (n - 1) * chunkBytes == n * chunkBytes - chunkBytes;
  }

  /** A chunk number is in the plan exactly when the chunk has bytes. */
  lemma InPlan(size: nat, chunkBytes: nat, k: nat)
    requires chunkBytes > 0
    ensures k < ChunkCount(size, chunkBytes) <==> k * chunkBytes < size
    ensures k < ChunkCount(size, chunkBytes) <==> ChunkLength(size, chunkBytes, k) > 0
  {
    var n := ChunkCount(size, chunkBytes);
    if size > 0 {
      CountBounds(size, chunkBytes);
      if k < n - 1 {
        Multiples(k, n - 1, chunkBytes);
      } else if k >= n {
        if k > n {
          Multiples(n, k, chunkBytes);
        }
      }
    }
  }

  function Joined(file: Bytes, chunkBytes: nat, n: nat): Bytes {
    if n == 0 then [] else Joined(file, chunkBytes, n - 1) + Chunk(file, chunkBytes, n - 1)
  }

  lemma {:induction false} JoinedPrefix(file: Bytes, chunkBytes: nat, n: nat)
    ensures n * chunkBytes >= 0
    ensures Joined(file, chunkBytes, n) == file[..Min(n * chunkBytes, |file|)]
  {
    if n > 0 {
      JoinedPrefix(file, chunkBytes, n - 1);
      assert n * chunkBytes == (n - 1) * chunkBytes + chunkBytes;
    }
  }

  /** The chunks of a plan, laid end to end, are the file. */
  lemma {:induction false} Partition(file: Bytes, chunkBytes: nat)
    requires chunkBytes > 0
    ensures Joined(file, chunkBytes, ChunkCount(|file|, chunkBytes)) == file
  {
    JoinedPrefix(file, chunkBytes, ChunkCount(|file|, chunkBytes));
    if |file| > 0 {
      CountBounds(|file|, chunkBytes);
      assert file[..|file|] == file;
    }
  }

  /** Which chunk a byte belongs to, and that it belongs to no other. */
  lemma HomeChunk(j: nat, chunkBytes: nat, k: nat)
    requires chunkBytes > 0
    ensures k * chunkBytes <= j < k * chunkBytes + chunkBytes <==> j / chunkBytes == k
  {
    var q, r := j / chunkBytes, j % chunkBytes;
    assert j == q * chunkBytes + r;
    if q < k {
      Multiples(q, k, chunkBytes);
    } else if k < q {
      Multiples(k, q, chunkBytes);
    }
  }

  lemma ByteInOneChunk(file: Bytes, chunkBytes: nat, j: nat)
    requires chunkBytes > 0 && j < |file|
    ensures j / chunkBytes < ChunkCount(|file|, chunkBytes)
    ensures j % chunkBytes < |Chunk(file, chunkBytes, j / chunkBytes)|
    ensures Chunk(file, chunkBytes, j / chunkBytes)[j % chunkBytes] == file[j]
  {
    HomeChunk(j, chunkBytes, j / chunkBytes);
    InPlan(|file|, chunkBytes, j / chunkBytes);
    assert j == j / chunkBytes * chunkBytes + j % chunkBytes;
  }

  datatype Message = Message(k: int, bytes: Bytes, crc: Option<nat>)

  /** The chunk as the sender cuts it, checksum attached. */
  function Cut(file: Bytes, chunkBytes: nat, k: nat): Message {
    Message(k, Chunk(file, chunkBytes, k), Some(Checksum(Chunk(file, chunkBytes, k))))
  }

  method CutAll(file: Bytes, chunkBytes: nat, crc: Checksummer) returns (messages: seq<Message>)
    requires chunkBytes > 0 && crc.Valid()
    modifies crc
    ensures crc.Valid()
    ensures |messages| == ChunkCount(|file|, chunkBytes)
    ensures forall k :: 0 <= k < |messages| ==> messages[k] == Cut(file, chunkBytes, k)
  {
    messages := [];
    var total := ChunkCount(|file|, chunkBytes);
    for k := 0 to total
      invariant crc.Valid()
      invariant |messages| == k
      invariant forall i :: 0 <= i < k ==> messages[i] == Cut(file, chunkBytes, i)
    {
      var offset := k * chunkBytes;
      InPlan(|file|, chunkBytes, k);
      var bytes := file[offset..Min(offset + chunkBytes, |file|)];
      var sum := crc.Crc32(bytes);
      messages := messages + [Message(k, bytes, Some(sum))];
    }
  }

  // ------------------------------------------------------------------
  // Reassembly: the value a Reassembler stands for and what accept() does to it.
  // ------------------------------------------------------------------

  datatype Rx = Rx(
    size: nat, chunkBytes: nat, total: nat, digest: Option<Digest>,
    buffer: Bytes, have: seq<bool>, received: nat, bytesReceived: nat, aborted: bool)
  {
    predicate Complete() {
      !aborted && received >= total
    }
  }

  datatype Outcome = Stored | Duplicate | Ignored | OutsidePlan | WrongLength | BadChecksum | OutOfBounds

  datatype Finished = Whole(bytes: Bytes) | Cancelled | Incomplete | SizeMismatch | DigestMismatch

  function Zeros(n: nat): (z: Bytes)
    ensures |z| == n && forall i :: 0 <= i < n ==> z[i] == 0
  {
    seq(n, _ => 0)
  }

  function NoneYet(n: nat): (h: seq<bool>)
    ensures |h| == n && forall i :: 0 <= i < n ==> !h[i]
  {
    seq(n, _ => false)
  }

  function Fresh(size: nat, chunkBytes: nat, total: nat, digest: Option<Digest>): (rx: Rx)
    requires chunkBytes > 0
    ensures WellFormed(rx)
  {
    CountNone(total);
    CoveredNone(size, chunkBytes, total);
    Rx(size, chunkBytes, total, digest, Zeros(size), NoneYet(total), 0, 0, false)
  }

  function CountTrue(have: seq<bool>): nat {
    if have == [] then 0 else CountTrue(have[..|have| - 1]) + if have[|have| - 1] then 1 else 0
  }

  /** Bytes covered by the chunks recorded so far. */
  function Covered(size: nat, chunkBytes: nat, have: seq<bool>): nat {
    if have == [] then 0
    else Covered(size, chunkBytes, have[..|have| - 1])
         + if have[|have| - 1] then ChunkLength(size, chunkBytes, |have| - 1) else 0
  }

  ghost predicate WellFormed(rx: Rx) {
    && rx.chunkBytes > 0
    && (rx.aborted ==> rx.buffer == [] && rx.have == [])
    && (!rx.aborted ==>
          && |rx.buffer| == rx.size
          && |rx.have| == rx.total
          && rx.received == CountTrue(rx.have)
          && rx.bytesReceived == Covered(rx.size, rx.chunkBytes, rx.have))
  }

  function Overwrite(buffer: Bytes, offset: nat, bytes: Bytes): (b: Bytes)
    requires offset + |bytes| <= |buffer|
    ensures |b| == |buffer|
    ensures forall j :: 0 <= j < |b| ==>
      b[j] == if offset <= j < offset + |bytes| then bytes[j - offset] else buffer[j]
  {
    buffer[..offset] + bytes + buffer[offset + |bytes|..]
  }

  function Judge(rx: Rx, m: Message): Outcome
    requires WellFormed(rx)
  {
    if rx.aborted then Ignored
    else if m.k < 0 || m.k >= rx.total then OutsidePlan
    else if |m.bytes| != ChunkLength(rx.size, rx.chunkBytes, m.k) then WrongLength
    else if m.crc.Some? && Checksum(m.bytes) != m.crc.value then BadChecksum
    else if rx.have[m.k] then Duplicate
    else if m.k * rx.chunkBytes + |m.bytes| > |rx.buffer| then OutOfBounds
    else Stored
  }

  function AfterAccept(rx: Rx, m: Message): (after: Rx)
    requires WellFormed(rx)
    ensures WellFormed(after)
  {
    if Judge(rx, m).Stored? then
      CountSet(rx.have, m.k);
      CoveredSet(rx.size, rx.chunkBytes, rx.have, m.k);
      rx.(buffer := Overwrite(rx.buffer, m.k * rx.chunkBytes, m.bytes),
          have := rx.have[m.k := true],
          received := rx.received + 1,
          bytesReceived := rx.bytesReceived + |m.bytes|)
    else rx
  }

  function AfterAbort(rx: Rx): Rx {
    rx.(aborted := true, buffer := [], have := [])
  }

  function FinishResult(rx: Rx): Finished {
    if rx.aborted then Cancelled
    else if !rx.Complete() then Incomplete
    else if rx.bytesReceived != rx.size then SizeMismatch
    else if rx.digest.Some? && rx.digest.value != Digest(rx.buffer) then DigestMismatch
    else Whole(rx.buffer)
  }

  // ------------------------------------------------------------------
  // Counting.
  // ------------------------------------------------------------------

  lemma {:induction false} CountSet(have: seq<bool>, k: nat)
    requires k < |have| && !have[k]
    ensures CountTrue(have[k := true]) == CountTrue(have) + 1
  {
    var n := |have| - 1;
    if k < n {
      assert have[k := true][..n] == have[..n][k := true];
      CountSet(have[..n], k);
    } else {
      assert have[k := true][..n] == have[..n];
    }
  }

  lemma {:induction false} CountAll(have: seq<bool>)
    ensures CountTrue(have) <= |have|
    ensures CountTrue(have) == |have| <==> forall k :: 0 <= k < |have| ==> have[k]
  {
    if have != [] {
      var n := |have| - 1;
      CountAll(have[..n]);
      assert forall k :: 0 <= k < n ==> have[..n][k] == have[k];
    }
  }

  lemma {:induction false} CountNone(n: nat)
    ensures CountTrue(NoneYet(n)) == 0
  {
    if n > 0 {
      assert NoneYet(n)[..n - 1] == NoneYet(n - 1);
      CountNone(n - 1);
    }
  }

  lemma {:induction false} CoveredNone(size: nat, chunkBytes: nat, n: nat)
    ensures Covered(size, chunkBytes, NoneYet(n)) == 0
  {
    if n > 0 {
      assert NoneYet(n)[..n - 1] == NoneYet(n - 1);
      CoveredNone(size, chunkBytes, n - 1);
    }
  }

  lemma {:induction false} CoveredSet(size: nat, chunkBytes: nat, have: seq<bool>, k: nat)
    requires k < |have| && !have[k]
    ensures Covered(size, chunkBytes, have[k := true])
         == Covered(size, chunkBytes, have) + ChunkLength(size, chunkBytes, k)
  {
    var n := |have| - 1;
    if k < n {
      assert have[k := true][..n] == have[..n][k := true];
      CoveredSet(size, chunkBytes, have[..n], k);
    } else {
      assert have[k := true][..n] == have[..n];
    }
  }

  ghost predicate NoneMissing(size: nat, chunkBytes: nat, have: seq<bool>) {
    forall k :: 0 <= k < |have| && ChunkLength(size, chunkBytes, k) > 0 ==> have[k]
  }

  lemma NoneMissingStep(size: nat, chunkBytes: nat, have: seq<bool>)
    requires have != []
    ensures NoneMissing(size, chunkBytes, have)
      <==> NoneMissing(size, chunkBytes, have[..|have| - 1])
           && (ChunkLength(size, chunkBytes, |have| - 1) > 0 ==> have[|have| - 1])
  {
    hide ChunkLength;
    var shorter := have[..|have| - 1];
    assert forall k :: 0 <= k < |shorter| ==> shorter[k] == have[k];
  }

  /** The recorded chunks cover everything they could exactly when no chunk with bytes is missing. */
  lemma {:induction false} CoveredFull(size: nat, chunkBytes: nat, have: seq<bool>)
    ensures |have| * chunkBytes >= 0
    ensures Covered(size, chunkBytes, have) <= Min(|have| * chunkBytes, size)
    ensures Covered(size, chunkBytes, have) == Min(|have| * chunkBytes, size) <==> NoneMissing(size, chunkBytes, have)
  {
    hide NoneMissing;
    if have == [] {
      NothingMissing(size, chunkBytes);
    } else {
      var n := |have| - 1;
      CoveredFull(size, chunkBytes, have[..n]);
      NoneMissingStep(size, chunkBytes, have);
      assert |have| * chunkBytes == n * chunkBytes + chunkBytes;
    }
  }

  lemma NothingMissing(size: nat, chunkBytes: nat)
    ensures NoneMissing(size, chunkBytes, [])
  {
  }

  // ------------------------------------------------------------------
  // Runs.
  // ------------------------------------------------------------------

  /** The state after a whole list of accept() calls; refused ones leave it alone. */
  function AcceptAll(rx: Rx, messages: seq<Message>): (after: Rx)
    requires WellFormed(rx)
    ensures WellFormed(after)
    decreases |messages|
  {
    if messages == [] then rx else AcceptAll(AfterAccept(rx, messages[0]), messages[1..])
  }

  lemma {:induction false} AcceptAllAppend(rx: Rx, a: seq<Message>, b: seq<Message>)
    requires WellFormed(rx)
    ensures AcceptAll(rx, a + b) == AcceptAll(AcceptAll(rx, a), b)
    decreases |a|
  {
    if a == [] {
      assert a + b == b;
    } else {
      assert (a + b)[1..] == a[1..] + b;
      AcceptAllAppend(AfterAccept(rx, a[0]), a[1..], b);
    }
  }

  /** A chunk of this file under this plan; the checksum may be absent but not wrong. */
  ghost predicate Genuine(file: Bytes, chunkBytes: nat, m: Message)
    requires chunkBytes > 0
  {
    && 0 <= m.k < ChunkCount(|file|, chunkBytes)
    && m.bytes == Chunk(file, chunkBytes, m.k)
    && (m.crc.Some? ==> m.crc.value == Checksum(m.bytes))
  }

  /**
   A chunk hurt on the way: its number or its length no longer fits the plan, or its
   bytes changed somewhere inside four consecutive positions.
   */
  ghost predicate Damaged(file: Bytes, chunkBytes: nat, m: Message)
    requires chunkBytes > 0
  {
    || m.k < 0 || m.k >= ChunkCount(|file|, chunkBytes)
    || |m.bytes| != ChunkLength(|file|, chunkBytes, m.k)
    || (&& m.crc == Some(Checksum(Chunk(file, chunkBytes, m.k)))
        && exists from: nat, to: nat :: HurtBetween(Chunk(file, chunkBytes, m.k), m.bytes, from, to))
  }

  ghost predicate HurtBetween(a: Bytes, b: Bytes, from: nat, to: nat) {
    && |a| == |b| && a != b
    && from <= to <= |a| && to - from <= 4
    && a[..from] == b[..from] && a[to..] == b[to..]
  }

  /** The written part of the buffer is the file, the rest is still zero. */
  ghost predicate Matches(rx: Rx, file: Bytes) {
    WellFormed(rx) && !rx.aborted && rx.size == |file| && Shows(rx.buffer, file, rx.chunkBytes, rx.have)
  }

  predicate Has(have: seq<bool>, k: nat) {
    k < |have| && have[k]
  }

  ghost predicate Shows(buffer: Bytes, file: Bytes, chunkBytes: nat, have: seq<bool>)
    requires chunkBytes > 0 && |buffer| == |file|
  {
    forall j :: 0 <= j < |file| ==> buffer[j] == if Has(have, j / chunkBytes) then file[j] else 0
  }

  /** Damage is refused wherever it lands in a run, and changes nothing. */
  lemma DamageRefused(rx: Rx, file: Bytes, m: Message)
    requires WellFormed(rx) && !rx.aborted && rx.size == |file|
    requires rx.total == ChunkCount(|file|, rx.chunkBytes)
    requires Damaged(file, rx.chunkBytes, m)
    ensures Judge(rx, m) in {OutsidePlan, WrongLength, BadChecksum}
    ensures AfterAccept(rx, m) == rx
  {
    if 0 <= m.k < rx.total && |m.bytes| == ChunkLength(|file|, rx.chunkBytes, m.k) {
      var original := Chunk(file, rx.chunkBytes, m.k);
      var from: nat, to: nat :| HurtBetween(original, m.bytes, from, to);
      BurstDetected(original, m.bytes, from, to);
    }
  }

  /** Writing chunk `k` fills exactly its own bytes. */
  lemma WriteChunk(buffer: Bytes, file: Bytes, chunkBytes: nat, total: nat, have: seq<bool>, k: nat)
    requires chunkBytes > 0 && |buffer| == |file| && |have| == total
    requires k < total && k * chunkBytes + ChunkLength(|file|, chunkBytes, k) <= |file|
    requires Shows(buffer, file, chunkBytes, have)
    ensures Shows(Overwrite(buffer, k * chunkBytes, Chunk(file, chunkBytes, k)), file, chunkBytes, have[k := true])
  {
    var offset := k * chunkBytes;
    var after := Overwrite(buffer, offset, Chunk(file, chunkBytes, k));
    forall j | 0 <= j < |file|
      ensures after[j] == if Has(have[k := true], j / chunkBytes) then file[j] else 0
    {
      HomeChunk(j, chunkBytes, k);
    }
  }

  lemma GenuineStep(rx: Rx, file: Bytes, m: Message)
    requires Matches(rx, file) && rx.total == ChunkCount(|file|, rx.chunkBytes)
    requires Genuine(file, rx.chunkBytes, m)
    ensures Judge(rx, m) == if rx.have[m.k] then Duplicate else Stored
    ensures Matches(AfterAccept(rx, m), file)
    ensures AfterAccept(rx, m).have == rx.have[m.k := true]
  {
    hide Shows, Overwrite, Covered, CountTrue, ChunkCount;
    InPlan(|file|, rx.chunkBytes, m.k);
    if !rx.have[m.k] {
      WriteChunk(rx.buffer, file, rx.chunkBytes, rx.total, rx.have, m.k);
    } else {
      assert rx.have[m.k := true] == rx.have;
    }
  }

  /** Chunk `k` reached the reassembler undamaged at least once. */
  ghost predicate Arrived(file: Bytes, chunkBytes: nat, messages: seq<Message>, k: nat)
    requires chunkBytes > 0
  {
    exists i :: 0 <= i < |messages| && Genuine(file, chunkBytes, messages[i]) && messages[i].k == k
  }

  lemma ArrivedFirstOrLater(file: Bytes, chunkBytes: nat, messages: seq<Message>, k: nat)
    requires chunkBytes > 0 && messages != []
    ensures Arrived(file, chunkBytes, messages, k)
      <==> (Genuine(file, chunkBytes, messages[0]) && messages[0].k == k) || Arrived(file, chunkBytes, messages[1..], k)
  {
    hide Genuine;
    var rest := messages[1..];
    assert forall i :: 0 <= i < |rest| ==> rest[i] == messages[i + 1];
    if Arrived(file, chunkBytes, messages, k) {
      var i :| 0 <= i < |messages| && Genuine(file, chunkBytes, messages[i]) && messages[i].k == k;
      if i > 0 {
        assert rest[i - 1] == messages[i];
      }
    }
    if Arrived(file, chunkBytes, rest, k) {
      var i :| 0 <= i < |rest| && Genuine(file, chunkBytes, rest[i]) && rest[i].k == k;
      assert messages[i + 1] == rest[i];
    }
  }

  /** Any order, any duplicates, any detectable damage in between. */
  lemma {:induction false} RunMatches(rx: Rx, file: Bytes, messages: seq<Message>)
    requires Matches(rx, file) && rx.total == ChunkCount(|file|, rx.chunkBytes)
    requires forall m :: m in messages ==> Genuine(file, rx.chunkBytes, m) || Damaged(file, rx.chunkBytes, m)
    ensures var after := AcceptAll(rx, messages);
            && Matches(after, file)
            && after.total == rx.total && after.chunkBytes == rx.chunkBytes && after.digest == rx.digest
            && forall k :: 0 <= k < rx.total ==>
                 (after.have[k] <==> rx.have[k] || Arrived(file, rx.chunkBytes, messages, k))
    decreases |messages|
  {
    hide Genuine, Damaged, Shows, Judge, ChunkCount, Arrived;
    if messages == [] {
      NothingArrived(file, rx.chunkBytes);
    } else {
      var m := messages[0];
      assert m in messages;
      if Genuine(file, rx.chunkBytes, m) {
        GenuineStep(rx, file, m);
        GenuineInPlan(file, rx.chunkBytes, m);
      } else {
        DamageRefused(rx, file, m);
      }
      RunMatches(AfterAccept(rx, m), file, messages[1..]);
      forall k | 0 <= k < rx.total
        ensures AcceptAll(rx, messages).have[k] <==> rx.have[k] || Arrived(file, rx.chunkBytes, messages, k)
      {
        ArrivedFirstOrLater(file, rx.chunkBytes, messages, k);
      }
    }
  }

  lemma GenuineInPlan(file: Bytes, chunkBytes: nat, m: Message)
    requires chunkBytes > 0 && Genuine(file, chunkBytes, m)
    ensures 0 <= m.k < ChunkCount(|file|, chunkBytes)
  {
  }

  lemma NothingArrived(file: Bytes, chunkBytes: nat)
    requires chunkBytes > 0
    ensures forall k :: !Arrived(file, chunkBytes, [], k)
  {
  }

  lemma FreshMatches(file: Bytes, chunkBytes: nat, total: nat, digest: Option<Digest>)
    requires chunkBytes > 0
    ensures Matches(Fresh(|file|, chunkBytes, total, digest), file)
  {
  }

  /** Every byte's chunk recorded: the buffer is the file. */
  lemma ShowsAll(buffer: Bytes, file: Bytes, chunkBytes: nat, have: seq<bool>)
    requires chunkBytes > 0 && |buffer| == |file|
    requires Shows(buffer, file, chunkBytes, have)
    requires |file| <= |have| * chunkBytes && NoneMissing(|file|, chunkBytes, have)
    ensures buffer == file
  {
    forall j | 0 <= j < |file|
      ensures buffer[j] == file[j]
    {
      var k := j / chunkBytes;
      HomeChunk(j, chunkBytes, k);
      if k >= |have| && k > |have| {
        Multiples(|have|, k, chunkBytes);
      }
      assert ChunkLength(|file|, chunkBytes, k) > 0;
    }
  }

  lemma PlanReaches(size: nat, chunkBytes: nat)
    requires chunkBytes > 0
    ensures size <= ChunkCount(size, chunkBytes) * chunkBytes
  {
    if size > 0 {
      CountBounds(size, chunkBytes);
    }
  }

  lemma CompleteIsWhole(rx: Rx, file: Bytes)
    requires Matches(rx, file) && rx.total == ChunkCount(|file|, rx.chunkBytes)
    ensures rx.Complete() <==> forall k :: 0 <= k < rx.total ==> rx.have[k]
    ensures rx.Complete() ==> rx.buffer == file && rx.bytesReceived == rx.size
  {
    hide Shows, ChunkCount, ChunkLength;
    CountAll(rx.have);
    if rx.Complete() {
      PlanReaches(|file|, rx.chunkBytes);
      CoveredFull(rx.size, rx.chunkBytes, rx.have);
      ShowsAll(rx.buffer, file, rx.chunkBytes, rx.have);
    }
  }

  /**
   The whole point of the module. Start empty and accept any list of chunks of the
   file, in any order, repeated or damaged on the way. The reassembler is complete
   exactly when every chunk arrived whole at least once; then finish() returns the
   file itself, and until then it returns nothing.
   */
  lemma ReassemblyCorrect(file: Bytes, chunkBytes: nat, messages: seq<Message>)
    requires chunkBytes > 0
    requires forall m :: m in messages ==> Genuine(file, chunkBytes, m) || Damaged(file, chunkBytes, m)
    ensures
      var total := ChunkCount(|file|, chunkBytes);
      var after := AcceptAll(Fresh(|file|, chunkBytes, total, Some(Digest(file))), messages);
      var allArrived := forall k :: 0 <= k < total ==> Arrived(file, chunkBytes, messages, k);
      && Matches(after, file) && after.total == total
      && (forall k :: 0 <= k < total ==> (after.have[k] <==> Arrived(file, chunkBytes, messages, k)))
      && (after.Complete() <==> allArrived)
      && FinishResult(after) == if allArrived then Whole(file) else Incomplete
  {
    hide Genuine, Damaged, Shows, ChunkCount, Arrived, Covered, CountTrue, AcceptAll, FinishResult, Zeros, NoneYet;
    var total := ChunkCount(|file|, chunkBytes);
    var rx := Fresh(|file|, chunkBytes, total, Some(Digest(file)));
    FreshMatches(file, chunkBytes, total, Some(Digest(file)));
    RunMatches(rx, file, messages);
    CompleteIsWhole(AcceptAll(rx, messages), file);
    FinishOfMatching(AcceptAll(rx, messages), file);
  }

  lemma FinishOfMatching(rx: Rx, file: Bytes)
    requires Matches(rx, file) && rx.total == ChunkCount(|file|, rx.chunkBytes)
    requires rx.digest == Some(Digest(file))
    ensures FinishResult(rx) == if rx.Complete() then Whole(file) else Incomplete
  {
    CompleteIsWhole(rx, file);
  }

  /**
   finish() is safe even against a sender whose declared chunk count does not fit its
   declared size and who sends no digest: whatever it returns is the whole file.
   */
  lemma FinishIsTheFile(rx: Rx, file: Bytes)
    requires Matches(rx, file) && FinishResult(rx).Whole?
    ensures FinishResult(rx).bytes == file
  {
    hide Shows, ChunkLength;
    CoveredFull(rx.size, rx.chunkBytes, rx.have);
    ShowsAll(rx.buffer, file, rx.chunkBytes, rx.have);
  }

  /** And with a digest it needs no assumption about what was sent: the digest decides. */
  lemma DigestDecides(rx: Rx, file: Bytes)
    requires rx.digest == Some(Digest(file)) && FinishResult(rx).Whole?
    ensures FinishResult(rx).bytes == file
  {
  }

  // ------------------------------------------------------------------
  // The class.
  // ------------------------------------------------------------------

  class Reassembler {
    const size: nat
    const chunkBytes: nat
    const total: nat
    const digest: Option<Digest>
    const crc: Checksummer

    var buffer: array<Byte>
    var have: array<bool>
    var received: nat
    var bytesReceived: nat
    var aborted: bool

    ghost function View(): Rx
      reads this, buffer, have
    {
      Rx(size, chunkBytes, total, digest, buffer[..], have[..], received, bytesReceived, aborted)
    }

    ghost predicate Valid()
      reads this, buffer, have, crc, crc.table
    {
      WellFormed(View()) && crc.Valid() && (crc.table as object?) != buffer && (crc.table as object?) != have
    }

    constructor (size: nat, chunkBytes: nat, total: nat, digest: Option<Digest>, crc: Checksummer)
      requires chunkBytes > 0 && crc.Valid()
      ensures Valid() && fresh(buffer) && fresh(have)
      ensures this.crc == crc
      ensures View() == Fresh(size, chunkBytes, total, digest)
    {
      this.size, this.chunkBytes, this.total, this.digest := size, chunkBytes, total, digest;
      this.crc := crc;
      var zeros: array<Byte> := new Byte[size](_ => 0);
      var none := new bool[total](_ => false);
      buffer, have := zeros, none;
      received, bytesReceived, aborted := 0, 0, false;
      new;
      ghost var start := Fresh(size, chunkBytes, total, digest);
      assert buffer[..] == Zeros(size);
      assert have[..] == NoneYet(total);
    }

    /** Take one chunk. Every outcome but `Stored` leaves the transfer as it was. */
    method Accept(m: Message) returns (outcome: Outcome)
      requires Valid()
      modifies this, buffer, have, crc
      ensures Valid() && buffer == old(buffer) && have == old(have)
      ensures outcome == Judge(old(View()), m)
      ensures View() == AfterAccept(old(View()), m)
    {
      hide Covered, CountTrue, Overwrite, ChunkLength;
      if aborted {
        return Ignored;
      }
      if m.k < 0 || m.k >= total {
        return OutsidePlan;
      }
      var expected := ChunkLength(size, chunkBytes, m.k);
      if |m.bytes| != expected {
        return WrongLength;
      }
      if m.crc.Some? {
        var sum := crc.Crc32(m.bytes);
        if sum != m.crc.value {
          return BadChecksum;
        }
      }
      if have[m.k] {
        return Duplicate;
      }
      var offset := m.k * chunkBytes;
      if offset + |m.bytes| > buffer.Length {
        return OutOfBounds;
      }
      Store(m);
      return Stored;
    }

    method Store(m: Message)
      requires Valid() && Judge(View(), m) == Stored
      modifies this, buffer, have
      ensures Valid() && buffer == old(buffer) && have == old(have)
      ensures View() == AfterAccept(old(View()), m)
    {
      hide Covered, CountTrue, Overwrite, ChunkLength;
      ghost var before := View();
      Write(buffer, m.k * chunkBytes, m.bytes);
      have[m.k] := true;
      assert have[..] == before.have[m.k := true];
      received := received + 1;
      bytesReceived := bytesReceived + |m.bytes|;
      assert View() == AfterAccept(before, m);
    }

    static method Write(buffer: array<Byte>, offset: nat, bytes: Bytes)
      requires offset + |bytes| <= buffer.Length
      modifies buffer
      ensures buffer[..] == Overwrite(old(buffer[..]), offset, bytes)
    {
      forall i | 0 <= i < |bytes| {
        buffer[offset + i] := bytes[i];
      }
    }

    /** The chunk numbers still wanted, ascending, and no others; after an abort, all of them. */
    method Missing() returns (gaps: seq<nat>)
      requires Valid()
      ensures forall k :: k in gaps <==> 0 <= k < total && !(k < |View().have| && View().have[k])
      ensures forall i, j :: 0 <= i < j < |gaps| ==> gaps[i] < gaps[j]
    {
      gaps := [];
      for k := 0 to total
        invariant forall g :: g in gaps <==> 0 <= g < k && !(g < have.Length && have[g])
        invariant forall i :: 0 <= i < |gaps| ==> gaps[i] < k
        invariant forall i, j :: 0 <= i < j < |gaps| ==> gaps[i] < gaps[j]
      {
        if k >= have.Length || !have[k] {
          gaps := gaps + [k];
        }
      }
    }

    method Finish() returns (result: Finished)
      requires Valid()
      ensures result == FinishResult(View())
    {
      if aborted {
        return Cancelled;
      }
      if received < total {
        return Incomplete;
      }
      if bytesReceived != size {
        return SizeMismatch;
      }
      if digest.Some? && digest.value != Digest(buffer[..]) {
        return DigestMismatch;
      }
      return Whole(buffer[..]);
    }

    method Abort()
      requires Valid()
      modifies this
      ensures Valid() && fresh(buffer) && fresh(have)
      ensures View() == AfterAbort(old(View()))
    {
      aborted := true;
      buffer := new Byte[0];
      have := new bool[0];
    }
  }
}
