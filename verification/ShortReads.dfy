/** Which read sizes the index-times-chunk-size rule rebuilds a file from. */
module ShortReads {
  import opened Wrappers
  import opened Protocol
  import opened FileSend
  import opened FileNames
  import opened FileReceive
  import opened Fingerprint
  import opened Reassembly
  import Base64

  /** The sender's frames, handed to a receiver in the order they were read. */
  function InOrder(h: Header, content: seq<Byte>, sizes: seq<nat>, suffixes: seq<Uuid>): seq<Arrival>
    requires |suffixes| == |sizes| && Consumed(sizes, |sizes|) == |content|
  {
    seq(|sizes|, i requires 0 <= i < |sizes| => Arrival(Frames(h, content, sizes, |sizes|)[i], suffixes[i]))
  }

  /** Arrival `k` makes the receiver return a file that holds exactly these bytes. */
  ghost predicate ReturnsAt(sha: Digest, st: ReceiverState, arrivals: seq<Arrival>, k: nat, content: seq<Byte>)
    requires Valid(st) && k < |arrivals|
  {
    var (after, r) := Receive(sha, Run(sha, st, arrivals[..k]), arrivals[k].chunk, arrivals[k].suffix);
    r.Ok? && r.value.Some? && r.value.value in after.files && after.files[r.value.value] == content
  }

  ghost predicate Returned(sha: Digest, st: ReceiverState, arrivals: seq<Arrival>, content: seq<Byte>)
    requires Valid(st)
  {
    exists k :: 0 <= k < |arrivals| && ReturnsAt(sha, st, arrivals, k, content)
  }

  /** What the source takes for granted of a file it sends. */
  ghost predicate Sendable(sha: Digest, name: string, size: nat) {
    && |name| > 0 && '\0' !in name && 0 < size && TotalChunks(size) <= U32_MAX
    && forall content: seq<Byte> :: |sha(content)| > 0
  }

  function HeaderOf(sha: Digest, id: Uuid, name: string, contentType: string, content: seq<Byte>): Header
    requires 0 < |content| && TotalChunks(|content|) <= U32_MAX
  {
    Announce(sha, id, Some(name), contentType, content).value
  }

  // Full reads.

  lemma {:induction false} OwnRun(sha: Digest, st: ReceiverState, h: Header, content: seq<Byte>, arrivals: seq<Arrival>)
    requires Valid(st) && Announced(sha, h, content) && h.fileId !in st.transfers
    requires forall a :: a in arrivals ==> ChunkOf(a.chunk, h, content)
    ensures Matches(Run(sha, st, arrivals), h, content, Seen(arrivals, h))
  {
    hide Receive, Matches, ChunkOf, Announced, Announce, Note;
    if |arrivals| == 0 {
      NothingSeen(sha, st, h, content);
    } else {
      var n := |arrivals| - 1;
      var last := arrivals[n];
      OwnRun(sha, st, h, content, arrivals[..n]);
      assert last in arrivals;
      OwnChunk(sha, Run(sha, st, arrivals[..n]), h, content, Seen(arrivals[..n], h), last.chunk, last.suffix);
    }
  }

  lemma {:induction false} SeenInOrder(arrivals: seq<Arrival>, h: Header, k: nat)
    requires k < h.totalChunks && k <= |arrivals|
    requires forall i :: 0 <= i < k ==> arrivals[i].chunk.fileId == h.fileId && arrivals[i].chunk.chunkIndex == i
    ensures Seen(arrivals[..k], h) == AllIndices(k)
  {
    if k > 0 {
      SeenInOrder(arrivals, h, k - 1);
      assert arrivals[..k][..k - 1] == arrivals[..k - 1] && arrivals[..k][k - 1] == arrivals[k - 1];
      assert k in AllIndices(h.totalChunks) && k !in AllIndices(k);
      assert AllIndices(k - 1) + {k - 1} == AllIndices(k);
    }
  }

  lemma FullReadsRebuild(sha: Digest, st: ReceiverState, id: Uuid, name: string, contentType: string,
                         content: seq<Byte>, sizes: seq<nat>, suffixes: seq<Uuid>)
    requires Valid(st) && id !in st.transfers && Sendable(sha, name, |content|)
    requires LegalReads(sizes, |content|) && FullReads(sizes) && |suffixes| == |sizes|
    ensures Returned(sha, st, InOrder(HeaderOf(sha, id, name, contentType, content), content, sizes, suffixes), content)
  {
    hide Receive, Run, ChunkOf, Frames, Base64.Encode, Base64.Decode;
    var h := HeaderOf(sha, id, name, contentType, content);
    var arrivals := InOrder(h, content, sizes, suffixes);
    AnnouncedShape(sha, h, content);
    forall i: nat | i < |sizes| ensures ChunkOf(arrivals[i].chunk, h, content) && arrivals[i].chunk.chunkIndex == i {
      SenderEmitsChunks(sha, h, content, sizes, i);
    }
    ReadCount(sizes, |content|);
    var k: nat := h.totalChunks - 1;
    LastArrival(sha, st, h, content, arrivals, k);
  }

  lemma LastArrival(sha: Digest, st: ReceiverState, h: Header, content: seq<Byte>, arrivals: seq<Arrival>, k: nat)
    requires Valid(st) && Announced(sha, h, content) && h.fileId !in st.transfers
    requires k == h.totalChunks - 1 && k < |arrivals|
    requires forall i: nat :: i < |arrivals| ==> ChunkOf(arrivals[i].chunk, h, content) && arrivals[i].chunk.chunkIndex == i
    ensures ReturnsAt(sha, st, arrivals, k, content)
  {
    forall i | 0 <= i < k ensures arrivals[i].chunk.fileId == h.fileId {
      ChunkDecodes(sha, h, content, arrivals[i].chunk);
    }
    hide Receive, Run, ChunkOf, Announced, Matches, Seen;
    OwnRun(sha, st, h, content, arrivals[..k]);
    SeenInOrder(arrivals, h, k);
    assert AllIndices(k) + {arrivals[k].chunk.chunkIndex as nat} == AllIndices(h.totalChunks);
    OwnChunk(sha, Run(sha, st, arrivals[..k]), h, content, AllIndices(k), arrivals[k].chunk, arrivals[k].suffix);
  }

  // Short reads.

  /** A write that leaves a zero at `q` alone. */
  ghost predicate Misses(offset: nat, bytes: seq<Byte>, q: nat) {
    offset + |bytes| <= q || q < offset || forall b :: b in bytes ==> b == 0
  }

  lemma WriteMisses(file: seq<Byte>, offset: nat, bytes: seq<Byte>, q: nat)
    requires q < |file| && file[q] == 0 && Misses(offset, bytes, q)
    ensures q < |WriteAt(file, offset, bytes)| && WriteAt(file, offset, bytes)[q] == 0
  {
    var out := WriteAt(file, offset, bytes);
    if offset <= q < offset + |bytes| {
      assert out[q] == bytes[q - offset] && bytes[q - offset] in bytes;
    } else {
      assert out[q] == file[q];
    }
  }

  ghost predicate ZeroAt(files: Files, name: string, q: nat) {
    name in files && q < |files[name]| && files[name][q] == 0
  }

  /** The partial file of this transfer, if there is one, has a zero at `q`. */
  ghost predicate GapAt(st: ReceiverState, id: Uuid, q: nat) {
    id in st.transfers ==> ZeroAt(st.files, PartialName(id), q)
  }

  lemma GapStays(sha: Digest, st: ReceiverState, chunk: FileChunkFrame, suffix: Uuid, bytes: seq<Byte>, q: nat)
    requires Valid(st) && GapAt(st, chunk.fileId, q) && q < chunk.fileSize
    requires Base64.Decode(chunk.payloadB64) == Some(bytes)
    requires Misses(chunk.chunkIndex * FILE_CHUNK_BYTES, bytes, q)
    ensures var (after, r) := Receive(sha, st, chunk, suffix);
            GapAt(after, chunk.fileId, q) && (r.Ok? && r.value.Some? ==> ZeroAt(after.files, r.value.value, q))
  {
    hide Base64.Decode, WriteAt, UniqueName, SanitizeFilename, FingerprintHex, PartialName, Misses, AllReceived;
    if chunk.Validates() {
      OpenKeepsShape(st, chunk);
      WriteMisses(Open(st, chunk).files[PartialName(chunk.fileId)], chunk.chunkIndex * FILE_CHUNK_BYTES, bytes, q);
    }
  }

  /** One of the sender's frames, relayed by anyone. */
  ghost predicate SentBy(chunk: FileChunkFrame, h: Header, content: seq<Byte>, sizes: seq<nat>)
    requires Consumed(sizes, |sizes|) == |content|
  {
    exists j :: 0 <= j < |sizes| && chunk.(from := None) == Frames(h, content, sizes, |sizes|)[j]
  }

  /** The sender's frames, as often and in whatever order. */
  ghost predicate Schedule(arrivals: seq<Arrival>, h: Header, content: seq<Byte>, sizes: seq<nat>)
    requires Consumed(sizes, |sizes|) == |content|
  {
    forall k :: 0 <= k < |arrivals| ==> SentBy(arrivals[k].chunk, h, content, sizes)
  }

  function OneAt(size: nat, q: nat): (content: seq<Byte>)
    ensures |content| == size
  {
    seq(size, p => if p == q then 1 else 0)
  }

  /** Each frame misses the first byte after a short read. */
  lemma FrameMisses(sizes: seq<nat>, size: nat, i: nat, j: nat)
    requires LegalReads(sizes, size) && TotalChunks(size) <= U32_MAX
    requires i + 1 < |sizes| && sizes[i] < FILE_CHUNK_BYTES && FullReads(sizes[..i + 1])
    requires j < |sizes|
    ensures Consumed(sizes, j) <= Consumed(sizes, j + 1) <= size && Consumed(sizes, i + 1) < size
    ensures var q := Consumed(sizes, i + 1);
            Misses(j % 0x1_0000_0000 * FILE_CHUNK_BYTES, OneAt(size, q)[Consumed(sizes, j)..Consumed(sizes, j + 1)], q)
  {
    ConsumedMonotone(sizes, j + 1, |sizes|);
    ConsumedMonotone(sizes, i + 2, |sizes|);
    ShortPrefix(sizes, i, i);
    IndexFits(size, i);
    var start, end := Consumed(sizes, j), Consumed(sizes, j + 1);
    var q := Consumed(sizes, i + 1);
    if j <= i {
      ShortPrefix(sizes, i, j);
      EarlierMisses(i, j, sizes[i], OneAt(size, q)[start..end], q);
    } else if j == i + 1 {
      NextMisses(i, sizes[i], OneAt(size, q)[start..end], q);
    } else {
      ConsumedMonotone(sizes, i + 2, j);
      ZerosAfter(size, q, start, end);
    }
  }

  lemma EarlierMisses(i: nat, j: nat, short: nat, bytes: seq<Byte>, q: nat)
    requires j <= i && i < 0x1_0000_0000 && short < FILE_CHUNK_BYTES && q == i * FILE_CHUNK_BYTES + short
    requires if j == i then |bytes| == short else |bytes| <= FILE_CHUNK_BYTES
    ensures Misses(j % 0x1_0000_0000 * FILE_CHUNK_BYTES, bytes, q)
  {
    assert j % 0x1_0000_0000 == j;
    assert j < i ==> (j + 1) * FILE_CHUNK_BYTES <= i * FILE_CHUNK_BYTES;
  }

  lemma NextMisses(i: nat, short: nat, bytes: seq<Byte>, q: nat)
    requires i + 1 < 0x1_0000_0000 && short < FILE_CHUNK_BYTES && q == i * FILE_CHUNK_BYTES + short
    ensures Misses((i + 1) % 0x1_0000_0000 * FILE_CHUNK_BYTES, bytes, q)
  {
    assert (i + 1) % 0x1_0000_0000 == i + 1;
  }

  lemma IndexFits(size: nat, i: nat)
    requires TotalChunks(size) <= U32_MAX && i * FILE_CHUNK_BYTES < size
    ensures i + 1 < 0x1_0000_0000
  {}

  lemma ZerosAfter(size: nat, q: nat, start: nat, end: nat)
    requires q < start <= end <= size
    ensures forall b :: b in OneAt(size, q)[start..end] ==> b == 0
  {
    var bytes := OneAt(size, q)[start..end];
    forall b | b in bytes ensures b == 0 {
      var p :| 0 <= p < |bytes| && bytes[p] == b;
      assert OneAt(size, q)[start + p] == b;
    }
  }

  lemma {:induction false} ShortPrefix(sizes: seq<nat>, i: nat, j: nat)
    requires i < |sizes| && FullReads(sizes[..i + 1]) && j <= i
    ensures Consumed(sizes, j) == j * FILE_CHUNK_BYTES
  {
    if j > 0 {
      ShortPrefix(sizes, i, j - 1);
      assert sizes[..i + 1][j - 1] == sizes[j - 1];
    }
  }

  lemma {:induction false} GapRun(sha: Digest, st: ReceiverState, h: Header, sizes: seq<nat>, i: nat, arrivals: seq<Arrival>)
    requires Valid(st) && h.fileId !in st.transfers
    requires LegalReads(sizes, h.fileSize) && TotalChunks(h.fileSize) <= U32_MAX
    requires i + 1 < |sizes| && sizes[i] < FILE_CHUNK_BYTES && FullReads(sizes[..i + 1])
    requires Schedule(arrivals, h, OneAt(h.fileSize, Consumed(sizes, i + 1)), sizes)
    ensures var q := Consumed(sizes, i + 1);
            && GapAt(Run(sha, st, arrivals), h.fileId, q)
            && forall k :: 0 <= k < |arrivals| ==> !ReturnsAt(sha, st, arrivals, k, OneAt(h.fileSize, q))
    decreases |arrivals|
  {
    hide Receive, FrameOf, Valid, Misses, GapAt;
    var q := Consumed(sizes, i + 1);
    if |arrivals| == 0 {
      NoGapYet(st, h.fileId, q);
    } else {
      var n := |arrivals| - 1;
      var before := arrivals[..n];
      assert forall k :: 0 <= k < n ==> before[k] == arrivals[k] && before[..k] == arrivals[..k];
      GapRun(sha, st, h, sizes, i, before);
      forall k | 0 <= k < n ensures !ReturnsAt(sha, st, arrivals, k, OneAt(h.fileSize, q)) {
        assert !ReturnsAt(sha, st, before, k, OneAt(h.fileSize, q));
      }
      ArrivalMisses(sha, Run(sha, st, before), h, sizes, i, arrivals[n]);
    }
  }

  lemma NoGapYet(st: ReceiverState, id: Uuid, q: nat)
    requires id !in st.transfers
    ensures GapAt(st, id, q)
  {}

  lemma ArrivalMisses(sha: Digest, st: ReceiverState, h: Header, sizes: seq<nat>, i: nat, a: Arrival)
    requires Valid(st)
    requires LegalReads(sizes, h.fileSize) && TotalChunks(h.fileSize) <= U32_MAX
    requires i + 1 < |sizes| && sizes[i] < FILE_CHUNK_BYTES && FullReads(sizes[..i + 1])
    requires GapAt(st, h.fileId, Consumed(sizes, i + 1))
    requires SentBy(a.chunk, h, OneAt(h.fileSize, Consumed(sizes, i + 1)), sizes)
    ensures var q := Consumed(sizes, i + 1);
            var (after, r) := Receive(sha, st, a.chunk, a.suffix);
            && GapAt(after, h.fileId, q)
            && (r.Ok? && r.value.Some? && r.value.value in after.files ==>
                  after.files[r.value.value] != OneAt(h.fileSize, q))
  {
    hide Receive, Valid, Misses, GapAt, Base64.Encode, Base64.Decode, LegalReads, FullReads;
    var q := Consumed(sizes, i + 1);
    var content := OneAt(h.fileSize, q);
    assert |content| == Consumed(sizes, |sizes|) by { LegalIsWhole(sizes, h.fileSize); }
    var j :| 0 <= j < |sizes| && a.chunk.(from := None) == Frames(h, content, sizes, |sizes|)[j];
    FramesAt(h, content, sizes, |sizes|, j);
    FrameMisses(sizes, h.fileSize, i, j);
    var bytes := content[Consumed(sizes, j)..Consumed(sizes, j + 1)];
    Base64.RoundTrip(bytes);
    var f := FrameOf(h, j, bytes);
    assert a.chunk == f.(from := a.chunk.from);
    GapStays(sha, st, a.chunk, a.suffix, bytes, q);
  }

  lemma LegalIsWhole(sizes: seq<nat>, size: nat)
    requires LegalReads(sizes, size)
    ensures Consumed(sizes, |sizes|) == size
  {}

  /** A short read before the end loses a byte: some file of this size is never returned, whatever the
      order, repetition and loss of the frames. */
  lemma ShortReadsLose(sha: Digest, st: ReceiverState, id: Uuid, name: string, contentType: string,
                       size: nat, sizes: seq<nat>) returns (content: seq<Byte>)
    requires Valid(st) && id !in st.transfers && Sendable(sha, name, size)
    requires LegalReads(sizes, size) && !FullReads(sizes)
    ensures |content| == size
    ensures forall arrivals :: Schedule(arrivals, HeaderOf(sha, id, name, contentType, content), content, sizes) ==>
      !Returned(sha, st, arrivals, content)
  {
    hide Receive, Run, ReturnsAt, Schedule;
    var i := FirstShort(sizes);
    var q := Consumed(sizes, i + 1);
    content := OneAt(size, q);
    var h := HeaderOf(sha, id, name, contentType, content);
    forall arrivals | Schedule(arrivals, h, content, sizes) ensures !Returned(sha, st, arrivals, content) {
      GapRun(sha, st, h, sizes, i, arrivals);
    }
  }

  lemma FirstShort(sizes: seq<nat>) returns (i: nat)
    requires !FullReads(sizes) && forall k :: 0 <= k < |sizes| ==> 1 <= sizes[k] <= FILE_CHUNK_BYTES
    ensures i + 1 < |sizes| && sizes[i] < FILE_CHUNK_BYTES && FullReads(sizes[..i + 1])
  {
    i := 0;
    while sizes[i] == FILE_CHUNK_BYTES
      invariant i < |sizes| - 1
      invariant forall k :: 0 <= k < i ==> sizes[k] == FILE_CHUNK_BYTES
      decreases |sizes| - i
    {
      i := i + 1;
    }
  }

  /** When a transfer can be trusted with every file of a size: exactly when no read but the last is
      short. Then the frames in order give the file back; otherwise some file of that size does not
      come back from them. */
  lemma RebuildsIffFullReads(sha: Digest, st: ReceiverState, id: Uuid, name: string, contentType: string,
                             size: nat, sizes: seq<nat>, suffixes: seq<Uuid>)
    requires Valid(st) && id !in st.transfers && Sendable(sha, name, size)
    requires LegalReads(sizes, size) && |suffixes| == |sizes|
    ensures FullReads(sizes) <==> forall content: seq<Byte> :: |content| == size ==>
      Returned(sha, st, InOrder(HeaderOf(sha, id, name, contentType, content), content, sizes, suffixes), content)
  {
    hide Returned, FullReads;
    if FullReads(sizes) {
      forall content: seq<Byte> | |content| == size
        ensures Returned(sha, st, InOrder(HeaderOf(sha, id, name, contentType, content), content, sizes, suffixes), content)
      {
        FullReadsRebuild(sha, st, id, name, contentType, content, sizes, suffixes);
      }
    } else {
      var content := ShortReadsLose(sha, st, id, name, contentType, size, sizes);
      var h := HeaderOf(sha, id, name, contentType, content);
      InOrderIsSchedule(h, content, sizes, suffixes);
    }
  }

  lemma InOrderIsSchedule(h: Header, content: seq<Byte>, sizes: seq<nat>, suffixes: seq<Uuid>)
    requires |suffixes| == |sizes| && Consumed(sizes, |sizes|) == |content|
    ensures Schedule(InOrder(h, content, sizes, suffixes), h, content, sizes)
  {
    var arrivals := InOrder(h, content, sizes, suffixes);
    forall k | 0 <= k < |arrivals| ensures SentBy(arrivals[k].chunk, h, content, sizes) {
      FramesAt(h, content, sizes, |sizes|, k);
      assert arrivals[k].chunk.(from := None) == Frames(h, content, sizes, |sizes|)[k];
    }
  }
}
