/** Sender and receiver together: any schedule of a file's chunks rebuilds the file. */
module Reassembly {
  import opened Wrappers
  import opened Protocol
  import opened FileNames
  import opened Fingerprint
  import opened FileSend
  import opened FileReceive
  import Base64

  /** A header that `send_file_through` announced for this content. */
  ghost predicate Announced(sha: Digest, h: Header, content: seq<Byte>) {
    && |h.name| > 0 && '\0' !in h.name && |sha(content)| > 0
    && Announce(sha, h.fileId, Some(h.name), h.contentType, content) == Ok(h)
  }

  /** One of the frames the sender emits under full reads, whoever relayed it. */
  ghost predicate ChunkOf(f: FileChunkFrame, h: Header, content: seq<Byte>) {
    && f.chunkIndex < h.totalChunks
    && f.chunkIndex * FILE_CHUNK_BYTES <= |content|
    && f.(from := None) == FrameOf(h, f.chunkIndex, ChunkBytes(content, f.chunkIndex))
  }

  lemma SenderEmitsChunks(sha: Digest, h: Header, content: seq<Byte>, sizes: seq<nat>, i: nat)
    requires Announced(sha, h, content) && LegalReads(sizes, |content|) && FullReads(sizes)
    requires i < |sizes|
    ensures ChunkOf(Frames(h, content, sizes, |sizes|)[i], h, content)
    ensures |sizes| == h.totalChunks && Frames(h, content, sizes, |sizes|)[i].chunkIndex == i
  {
    hide Announced, ChunkOf, Frames, FrameOf, TotalChunks;
    AnnouncedShape(sha, h, content);
    ReadCount(sizes, |content|);
    FramesAt(h, content, sizes, |sizes|, i);
    FrameIsChunk(h, content, i);
  }

  lemma FrameIsChunk(h: Header, content: seq<Byte>, i: nat)
    requires i < h.totalChunks == TotalChunks(|content|)
    ensures i * FILE_CHUNK_BYTES <= |content|
    ensures var f := FrameOf(h, i, ChunkBytes(content, i));
            f.chunkIndex == i && ChunkOf(f, h, content)
  {
    hide Base64.Encode;
    assert i % 0x1_0000_0000 == i;
  }

  // The reference: a set of indices.

  ghost function AllIndices(total: nat): (all: set<nat>)
    ensures forall i: nat :: i in all <==> i < total
  {
    if total == 0 then {} else AllIndices(total - 1) + {total - 1}
  }

  /** The indices seen since the transfer was last opened. */
  ghost function Note(seen: set<nat>, chunk: FileChunkFrame, h: Header): set<nat> {
    if chunk.fileId != h.fileId then seen
    else if seen + {chunk.chunkIndex as nat} == AllIndices(h.totalChunks) then {}
    else seen + {chunk.chunkIndex as nat}
  }

  ghost function Seen(arrivals: seq<Arrival>, h: Header): set<nat> {
    if |arrivals| == 0 then {}
    else Note(Seen(arrivals[..|arrivals| - 1], h), arrivals[|arrivals| - 1].chunk, h)
  }

  ghost predicate Holds(file: seq<Byte>, content: seq<Byte>, i: nat) {
    && |file| == |content| && i * FILE_CHUNK_BYTES <= |content|
    && ChunkBytes(file, i) == ChunkBytes(content, i)
  }

  /** A transfer and its partial file hold exactly the chunks seen. */
  ghost predicate Records(t: Transfer, file: seq<Byte>, h: Header, content: seq<Byte>, seen: set<nat>) {
    && t.name == SanitizeFilename(h.name)
    && t.totalChunks == h.totalChunks && t.expectedSha256 == h.fileSha256 && t.expectedSize == h.fileSize
    && |t.received| == h.totalChunks && |file| == |content|
    && (forall i: nat :: i < h.totalChunks ==> (t.received[i] <==> i in seen))
    && (forall i: nat :: i in seen ==> Holds(file, content, i))
  }

  /** The receiver's record of one transfer agrees with the reference. */
  ghost predicate Matches(st: ReceiverState, h: Header, content: seq<Byte>, seen: set<nat>) {
    && seen < AllIndices(h.totalChunks)
    && (seen == {} <==> h.fileId !in st.transfers)
    && (seen != {} ==>
          && PartialName(h.fileId) in st.files
          && Records(st.transfers[h.fileId], st.files[PartialName(h.fileId)], h, content, seen))
  }

  // Bytes.

  lemma WriteChunk(file: seq<Byte>, content: seq<Byte>, i: nat, j: nat)
    requires |file| == |content| && i < TotalChunks(|content|) && j < TotalChunks(|content|)
    requires i == j || Holds(file, content, j)
    ensures Holds(WriteAt(file, i * FILE_CHUNK_BYTES, ChunkBytes(content, i)), content, j)
  {
    var n := WriteAt(file, i * FILE_CHUNK_BYTES, ChunkBytes(content, i));
    var start, end := j * FILE_CHUNK_BYTES, ChunkEnd(|content|, j);
    assert |n| == |content|;
    forall k | 0 <= k < end - start ensures ChunkBytes(n, j)[k] == ChunkBytes(content, j)[k] {
      if i != j {
        assert n[start + k] == file[start + k] == ChunkBytes(file, j)[k];
      }
    }
  }

  lemma ChunksDetermine(file: seq<Byte>, content: seq<Byte>)
    requires |file| == |content| && forall i: nat :: i < TotalChunks(|content|) ==> Holds(file, content, i)
    ensures file == content
  {
    forall k | 0 <= k < |content| ensures file[k] == content[k] {
      var i := k / FILE_CHUNK_BYTES;
      assert Holds(file, content, i);
      var r := k - i * FILE_CHUNK_BYTES;
      assert file[k] == ChunkBytes(file, i)[r] && content[k] == ChunkBytes(content, i)[r];
    }
  }

  lemma AnnouncedShape(sha: Digest, h: Header, content: seq<Byte>)
    requires Announced(sha, h, content)
    ensures |content| > 0 && h.totalChunks == TotalChunks(|content|) > 0 && h.fileSize == |content|
    ensures h.fileSha256 == FingerprintHex(sha(content)) && |h.fileSha256| > 0
  {
    FingerprintLength(sha(content));
  }

  lemma ChunkDecodes(sha: Digest, h: Header, content: seq<Byte>, chunk: FileChunkFrame)
    requires Announced(sha, h, content) && ChunkOf(chunk, h, content)
    ensures chunk.Validates() && chunk.fileId == h.fileId
    ensures Base64.Decode(chunk.payloadB64) == Some(ChunkBytes(content, chunk.chunkIndex))
    ensures chunk.name == h.name
    ensures chunk.totalChunks == h.totalChunks && chunk.fileSha256 == h.fileSha256 && chunk.fileSize == h.fileSize
  {
    AnnouncedShape(sha, h, content);
    FrameIsGood(h, content, chunk.chunkIndex);
    assert chunk.payloadB64 == chunk.(from := None).payloadB64;
  }

  // One step.

  /** Opening is where an unseen transfer starts to be recorded. */
  lemma OpenRecords(sha: Digest, st: ReceiverState, h: Header, content: seq<Byte>, seen: set<nat>, chunk: FileChunkFrame)
    requires Valid(st) && Announced(sha, h, content) && ChunkOf(chunk, h, content) && Matches(st, h, content, seen)
    ensures chunk.Validates() && chunk.fileId == h.fileId
    ensures var begun := Open(st, chunk);
            && Valid(begun) && h.fileId in begun.transfers && PartialName(h.fileId) in begun.files
            && Consistent(begun.transfers[h.fileId], chunk)
            && Records(begun.transfers[h.fileId], begun.files[PartialName(h.fileId)], h, content, seen)
  {
    hide SanitizeFilename, Base64.Decode, Base64.Encode, FingerprintHex, ChunkBytes, PartialName, Holds;
    AnnouncedShape(sha, h, content);
    ChunkDecodes(sha, h, content, chunk);
    OpenKeepsShape(st, chunk);
  }

  lemma StoreRecords(st: ReceiverState, h: Header, content: seq<Byte>, seen: set<nat>, chunk: FileChunkFrame)
    requires h.fileId in st.transfers && PartialName(h.fileId) in st.files && chunk.fileId == h.fileId
    requires Records(st.transfers[h.fileId], st.files[PartialName(h.fileId)], h, content, seen)
    requires h.totalChunks == TotalChunks(|content|) && chunk.chunkIndex < h.totalChunks
    requires seen <= AllIndices(h.totalChunks)
    ensures chunk.chunkIndex * FILE_CHUNK_BYTES <= |content|
    ensures var stored := Store(st, chunk, ChunkBytes(content, chunk.chunkIndex));
            && h.fileId in stored.transfers && PartialName(h.fileId) in stored.files
            && Records(stored.transfers[h.fileId], stored.files[PartialName(h.fileId)], h, content,
                       seen + {chunk.chunkIndex as nat})
  {
    hide WriteAt, PartialName;
    var file, index := st.files[PartialName(h.fileId)], chunk.chunkIndex as nat;
    forall i: nat | i in seen + {index}
      ensures Holds(WriteAt(file, index * FILE_CHUNK_BYTES, ChunkBytes(content, index)), content, i)
    {
      assert i in AllIndices(h.totalChunks);
      WriteChunk(file, content, index, i);
    }
    WriteChunk(file, content, index, index);
  }

  /** A chunk of the transfer: it completes exactly when its index was the last one missing, and
      then the returned file holds exactly the sent bytes, under the announced name if that is free. */
  lemma OwnChunk(sha: Digest, st: ReceiverState, h: Header, content: seq<Byte>, seen: set<nat>,
                 chunk: FileChunkFrame, suffix: Uuid)
    requires Valid(st) && Announced(sha, h, content) && ChunkOf(chunk, h, content) && Matches(st, h, content, seen)
    ensures var (st', r) := Receive(sha, st, chunk, suffix);
            && Matches(st', h, content, Note(seen, chunk, h))
            && r.Ok?
            && (r.value.Some? <==> seen + {chunk.chunkIndex as nat} == AllIndices(h.totalChunks))
            && (r.value.Some? ==>
                  && r.value.value in st'.files && st'.files[r.value.value] == content
                  && r.value.value == UniqueName(EntriesFor(st, h.fileId), SanitizeFilename(h.name), suffix))
  {
    hide SanitizeFilename, WriteAt, UniqueName, Base64.Decode, Base64.Encode, FingerprintHex, ChunkBytes, Holds, PartialName;
    AnnouncedShape(sha, h, content);
    ChunkDecodes(sha, h, content, chunk);
    OpenRecords(sha, st, h, content, seen, chunk);
    var index := chunk.chunkIndex as nat;
    var begun := Open(st, chunk);
    if index in seen {
      assert seen + {index} == seen;
    } else {
      StoreRecords(begun, h, content, seen, chunk);
      var stored := Store(begun, chunk, ChunkBytes(content, index));
      var received, file := stored.transfers[h.fileId].received, stored.files[PartialName(h.fileId)];
      AllReceivedIff(received, seen + {index});
      if AllReceived(received) {
        ChunksDetermine(file, content);
        assert stored.files.Keys == EntriesFor(st, h.fileId);
      }
    }
  }

  lemma AllReceivedIff(received: seq<bool>, seen: set<nat>)
    requires seen <= AllIndices(|received|)
    requires forall i: nat :: i < |received| ==> (received[i] <==> i in seen)
    ensures AllReceived(received) <==> seen == AllIndices(|received|)
  {
    if AllReceived(received) {
      assert forall i: nat :: i in AllIndices(|received|) ==> received[i] && i in seen;
    } else {
      var i :| 0 <= i < |received| && !received[i];
      assert i in AllIndices(|received|) && i !in seen;
    }
  }

  /** Any other frame at all leaves the transfer's record as it was. */
  lemma ForeignChunk(sha: Digest, st: ReceiverState, h: Header, content: seq<Byte>, seen: set<nat>,
                     chunk: FileChunkFrame, suffix: Uuid)
    requires Valid(st) && FreshSuffix(st, suffix)
    requires chunk.fileId != h.fileId && Matches(st, h, content, seen)
    ensures Matches(Receive(sha, st, chunk, suffix).0, h, content, seen)
  {
    hide Receive, Holds, PartialName;
    OthersUntouched(sha, st, chunk, suffix);
    var st' := Receive(sha, st, chunk, suffix).0;
    assert h.fileId in st'.transfers <==> h.fileId in st'.transfers - {chunk.fileId};
    assert h.fileId in st.transfers <==> h.fileId in st.transfers - {chunk.fileId};
  }

  // Whole runs.

  /** Every chunk carrying the transfer's id is one its sender emitted; everything else is arbitrary. */
  ghost predicate OnlyOwnChunks(arrivals: seq<Arrival>, h: Header, content: seq<Byte>) {
    forall a :: a in arrivals && a.chunk.fileId == h.fileId ==> ChunkOf(a.chunk, h, content)
  }

  lemma {:induction false} RunMatches(sha: Digest, st: ReceiverState, h: Header, content: seq<Byte>, arrivals: seq<Arrival>)
    requires Valid(st) && Announced(sha, h, content) && h.fileId !in st.transfers
    requires OnlyOwnChunks(arrivals, h, content) && FreshRun(sha, st, arrivals)
    ensures Matches(Run(sha, st, arrivals), h, content, Seen(arrivals, h))
  {
    hide Receive, Matches, ChunkOf, Announced, Announce, Note;
    if |arrivals| == 0 {
      NothingSeen(sha, st, h, content);
    } else {
      var n := |arrivals| - 1;
      var before, last := arrivals[..n], arrivals[n];
      FreshPrefix(sha, st, arrivals, n);
      RunMatches(sha, st, h, content, before);
      assert last in arrivals;
      if last.chunk.fileId == h.fileId {
        OwnChunk(sha, Run(sha, st, before), h, content, Seen(before, h), last.chunk, last.suffix);
      } else {
        ForeignNote(Seen(before, h), last.chunk, h);
        ForeignChunk(sha, Run(sha, st, before), h, content, Seen(before, h), last.chunk, last.suffix);
      }
    }
  }

  lemma NothingSeen(sha: Digest, st: ReceiverState, h: Header, content: seq<Byte>)
    requires Announced(sha, h, content) && h.fileId !in st.transfers
    ensures Matches(st, h, content, {})
  {
    AnnouncedShape(sha, h, content);
    assert 0 in AllIndices(h.totalChunks);
  }

  lemma ForeignNote(seen: set<nat>, chunk: FileChunkFrame, h: Header)
    requires chunk.fileId != h.fileId
    ensures Note(seen, chunk, h) == seen
  {}

  /** Any schedule rebuilds the file. In every run, whatever is reordered, repeated, lost or
      interleaved with other frames, a chunk of the transfer is never rejected; it completes the
      transfer exactly when it is the last index missing since the transfer opened; and the file
      returned then holds exactly the sent bytes, and keeps them as long as no later chunk's id
      gives it its partial name. The file goes by the announced name, made safe and numbered if it
      must be: by exactly that name if it is plain and free. */
  lemma AnySchedule(sha: Digest, st: ReceiverState, h: Header, content: seq<Byte>, arrivals: seq<Arrival>, k: nat)
    requires Valid(st) && Announced(sha, h, content) && h.fileId !in st.transfers
    requires OnlyOwnChunks(arrivals, h, content) && FreshRun(sha, st, arrivals)
    requires k < |arrivals| && arrivals[k].chunk.fileId == h.fileId
    ensures var before := Run(sha, st, arrivals[..k]);
            var (after, r) := Receive(sha, before, arrivals[k].chunk, arrivals[k].suffix);
            && after == Run(sha, st, arrivals[..k + 1])
            && r.Ok?
            && (r.value.Some? <==>
                  Seen(arrivals[..k], h) + {arrivals[k].chunk.chunkIndex as nat} == AllIndices(h.totalChunks))
            && (r.value.Some? ==>
                  && r.value.value in after.files && after.files[r.value.value] == content
                  && NamedFor(r.value.value, h.name, EntriesFor(before, h.fileId), arrivals[k].suffix)
                  && (PlainName(h.name) && h.name !in EntriesFor(before, h.fileId) ==> r.value.value == h.name))
            && (r.value.Some? && (forall a :: a in arrivals[k + 1..] ==> PartialName(a.chunk.fileId) != r.value.value) ==>
                  var last := Run(sha, st, arrivals);
                  r.value.value in last.files && last.files[r.value.value] == content)
  {
    hide Receive, ChunkOf, Announced, Announce, Note, Matches, PartialName, NamedFor, PlainName, UniqueName;
    var prefix := arrivals[..k];
    FreshPrefix(sha, st, arrivals, k);
    RunMatches(sha, st, h, content, prefix);
    assert arrivals[k] in arrivals;
    OwnChunk(sha, Run(sha, st, prefix), h, content, Seen(prefix, h), arrivals[k].chunk, arrivals[k].suffix);
    ChosenName(h.name, EntriesFor(Run(sha, st, prefix), h.fileId), arrivals[k].suffix);
    assert arrivals[..k + 1][..k] == prefix && arrivals[..k + 1][k] == arrivals[k];
    var after := Run(sha, st, arrivals[..k + 1]);
    RunSplit(sha, st, arrivals, k + 1);
    FreshTail(sha, st, arrivals, k + 1);
    var r := Receive(sha, Run(sha, st, prefix), arrivals[k].chunk, arrivals[k].suffix).1;
    if r.value.Some? && forall a :: a in arrivals[k + 1..] ==> PartialName(a.chunk.fileId) != r.value.value {
      SavedFilesKept(sha, after, arrivals[k + 1..], r.value.value);
    }
  }

  /** A run is the run of its tail after the run of its head. */
  lemma {:induction false} RunSplit(sha: Digest, st: ReceiverState, arrivals: seq<Arrival>, n: nat)
    requires Valid(st) && n <= |arrivals|
    ensures Run(sha, st, arrivals) == Run(sha, Run(sha, st, arrivals[..n]), arrivals[n..])
    decreases |arrivals|
  {
    hide Receive, Valid;
    var tail := arrivals[n..];
    if n < |arrivals| {
      var m := |arrivals| - 1;
      RunSplit(sha, st, arrivals[..m], n);
      assert arrivals[..m][..n] == arrivals[..n];
      assert arrivals[..m][n..] == tail[..|tail| - 1];
      assert tail[|tail| - 1] == arrivals[m];
    } else {
      assert arrivals[..n] == arrivals;
    }
  }

  lemma RunTail(sha: Digest, st: ReceiverState, arrivals: seq<Arrival>, n: nat, k: nat)
    requires Valid(st) && n + k <= |arrivals|
    ensures Run(sha, Run(sha, st, arrivals[..n]), arrivals[n..][..k]) == Run(sha, st, arrivals[..n + k])
  {
    hide Run, Valid;
    RunSplit(sha, st, arrivals[..n + k], n);
    assert arrivals[..n + k][..n] == arrivals[..n] && arrivals[..n + k][n..] == arrivals[n..][..k];
  }

  lemma FreshTail(sha: Digest, st: ReceiverState, arrivals: seq<Arrival>, n: nat)
    requires Valid(st) && n <= |arrivals| && FreshRun(sha, st, arrivals)
    ensures FreshRun(sha, Run(sha, st, arrivals[..n]), arrivals[n..])
  {
    hide Run, Valid, FreshSuffix, Receive, PartialName;
    var mid, tail := Run(sha, st, arrivals[..n]), arrivals[n..];
    forall k | 0 <= k < |tail|
      ensures FreshSuffix(Run(sha, mid, tail[..k]), tail[k].suffix)
    {
      RunTail(sha, st, arrivals, n, k);
      assert tail[k] == arrivals[n + k];
      assert FreshSuffix(Run(sha, st, arrivals[..n + k]), arrivals[n + k].suffix);
    }
  }

  /** A short read that is not the last breaks the promise: a two-byte file read one byte at a time
      announces one chunk but sends two; the first fails the final hash, the second is invalid. */
  lemma ShortReadFails(sha: Digest, id: Uuid, suffix: Uuid, a: Byte, b: Byte)
    requires |sha([a, b])| > 0 && sha([a, 0]) != sha([a, b])
    ensures LegalReads([1, 1], 2) && !FullReads([1, 1])
    ensures Announce(sha, id, Some("f"), "", [a, b]).Ok?
    ensures var frames := Frames(Announce(sha, id, Some("f"), "", [a, b]).value, [a, b], [1, 1], 2);
            var empty := ReceiverState(map[], map[]);
            && Receive(sha, empty, frames[0], suffix).1 == Err(HashMismatch)
            && Receive(sha, empty, frames[1], suffix).1 == Err(Invalid)
  {
    hide UniqueName, SanitizeFilename, FingerprintHex, Base64.Encode, Base64.Decode;
    var sizes, content := [1, 1], [a, b];
    assert Consumed(sizes, 0) == 0 && Consumed(sizes, 1) == 1 && Consumed(sizes, 2) == 2;
    var h := Announce(sha, id, Some("f"), "", content).value;
    FramesAt(h, content, sizes, 2, 0);
    FramesAt(h, content, sizes, 2, 1);
    assert content[0..1] == [a];
    LoneByteFails(sha, h, suffix, a, b);
  }

  lemma LoneByteFails(sha: Digest, h: Header, suffix: Uuid, a: Byte, b: Byte)
    requires |sha([a, b])| > 0 && sha([a, 0]) != sha([a, b])
    requires |h.name| > 0 && '\0' !in h.name && h.totalChunks == 1 && h.fileSize == 2
    requires h.fileSha256 == FingerprintHex(sha([a, b]))
    ensures Receive(sha, ReceiverState(map[], map[]), FrameOf(h, 0, [a]), suffix).1 == Err(HashMismatch)
  {
    hide UniqueName, SanitizeFilename, FingerprintHex, Base64.Encode, Base64.Decode;
    var empty, first := ReceiverState(map[], map[]), FrameOf(h, 0, [a]);
    Base64.RoundTrip([a]);
    Base64.EncodedLength([a]);
    FingerprintLength(sha([a, b]));
    assert first.Validates();
    var stored := Store(Open(empty, first), first, [a]);
    assert stored.files[PartialName(h.fileId)] == [a, 0];
    if FingerprintHex(sha([a, 0])) == FingerprintHex(sha([a, b])) {
      FingerprintInjective(sha([a, 0]), sha([a, b]));
    }
  }
}
