/** A file from one client to another through the server: sender's chunks, publish log, file channel,
    socket, receiver. */
module FileRelay {
  import opened Wrappers
  import opened Protocol
  import opened FileSend
  import opened FileNames
  import opened FileReceive
  import opened Reassembly
  import opened Hub
  import opened Server
  import opened ServerStream

  ghost predicate IsOwn(a: Arrival, h: Header, i: nat) {
    a.chunk.fileId == h.fileId && a.chunk.chunkIndex == i
  }

  ghost predicate Brings(arrivals: seq<Arrival>, h: Header, i: nat) {
    exists k :: 0 <= k < |arrivals| && IsOwn(arrivals[k], h, i)
  }

  /** Arrival `k` completes the transfer, and the file it returns holds exactly the sent bytes, under
      the announced name as far as the directory allows. */
  ghost predicate CompletesAt(sha: Digest, st: ReceiverState, h: Header, content: seq<Byte>, arrivals: seq<Arrival>, k: nat)
    requires Valid(st) && k < |arrivals|
  {
    var before := Run(sha, st, arrivals[..k]);
    var (after, r) := Receive(sha, before, arrivals[k].chunk, arrivals[k].suffix);
    && r.Ok? && r.value.Some? && r.value.value in after.files && after.files[r.value.value] == content
    && NamedFor(r.value.value, h.name, EntriesFor(before, h.fileId), arrivals[k].suffix)
    && (PlainName(h.name) && h.name !in EntriesFor(before, h.fileId) ==> r.value.value == h.name)
  }

  ghost predicate LastMissing(arrivals: seq<Arrival>, h: Header, k: nat)
    requires k < |arrivals|
  {
    && arrivals[k].chunk.fileId == h.fileId
    && Seen(arrivals[..k], h) + {arrivals[k].chunk.chunkIndex as nat} == AllIndices(h.totalChunks)
  }

  /** Either some arrival was the last one missing, or every index that came is still on record. */
  lemma {:induction false} SeenOrComplete(arrivals: seq<Arrival>, h: Header)
    ensures (exists k :: 0 <= k < |arrivals| && LastMissing(arrivals, h, k))
            || forall k :: 0 <= k < |arrivals| && arrivals[k].chunk.fileId == h.fileId ==>
                 arrivals[k].chunk.chunkIndex as nat in Seen(arrivals, h)
  {
    hide AllIndices;
    if |arrivals| > 0 {
      var n := |arrivals| - 1;
      var before := arrivals[..n];
      SeenOrComplete(before, h);
      assert forall k :: 0 <= k < n ==> before[k] == arrivals[k] && before[..k] == arrivals[..k];
      if k :| 0 <= k < n && LastMissing(before, h, k) {
        assert LastMissing(arrivals, h, k);
      } else if !LastMissing(arrivals, h, n) {
        assert Seen(arrivals, h) == Note(Seen(before, h), arrivals[n].chunk, h);
      }
    }
  }

  /** A receiver that gets every chunk of a transfer, in whatever order and among whatever else,
      completes it. */
  lemma AllChunksComplete(sha: Digest, st: ReceiverState, h: Header, content: seq<Byte>, arrivals: seq<Arrival>)
    requires Valid(st) && Announced(sha, h, content) && h.fileId !in st.transfers
    requires OnlyOwnChunks(arrivals, h, content) && FreshRun(sha, st, arrivals)
    requires forall i: nat :: i < h.totalChunks ==> Brings(arrivals, h, i)
    ensures exists k :: 0 <= k < |arrivals| && CompletesAt(sha, st, h, content, arrivals, k)
  {
    hide Run, Receive, Announced, OnlyOwnChunks, FreshRun, AllIndices, Records, Seen, Valid, NamedFor, PlainName;
    SeenOrComplete(arrivals, h);
    if k :| 0 <= k < |arrivals| && LastMissing(arrivals, h, k) {
      AnySchedule(sha, st, h, content, arrivals, k);
      assert CompletesAt(sha, st, h, content, arrivals, k);
    } else {
      RunMatches(sha, st, h, content, arrivals);
      NotAllSeen(arrivals, h);
    }
  }

  lemma NotAllSeen(arrivals: seq<Arrival>, h: Header)
    requires forall i: nat :: i < h.totalChunks ==> Brings(arrivals, h, i)
    requires Seen(arrivals, h) < AllIndices(h.totalChunks)
    ensures exists k :: 0 <= k < |arrivals| && arrivals[k].chunk.fileId == h.fileId
                        && arrivals[k].chunk.chunkIndex as nat !in Seen(arrivals, h)
  {
    hide Seen;
    var i: nat :| i in AllIndices(h.totalChunks) && i !in Seen(arrivals, h);
    assert Brings(arrivals, h, i);
  }

  // The chunks a client's socket carries.

  lemma {:induction false} ChunkIsIn(frames: seq<Frame>, chunk: FileChunkFrame)
    ensures chunk in ChunksIn(frames) <==> FileChunk(chunk) in frames
  {
    if |frames| > 0 {
      var n := |frames| - 1;
      ChunkIsIn(frames[..n], chunk);
      assert frames == frames[..n] + [frames[n]];
    }
  }

  lemma {:induction false} OtherIsIn(log: seq<Frame>, id: Uuid, frame: Frame)
    ensures frame in Others(log, id) <==> frame in log && OriginOf(frame) != Some(id)
  {
    if |log| > 0 {
      var n := |log| - 1;
      OtherIsIn(log[..n], id, frame);
      assert log == log[..n] + [log[n]];
    }
  }

  /** Others have published the whole transfer, and nothing else under its identifier, while the
      client was a member. */
  ghost predicate Published(part: seq<Frame>, id: Uuid, h: Header, content: seq<Byte>) {
    && (forall chunk :: FileChunk(chunk) in part && chunk.from != Some(id) && chunk.fileId == h.fileId ==>
          ChunkOf(chunk, h, content))
    && (forall i: nat :: i < h.totalChunks ==> PublishedChunk(part, id, h, i))
  }

  ghost predicate PublishedChunk(part: seq<Frame>, id: Uuid, h: Header, i: nat) {
    exists chunk :: FileChunk(chunk) in part && chunk.from != Some(id) && chunk.fileId == h.fileId && chunk.chunkIndex == i
  }

  /** These arrivals bring exactly these chunks, in this order. */
  ghost predicate Carry(arrivals: seq<Arrival>, chunks: seq<FileChunkFrame>) {
    |arrivals| == |chunks| && forall k :: 0 <= k < |chunks| ==> arrivals[k].chunk == chunks[k]
  }

  lemma CarriedWhole(part: seq<Frame>, id: Uuid, h: Header, content: seq<Byte>, arrivals: seq<Arrival>)
    requires Published(part, id, h, content) && Carry(arrivals, ChunksIn(Others(part, id)))
    ensures OnlyOwnChunks(arrivals, h, content)
    ensures forall i: nat :: i < h.totalChunks ==> Brings(arrivals, h, i)
  {
    hide ChunkOf, Others, ChunksIn;
    var chunks := ChunksIn(Others(part, id));
    forall a | a in arrivals && a.chunk.fileId == h.fileId ensures ChunkOf(a.chunk, h, content) {
      assert a.chunk in chunks;
      ChunkIsIn(Others(part, id), a.chunk);
      OtherIsIn(part, id, FileChunk(a.chunk));
    }
    forall i: nat | i < h.totalChunks ensures Brings(arrivals, h, i) {
      assert PublishedChunk(part, id, h, i);
      var chunk :| FileChunk(chunk) in part && chunk.from != Some(id) && chunk.fileId == h.fileId && chunk.chunkIndex == i;
      OtherIsIn(part, id, FileChunk(chunk));
      ChunkIsIn(Others(part, id), chunk);
      var k :| 0 <= k < |chunks| && chunks[k] == chunk;
      assert IsOwn(arrivals[k], h, i);
    }
  }

  /** End to end. In every run of the server, a client whose file channel has refused nothing and is
      written out has got every chunk that others published since it joined; so if they published a
      whole transfer, in whatever order and among whatever else, its receiver has completed it with
      exactly the sent bytes. */
  lemma RelayedFileArrives(states: seq<Server>, steps: seq<Step>, maxConns: nat, counting: bool, i: nat, id: Uuid,
                           sha: Digest, st: ReceiverState, h: Header, content: seq<Byte>, arrivals: seq<Arrival>)
    requires IsRun(states, steps, maxConns, counting) && i < |states| && maxConns < USIZE_COUNT
    requires id in states[i].views && id in states[i].conns && states[i].conns[id].writer
    requires states[i].views[id].files.full == 0
    requires id in states[i].hub.outboxes && states[i].hub.outboxes[id].files == []
    requires var v := states[i].views[id];
             v.since <= v.until <= |states[i].log| && Published(states[i].log[v.since..v.until], id, h, content)
    requires Carry(arrivals, ChunksIn(states[i].conns[id].sent))
    requires Valid(st) && Announced(sha, h, content) && h.fileId !in st.transfers && FreshRun(sha, st, arrivals)
    ensures exists k :: 0 <= k < |arrivals| && CompletesAt(sha, st, h, content, arrivals, k)
  {
    SnapshotPlusStream(states, steps, maxConns, counting, i, id);
    hide IsRun, Valid, Announced, FreshRun, CompletesAt, Others, ChunksIn, ClipsIn, Published, Carry, Subsequence, LastClip;
    var s := states[i];
    var v := s.views[id];
    var offered := ChunksIn(Others(s.log[v.since..v.until], id));
    assert ChunksIn(s.conns[id].sent) + [] == ChunksIn(s.conns[id].sent);
    assert ChunksIn(s.conns[id].sent) == offered;
    CarriedWhole(s.log[v.since..v.until], id, h, content, arrivals);
    AllChunksComplete(sha, st, h, content, arrivals);
  }
}
