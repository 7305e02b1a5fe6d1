/** `send_file_through`: a file becomes a sequence of chunk frames, one per `read`. */
module FileSend {
  import opened Wrappers
  import opened Protocol
  import opened Fingerprint
  import Base64

  type Digest = seq<Byte> -> seq<Byte>

  datatype SendError = NoFileName | EmptyFile | TooLarge | ChannelClosed

  /** What every chunk of one transfer repeats. */
  datatype Header = Header(
    fileId: Uuid, name: string, contentType: string, totalChunks: U32, fileSha256: string, fileSize: U64)

  function TotalChunks(size: nat): nat {
    (size + FILE_CHUNK_BYTES - 1) / FILE_CHUNK_BYTES
  }

  function Announce(sha: Digest, fileId: Uuid, name: Option<string>, contentType: string, content: seq<Byte>)
    : Result<Header, SendError>
  {
    if name.None? then Err(NoFileName)
    else if |content| == 0 then Err(EmptyFile)
    else if TotalChunks(|content|) > U32_MAX then Err(TooLarge)
    else Ok(Header(fileId, name.value, contentType, TotalChunks(|content|), FingerprintHex(sha(content)), |content|))
  }

  /** Bytes consumed by the first `n` reads. */
  function Consumed(sizes: seq<nat>, n: nat): nat
    requires n <= |sizes|
  {
    if n == 0 then 0 else Consumed(sizes, n - 1) + sizes[n - 1]
  }

  /** The sizes `read` may return for a file of this size until it reports the end. */
  ghost predicate LegalReads(sizes: seq<nat>, size: nat) {
    && (forall i :: 0 <= i < |sizes| ==> 1 <= sizes[i] <= FILE_CHUNK_BYTES)
    && Consumed(sizes, |sizes|) == size
  }

  lemma {:induction false} ConsumedMonotone(sizes: seq<nat>, i: nat, j: nat)
    requires i <= j <= |sizes|
    ensures Consumed(sizes, i) <= Consumed(sizes, j)
  {
    if i < j {
      ConsumedMonotone(sizes, i, j - 1);
    }
  }

  /** The index is a 32-bit counter and wraps. */
  function FrameOf(h: Header, index: nat, payload: seq<Byte>): FileChunkFrame {
    FileChunkFrame(h.fileId, h.name, h.contentType, index % 0x1_0000_0000, h.totalChunks, h.fileSha256, h.fileSize,
                   Base64.Encode(payload), None)
  }

  function Frames(h: Header, content: seq<Byte>, sizes: seq<nat>, n: nat): (frames: seq<FileChunkFrame>)
    requires n <= |sizes| && Consumed(sizes, |sizes|) == |content|
    ensures |frames| == n
  {
    if n == 0 then []
    else
      ConsumedMonotone(sizes, n, |sizes|);
      Frames(h, content, sizes, n - 1)
      + [FrameOf(h, n - 1, content[Consumed(sizes, n - 1)..Consumed(sizes, n)])]
  }

  lemma FramesNone(content: seq<Byte>, sizes: seq<nat>)
    requires LegalReads(sizes, |content|)
    ensures Consumed(sizes, 0) == 0 && Consumed(sizes, |sizes|) == |content|
    ensures forall h: Header :: Frames(h, content, sizes, 0) == []
  {}

  lemma FramesStep(h: Header, content: seq<Byte>, sizes: seq<nat>, n: nat, position: nat)
    requires n < |sizes| && Consumed(sizes, |sizes|) == |content| && position == Consumed(sizes, n)
    ensures Consumed(sizes, n + 1) == position + sizes[n] <= |content|
    ensures Frames(h, content, sizes, n + 1)
         == Frames(h, content, sizes, n) + [FrameOf(h, n, content[position..position + sizes[n]])]
  {
    ConsumedMonotone(sizes, n + 1, |sizes|);
  }

  /** How many frames go out when the channel closes after `room` of them, if it closes at all. */
  function Fitting(sizes: seq<nat>, room: Option<nat>): (n: nat)
    ensures n <= |sizes|
  {
    if room.Some? && room.value < |sizes| then room.value else |sizes|
  }

  /** The sender. `sizes` are the sizes the operating system returns. */
  method SendFileThrough(sha: Digest, fileId: Uuid, name: Option<string>, contentType: string, content: seq<Byte>,
                         sizes: seq<nat>, room: Option<nat>)
    returns (result: Result<(), SendError>, sent: seq<FileChunkFrame>)
    requires LegalReads(sizes, |content|)
    ensures Announce(sha, fileId, name, contentType, content).Err? ==>
      result == Err(Announce(sha, fileId, name, contentType, content).error) && sent == []
    ensures Announce(sha, fileId, name, contentType, content).Ok? ==>
      && sent == Frames(Announce(sha, fileId, name, contentType, content).value, content, sizes, Fitting(sizes, room))
      && result == if Fitting(sizes, room) == |sizes| then Ok(()) else Err(ChannelClosed)
  {
    hide Frames, Announce;
    var announced := Announce(sha, fileId, name, contentType, content);
    if announced.Err? {
      return Err(announced.error), [];
    }
    sent := ReadAndSend(announced.value, content, sizes, room);
    result := if |sent| == |sizes| then Ok(()) else Err(ChannelClosed);
  }

  /** The sender's loop: one frame per read, until the end of the file or of the channel. */
  method ReadAndSend(h: Header, content: seq<Byte>, sizes: seq<nat>, room: Option<nat>) returns (sent: seq<FileChunkFrame>)
    requires LegalReads(sizes, |content|)
    ensures sent == Frames(h, content, sizes, Fitting(sizes, room))
  {
    FramesNone(content, sizes);
    hide Consumed, FrameOf, Frames, LegalReads;
    sent := [];
    var position := 0;
    var index := 0;
    while index < |sizes|
      invariant 0 <= index <= Fitting(sizes, room)
      invariant position == Consumed(sizes, index) <= |content| == Consumed(sizes, |sizes|)
      invariant sent == Frames(h, content, sizes, index)
    {
      FramesStep(h, content, sizes, index, position);
      var frame := FrameOf(h, index, content[position..position + sizes[index]]);
      if room.Some? && room.value == index {
        return;
      }
      position := position + sizes[index];
      sent := sent + [frame];
      index := index + 1;
    }
  }

  lemma {:induction false} FramesAt(h: Header, content: seq<Byte>, sizes: seq<nat>, n: nat, i: nat)
    requires i < n <= |sizes| && Consumed(sizes, |sizes|) == |content|
    ensures Consumed(sizes, i) <= Consumed(sizes, i + 1) <= |content|
    ensures Frames(h, content, sizes, n)[i] == FrameOf(h, i, content[Consumed(sizes, i)..Consumed(sizes, i + 1)])
  {
    ConsumedMonotone(sizes, i + 1, |sizes|);
    if i < n - 1 {
      FramesAt(h, content, sizes, n - 1, i);
    }
  }

  // Which read sizes the index-times-chunk-size rule of the receiver is right for.

  ghost predicate FullReads(sizes: seq<nat>) {
    forall i :: 0 <= i < |sizes| - 1 ==> sizes[i] == FILE_CHUNK_BYTES
  }

  /** Every chunk starts where the receiver will write it. */
  ghost predicate OffsetsMatch(sizes: seq<nat>) {
    forall i :: 0 <= i < |sizes| ==> Consumed(sizes, i) == i * FILE_CHUNK_BYTES
  }

  /** The receiver's offsets are right exactly when only the last read is short. */
  lemma OffsetsMatchIff(sizes: seq<nat>, size: nat)
    requires LegalReads(sizes, size)
    ensures OffsetsMatch(sizes) <==> FullReads(sizes)
  {
    if FullReads(sizes) {
      forall i | 0 <= i < |sizes| ensures Consumed(sizes, i) == i * FILE_CHUNK_BYTES {
        FullPrefix(sizes, i);
      }
    }
    if OffsetsMatch(sizes) {
      forall i | 0 <= i < |sizes| - 1 ensures sizes[i] == FILE_CHUNK_BYTES {
        assert Consumed(sizes, i) == i * FILE_CHUNK_BYTES && Consumed(sizes, i + 1) == (i + 1) * FILE_CHUNK_BYTES;
      }
    }
  }

  lemma {:induction false} FullPrefix(sizes: seq<nat>, i: nat)
    requires FullReads(sizes) && i < |sizes|
    ensures Consumed(sizes, i) == i * FILE_CHUNK_BYTES
  {
    if i > 0 {
      FullPrefix(sizes, i - 1);
    }
  }

  function ChunkEnd(size: nat, i: nat): nat {
    if (i + 1) * FILE_CHUNK_BYTES < size then (i + 1) * FILE_CHUNK_BYTES else size
  }

  function ChunkBytes(content: seq<Byte>, i: nat): seq<Byte>
    requires i * FILE_CHUNK_BYTES <= |content|
  {
    content[i * FILE_CHUNK_BYTES..ChunkEnd(|content|, i)]
  }

  lemma ReadCount(sizes: seq<nat>, size: nat)
    requires LegalReads(sizes, size) && FullReads(sizes)
    ensures |sizes| == TotalChunks(size)
    ensures forall i :: 0 <= i < |sizes| ==> Consumed(sizes, i) == i * FILE_CHUNK_BYTES < size
    ensures forall i :: 0 <= i < |sizes| ==> Consumed(sizes, i + 1) == ChunkEnd(size, i)
  {
    var n := |sizes|;
    if n > 0 {
      FullPrefix(sizes, n - 1);
      assert (n - 1) * FILE_CHUNK_BYTES < size <= n * FILE_CHUNK_BYTES;
    }
    forall i | 0 <= i < n
      ensures Consumed(sizes, i) == i * FILE_CHUNK_BYTES < size && Consumed(sizes, i + 1) == ChunkEnd(size, i)
    {
      FullPrefix(sizes, i);
      if i < n - 1 {
        FullPrefix(sizes, i + 1);
      }
    }
  }

  /** The payloads of the frames, decoded and joined. */
  function Joined(frames: seq<FileChunkFrame>): seq<Byte> {
    if |frames| == 0 then []
    else
      var last := frames[|frames| - 1];
      Joined(frames[..|frames| - 1])
      + (match Base64.Decode(last.payloadB64) case None => [] case Some(bytes) => bytes)
  }

  lemma {:induction false} FramesJoin(h: Header, content: seq<Byte>, sizes: seq<nat>, n: nat)
    requires n <= |sizes| && LegalReads(sizes, |content|)
    ensures Consumed(sizes, n) <= |content|
    ensures Joined(Frames(h, content, sizes, n)) == content[..Consumed(sizes, n)]
  {
    hide Base64.Decode, Base64.Encode;
    ConsumedMonotone(sizes, n, |sizes|);
    if n > 0 {
      FramesJoin(h, content, sizes, n - 1);
      var slice := content[Consumed(sizes, n - 1)..Consumed(sizes, n)];
      Base64.RoundTrip(slice);
      var frames := Frames(h, content, sizes, n);
      assert frames[..|frames| - 1] == Frames(h, content, sizes, n - 1);
      assert content[..Consumed(sizes, n)] == content[..Consumed(sizes, n - 1)] + slice;
    }
  }

  /** A chunk frame says where its bytes belong, and passes every check on the way. */
  ghost predicate GoodChunk(f: FileChunkFrame, content: seq<Byte>, i: nat) {
    && f.chunkIndex == i
    && i * FILE_CHUNK_BYTES < |content|
    && Base64.Decode(f.payloadB64) == Some(ChunkBytes(content, i))
    && f.Validates()
    && |f.payloadB64| < MAX_FRAME_BYTES
    && i * FILE_CHUNK_BYTES + |ChunkBytes(content, i)| < 0x1_0000_0000_0000_0000
  }

  /** What every chunk frame of a file says about the file. */
  ghost predicate Announces(f: FileChunkFrame, fileId: Uuid, name: string, contentType: string, digest: string, size: nat) {
    && f.fileId == fileId && f.name == name && f.contentType == contentType && f.from == None
    && f.fileSha256 == digest && f.fileSize == size
    && (f.totalChunks - 1) * FILE_CHUNK_BYTES < size <= f.totalChunks * FILE_CHUNK_BYTES
  }

  /** Which files are refused: those without a name, the empty ones, and those of more than 2^32 - 1 chunks. */
  lemma AnnounceIff(sha: Digest, fileId: Uuid, name: Option<string>, contentType: string, content: seq<Byte>)
    ensures var r := Announce(sha, fileId, name, contentType, content);
            && (r == Err(NoFileName) <==> name.None?)
            && (r == Err(EmptyFile) <==> name.Some? && content == [])
            && (r == Err(TooLarge) <==> name.Some? && |content| > 0xFFFF_FFFF * FILE_CHUNK_BYTES)
            && (r.Ok? <==> name.Some? && 0 < |content| <= 0xFFFF_FFFF * FILE_CHUNK_BYTES)
  {
    hide FingerprintHex;
  }

  /** Whatever the reads return, every frame announces the file it belongs to, and the payloads joined
      are the file. With full reads the frames tile it: as many as announced, the i-th holding exactly
      the bytes from `i * FILE_CHUNK_BYTES`, each valid, below the frame limit and inside 64 bits. */
  lemma SenderTiling(sha: Digest, fileId: Uuid, name: string, contentType: string, content: seq<Byte>, sizes: seq<nat>)
    requires |name| > 0 && '\0' !in name && |sha(content)| > 0
    requires LegalReads(sizes, |content|)
    requires Announce(sha, fileId, Some(name), contentType, content).Ok?
    ensures var h := Announce(sha, fileId, Some(name), contentType, content).value;
            var frames := Frames(h, content, sizes, |sizes|);
            && Joined(frames) == content
            && (forall f :: f in frames ==>
                  Announces(f, fileId, name, contentType, FingerprintHex(sha(content)), |content|))
            && (FullReads(sizes) ==>
                  |frames| == h.totalChunks && forall i :: 0 <= i < |frames| ==> GoodChunk(frames[i], content, i))
  {
    hide GoodChunk, Base64.Decode, Base64.Encode, FingerprintHex, Frames, Joined;
    var h := Announce(sha, fileId, Some(name), contentType, content).value;
    var frames := Frames(h, content, sizes, |sizes|);
    FramesJoin(h, content, sizes, |sizes|);
    assert content[..|content|] == content;
    FingerprintLength(sha(content));
    forall f | f in frames ensures Announces(f, fileId, name, contentType, FingerprintHex(sha(content)), |content|) {
      var i :| 0 <= i < |frames| && frames[i] == f;
      FramesAt(h, content, sizes, |sizes|, i);
    }
    hide Announces;
    if FullReads(sizes) {
      ReadCount(sizes, |content|);
      forall i | 0 <= i < |frames| ensures GoodChunk(frames[i], content, i) {
        FramesAt(h, content, sizes, |sizes|, i);
        FrameIsGood(h, content, i);
      }
    }
  }

  lemma FrameIsGood(h: Header, content: seq<Byte>, i: nat)
    requires |h.name| > 0 && '\0' !in h.name && |h.fileSha256| > 0
    requires h.totalChunks == TotalChunks(|content|) && i < h.totalChunks
    ensures i * FILE_CHUNK_BYTES < |content|
    ensures GoodChunk(FrameOf(h, i, ChunkBytes(content, i)), content, i)
  {
    hide Base64.Decode, Base64.Encode;
    assert i * FILE_CHUNK_BYTES < |content| <= h.totalChunks * FILE_CHUNK_BYTES;
    var bytes := ChunkBytes(content, i);
    Base64.RoundTrip(bytes);
    Base64.EncodedLength(bytes);
    assert 0 < |bytes| <= FILE_CHUNK_BYTES;
    assert 4 <= (|bytes| + 2) / 3 * 4 <= 5_592_408;
  }
}
