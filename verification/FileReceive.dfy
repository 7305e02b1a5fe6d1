/** `FileReceiver`: in-flight transfers over a save directory, modelled as named byte strings.
    File-system calls succeed. While a transfer is open its file handle denotes its partial file,
    because no step renames, truncates or removes another transfer's partial file. */
module FileReceive {
  import opened Wrappers
  import opened Protocol
  import opened FileNames
  import opened Fingerprint
  import opened FileSend
  import Base64

  datatype Transfer = Transfer(
    name: string, totalChunks: U32, received: seq<bool>, expectedSha256: string, expectedSize: U64)

  type Files = map<string, seq<Byte>>

  datatype ReceiverState = ReceiverState(transfers: map<Uuid, Transfer>, files: Files)

  datatype Rejection = Invalid | BadPayload | InconsistentMetadata | HashMismatch

  type Outcome = Result<Option<string>, Rejection>

  function PartialName(id: Uuid): string {
    id + ".partial"
  }

  lemma PartialNameInjective(a: Uuid, b: Uuid)
    requires PartialName(a) == PartialName(b)
    ensures a == b
  {
    assert a == PartialName(a)[..|PartialName(a)| - 8];
    assert b == PartialName(b)[..|PartialName(b)| - 8];
  }

  function Zeros(n: nat): seq<Byte> {
    seq(n, _ => 0)
  }

  /** Seek and write: a gap past the end reads as zeros. */
  function WriteAt(file: seq<Byte>, offset: nat, bytes: seq<Byte>): seq<Byte> {
    var padded := if |file| < offset then file + Zeros(offset - |file|) else file;
    padded[..offset] + bytes + (if offset + |bytes| < |padded| then padded[offset + |bytes|..] else [])
  }

  predicate AllReceived(received: seq<bool>) {
    forall i :: 0 <= i < |received| ==> received[i]
  }

  predicate Consistent(t: Transfer, chunk: FileChunkFrame) {
    t.totalChunks == chunk.totalChunks && t.expectedSha256 == chunk.fileSha256 && t.expectedSize == chunk.fileSize
  }

  /** The invariant of every reachable receiver. */
  ghost predicate ValidTransfer(id: Uuid, t: Transfer, files: Files) {
    && |t.received| == t.totalChunks
    && !AllReceived(t.received)
    && SafeComponent(t.name)
    && PartialName(id) in files
  }

  ghost predicate Valid(st: ReceiverState) {
    forall id :: id in st.transfers ==> ValidTransfer(id, st.transfers[id], st.files)
  }

  /** The first chunk of an unknown id creates its partial file, truncating what was there. */
  function Open(st: ReceiverState, chunk: FileChunkFrame): ReceiverState {
    if chunk.fileId in st.transfers then st
    else
      var t := Transfer(SanitizeFilename(chunk.name), chunk.totalChunks, seq(chunk.totalChunks, _ => false),
                        chunk.fileSha256, chunk.fileSize);
      ReceiverState(st.transfers[chunk.fileId := t], st.files[PartialName(chunk.fileId) := Zeros(chunk.fileSize)])
  }

  /** Verify the assembled file, then move it to a free name or remove it. */
  function Finish(sha: Digest, st: ReceiverState, id: Uuid, suffix: Uuid): (ReceiverState, Outcome)
    requires id in st.transfers && PartialName(id) in st.files
  {
    var t := st.transfers[id];
    var bytes := st.files[PartialName(id)];
    var rest := ReceiverState(st.transfers - {id}, st.files - {PartialName(id)});
    if FingerprintHex(sha(bytes)) != t.expectedSha256 then (rest, Err(HashMismatch))
    else
      var final := UniqueName(st.files.Keys, t.name, suffix);
      (rest.(files := rest.files[final := bytes]), Ok(Some(final)))
  }

  /** Store a chunk that its transfer has not seen yet. */
  function Store(st: ReceiverState, chunk: FileChunkFrame, bytes: seq<Byte>): ReceiverState
    requires chunk.fileId in st.transfers && PartialName(chunk.fileId) in st.files
    requires chunk.chunkIndex < |st.transfers[chunk.fileId].received|
  {
    var id, t := chunk.fileId, st.transfers[chunk.fileId];
    var file := WriteAt(st.files[PartialName(id)], chunk.chunkIndex * FILE_CHUNK_BYTES, bytes);
    ReceiverState(st.transfers[id := t.(received := t.received[chunk.chunkIndex := true])],
                  st.files[PartialName(id) := file])
  }

  /** One inbound chunk. `suffix` is the random identifier the naming fallback would draw. */
  function Receive(sha: Digest, st: ReceiverState, chunk: FileChunkFrame, suffix: Uuid): (ReceiverState, Outcome)
    requires Valid(st)
  {
    if !chunk.Validates() then (st, Err(Invalid))
    else
      match Base64.Decode(chunk.payloadB64)
      case None => (st, Err(BadPayload))
      case Some(bytes) =>
        var begun := Open(st, chunk);
        var t := begun.transfers[chunk.fileId];
        if !Consistent(t, chunk) then (begun, Err(InconsistentMetadata))
        else if t.received[chunk.chunkIndex] then (begun, Ok(None))
        else
          var stored := Store(begun, chunk, bytes);
          if !AllReceived(stored.transfers[chunk.fileId].received) then (stored, Ok(None))
          else Finish(sha, stored, chunk.fileId, suffix)
  }

  class FileReceiver {
    const sha: Digest
    var transfers: map<Uuid, Transfer>
    var files: Files

    ghost function State(): ReceiverState
      reads this
    {
      ReceiverState(transfers, files)
    }

    constructor (sha: Digest, files: Files)
      ensures this.sha == sha && State() == ReceiverState(map[], files) && Valid(State())
    {
      this.sha := sha;
      this.files := files;
      transfers := map[];
    }

    method ReceiveChunk(chunk: FileChunkFrame, suffix: Uuid) returns (r: Outcome)
      requires Valid(State())
      modifies this
      ensures Valid(State())
      ensures (State(), r) == Receive(sha, old(State()), chunk, suffix)
    {
      hide Base64.Decode, FingerprintHex, UniqueName, SanitizeFilename, WriteAt, AllReceived, Valid;
      ReceiveKeepsValid(sha, State(), chunk, suffix);
      if !chunk.Validates() {
        return Err(Invalid);
      }
      var decoded := Base64.Decode(chunk.payloadB64);
      if decoded.None? {
        return Err(BadPayload);
      }
      var id := chunk.fileId;
      var partial := PartialName(id);
      if id !in transfers {
        files := files[partial := Zeros(chunk.fileSize)];
        transfers := transfers[id := Transfer(SanitizeFilename(chunk.name), chunk.totalChunks,
                                              seq(chunk.totalChunks, _ => false), chunk.fileSha256, chunk.fileSize)];
      }
      assert State() == Open(old(State()), chunk);
      OpenKeepsShape(old(State()), chunk);
      var transfer := transfers[id];
      if !Consistent(transfer, chunk) {
        return Err(InconsistentMetadata);
      }
      if transfer.received[chunk.chunkIndex] {
        return Ok(None);
      }
      files := files[partial := WriteAt(files[partial], chunk.chunkIndex * FILE_CHUNK_BYTES, decoded.value)];
      transfer := transfer.(received := transfer.received[chunk.chunkIndex := true]);
      transfers := transfers[id := transfer];
      if !AllReceived(transfer.received) {
        return Ok(None);
      }
      var bytes := files[partial];
      if FingerprintHex(sha(bytes)) != transfer.expectedSha256 {
        files := files - {partial};
        transfers := transfers - {id};
        return Err(HashMismatch);
      }
      var final := UniquePath(files.Keys, transfer.name, suffix);
      files := (files - {partial})[final := bytes];
      transfers := transfers - {id};
      return Ok(Some(final));
    }
  }

  // What every step keeps.

  /** The random fallback name is not in use, and being a UUID it does not end in `l`. */
  ghost predicate FreshSuffix(st: ReceiverState, suffix: Uuid) {
    && (forall name :: Fallback(name, suffix) !in st.files)
    && |suffix| > 0 && suffix[|suffix| - 1] != 'l'
  }

  /** The fallback never collides with a partial file. */
  lemma PartialIsNoFallback(id: Uuid, name: string, suffix: Uuid)
    requires |suffix| > 0 && suffix[|suffix| - 1] != 'l'
    ensures PartialName(id) != Fallback(name, suffix)
  {
    assert PartialName(id)[|PartialName(id)| - 1] == 'l';
    assert Fallback(name, suffix)[|Fallback(name, suffix)| - 1] == suffix[|suffix| - 1];
  }

  lemma OpenKeepsShape(st: ReceiverState, chunk: FileChunkFrame)
    requires Valid(st) && chunk.Validates()
    ensures var begun := Open(st, chunk);
            && Valid(begun)
            && chunk.fileId in begun.transfers
            && |begun.transfers[chunk.fileId].received| == begun.transfers[chunk.fileId].totalChunks
            && PartialName(chunk.fileId) in begun.files
  {
    SanitizedIsSafe(chunk.name);
    var t := Open(st, chunk).transfers[chunk.fileId];
    assert chunk.fileId !in st.transfers ==> !t.received[0];
  }

  lemma ReceiveKeepsValid(sha: Digest, st: ReceiverState, chunk: FileChunkFrame, suffix: Uuid)
    requires Valid(st)
    ensures Valid(Receive(sha, st, chunk, suffix).0)
  {
    hide Base64.Decode, SafeComponent, SanitizeFilename, UniqueName, FingerprintHex, WriteAt;
    if chunk.Validates() {
      OpenKeepsShape(st, chunk);
      forall other | other in st.transfers && other != chunk.fileId
        ensures PartialName(other) != PartialName(chunk.fileId)
      {
        if PartialName(other) == PartialName(chunk.fileId) {
          PartialNameInjective(other, chunk.fileId);
        }
      }
    }
  }

  /** The other transfers and the other files are as before. */
  ghost predicate SameElsewhere(st: ReceiverState, st': ReceiverState, id: Uuid) {
    && st'.transfers - {id} == st.transfers - {id}
    && forall n :: n in st.files && n != PartialName(id) ==> n in st'.files && st'.files[n] == st.files[n]
  }

  lemma FinalNameIsFree(st: ReceiverState, chunk: FileChunkFrame, suffix: Uuid)
    requires Valid(st) && FreshSuffix(st, suffix) && chunk.Validates()
    ensures var begun := Open(st, chunk);
            UniqueName(begun.files.Keys, begun.transfers[chunk.fileId].name, suffix) !in begun.files
  {
    hide UniqueName, Fallback;
    var begun := Open(st, chunk);
    var name := begun.transfers[chunk.fileId].name;
    PartialIsNoFallback(chunk.fileId, name, suffix);
    assert Fallback(name, suffix) !in begun.files;
    UniqueNameIsFree(begun.files.Keys, name, suffix);
  }

  lemma ReceiveElsewhere(sha: Digest, st: ReceiverState, chunk: FileChunkFrame, suffix: Uuid)
    requires Valid(st) && FreshSuffix(st, suffix)
    ensures SameElsewhere(st, Receive(sha, st, chunk, suffix).0, chunk.fileId)
  {
    hide Base64.Decode, FingerprintHex, WriteAt, UniqueName, SanitizeFilename, PartialName, AllReceived;
    if chunk.Validates() && Base64.Decode(chunk.payloadB64).Some? {
      var begun := Open(st, chunk);
      OpenKeepsShape(st, chunk);
      assert SameElsewhere(st, begun, chunk.fileId);
      var t := begun.transfers[chunk.fileId];
      if Consistent(t, chunk) && !t.received[chunk.chunkIndex] {
        var stored := Store(begun, chunk, Base64.Decode(chunk.payloadB64).value);
        assert SameElsewhere(begun, stored, chunk.fileId);
        FinalNameIsFree(st, chunk, suffix);
        assert stored.files.Keys == begun.files.Keys;
        assert SameElsewhere(stored, Finish(sha, stored, chunk.fileId, suffix).0, chunk.fileId);
      }
    }
  }

  /** A chunk of one transfer leaves every other transfer's bitmap and bytes alone, and every file
      already in the directory except the partial file of its own id. */
  lemma OthersUntouched(sha: Digest, st: ReceiverState, chunk: FileChunkFrame, suffix: Uuid)
    requires Valid(st) && FreshSuffix(st, suffix)
    ensures var st' := Receive(sha, st, chunk, suffix).0;
            && SameElsewhere(st, st', chunk.fileId)
            && forall id :: id in st.transfers && id != chunk.fileId ==>
                 && id in st'.transfers && st'.transfers[id] == st.transfers[id]
                 && PartialName(id) in st'.files && st'.files[PartialName(id)] == st.files[PartialName(id)]
  {
    hide Receive;
    ReceiveElsewhere(sha, st, chunk, suffix);
    var st' := Receive(sha, st, chunk, suffix).0;
    forall id | id in st.transfers && id != chunk.fileId
      ensures PartialName(id) != PartialName(chunk.fileId)
      ensures id in st'.transfers && st'.transfers[id] == st.transfers[id]
    {
      if PartialName(id) == PartialName(chunk.fileId) {
        PartialNameInjective(id, chunk.fileId);
      }
      assert id in st.transfers - {chunk.fileId} && id in st'.transfers - {chunk.fileId};
      assert (st.transfers - {chunk.fileId})[id] == st.transfers[id];
      assert (st'.transfers - {chunk.fileId})[id] == st'.transfers[id];
    }
  }

  /** A rejected chunk changes nothing, except that a failed final hash drops its own transfer and
      partial file. */
  lemma RejectionChangesNothing(sha: Digest, st: ReceiverState, chunk: FileChunkFrame, suffix: Uuid)
    requires Valid(st) && Receive(sha, st, chunk, suffix).1.Err?
    ensures var (st', r) := Receive(sha, st, chunk, suffix);
            if r.error == HashMismatch
            then st' == ReceiverState(st.transfers - {chunk.fileId}, st.files - {PartialName(chunk.fileId)})
            else st' == st
  {
    hide Base64.Decode, FingerprintHex, WriteAt, UniqueName;
    if chunk.Validates() && Base64.Decode(chunk.payloadB64).Some? {
      OpenKeepsShape(st, chunk);
      var (st', r) := Receive(sha, st, chunk, suffix);
      if r.error == HashMismatch {
        assert st'.transfers == st.transfers - {chunk.fileId};
        assert st'.files == st.files - {PartialName(chunk.fileId)};
      }
    }
  }

  /** The bitmap this chunk finds: a transfer that it opens has received nothing. */
  ghost predicate HasReceived(st: ReceiverState, id: Uuid, i: nat) {
    id in st.transfers && i < |st.transfers[id].received| && st.transfers[id].received[i]
  }

  /** No other chunk of its transfer is missing. */
  ghost predicate Completes(st: ReceiverState, chunk: FileChunkFrame) {
    && !HasReceived(st, chunk.fileId, chunk.chunkIndex)
    && forall i: nat :: i < chunk.totalChunks && i != chunk.chunkIndex ==> HasReceived(st, chunk.fileId, i)
  }

  /** The partial file with this chunk's bytes in place. */
  function Assembled(st: ReceiverState, chunk: FileChunkFrame, bytes: seq<Byte>): seq<Byte> {
    var id := chunk.fileId;
    WriteAt(if id in st.transfers && PartialName(id) in st.files then st.files[PartialName(id)] else Zeros(chunk.fileSize),
            chunk.chunkIndex * FILE_CHUNK_BYTES, bytes)
  }

  /** Is this the encoding of any bytes at all? */
  ghost predicate Readable(payload: string) {
    exists bytes :: payload == Base64.Encode(bytes)
  }

  lemma ReadableIff(payload: string)
    ensures Base64.Decode(payload).Some? <==> Readable(payload)
    ensures forall bytes :: payload == Base64.Encode(bytes) ==> Base64.Decode(payload) == Some(bytes)
  {
    hide Base64.Decode, Base64.Encode;
    forall bytes ensures payload == Base64.Encode(bytes) <==> Base64.Decode(payload) == Some(bytes) {
      Base64.DecodeIffEncode(payload, bytes);
    }
    if Base64.Decode(payload).Some? {
      assert payload == Base64.Encode(Base64.Decode(payload).value);
    }
  }

  /** Does the announcement of this chunk differ from the one its transfer was opened with? */
  ghost predicate Contradicts(st: ReceiverState, chunk: FileChunkFrame) {
    && chunk.fileId in st.transfers
    && var t := st.transfers[chunk.fileId];
       chunk.totalChunks != t.totalChunks || chunk.fileSha256 != t.expectedSha256 || chunk.fileSize != t.expectedSize
  }

  /** Which chunks are refused, and why; and what becomes of all others. A chunk that was already
      received changes nothing. */
  lemma RefusedIff(sha: Digest, st: ReceiverState, chunk: FileChunkFrame, suffix: Uuid, bytes: seq<Byte>)
    requires Valid(st) && (Readable(chunk.payloadB64) ==> chunk.payloadB64 == Base64.Encode(bytes))
    ensures var (st', r) := Receive(sha, st, chunk, suffix);
            var accepted := chunk.Validates() && Readable(chunk.payloadB64) && !Contradicts(st, chunk);
            && (r == Err(Invalid) <==> !chunk.Validates())
            && (r == Err(BadPayload) <==> chunk.Validates() && !Readable(chunk.payloadB64))
            && (r == Err(InconsistentMetadata) <==>
                  chunk.Validates() && Readable(chunk.payloadB64) && Contradicts(st, chunk))
            && (r == Err(HashMismatch) <==>
                  accepted && Completes(st, chunk) && FingerprintHex(sha(Assembled(st, chunk, bytes))) != chunk.fileSha256)
            && (r.Ok? && r.value.Some? <==>
                  accepted && Completes(st, chunk) && FingerprintHex(sha(Assembled(st, chunk, bytes))) == chunk.fileSha256)
            && (accepted && HasReceived(st, chunk.fileId, chunk.chunkIndex) ==> st' == st)
  {
    hide Base64.Decode, Base64.Encode, Readable, FingerprintHex, WriteAt, UniqueName, SanitizeFilename, Zeros;
    ReadableIff(chunk.payloadB64);
    if chunk.Validates() && Readable(chunk.payloadB64) {
      OpenKeepsShape(st, chunk);
      var begun := Open(st, chunk);
      if !Contradicts(st, chunk) && !HasReceived(st, chunk.fileId, chunk.chunkIndex) {
        CompletesIff(st, chunk, bytes);
        var stored := Store(begun, chunk, bytes);
        assert stored.files[PartialName(chunk.fileId)] == Assembled(st, chunk, bytes);
      }
    }
  }

  lemma CompletesIff(st: ReceiverState, chunk: FileChunkFrame, bytes: seq<Byte>)
    requires Valid(st) && chunk.Validates() && !Contradicts(st, chunk)
    requires !HasReceived(st, chunk.fileId, chunk.chunkIndex)
    ensures PartialName(chunk.fileId) in Open(st, chunk).files
    ensures |Open(st, chunk).transfers[chunk.fileId].received| == chunk.totalChunks
    ensures AllReceived(Store(Open(st, chunk), chunk, bytes).transfers[chunk.fileId].received) <==> Completes(st, chunk)
  {
    hide WriteAt, SanitizeFilename, Zeros;
    OpenKeepsShape(st, chunk);
    var received := Open(st, chunk).transfers[chunk.fileId].received;
    forall i: nat | i < |received| ensures received[i] <==> HasReceived(st, chunk.fileId, i) {}
    var after := Store(Open(st, chunk), chunk, bytes).transfers[chunk.fileId].received;
    assert forall i: nat :: i < |after| ==> (after[i] <==> i == chunk.chunkIndex || HasReceived(st, chunk.fileId, i));
  }

  /** The directory as a completing transfer finds it: its own partial file is there. */
  function EntriesFor(st: ReceiverState, id: Uuid): set<string> {
    st.files.Keys + {PartialName(id)}
  }

  /** The name a transfer goes by: the one its first chunk announced. */
  function NameFor(st: ReceiverState, chunk: FileChunkFrame): string {
    if chunk.fileId in st.transfers then st.transfers[chunk.fileId].name else SanitizeFilename(chunk.name)
  }

  /** A returned file has the announced digest, sits directly in the save directory, and took no
      existing name. */
  lemma ReturnedFile(sha: Digest, st: ReceiverState, chunk: FileChunkFrame, suffix: Uuid, original: seq<Byte>)
    requires Valid(st) && FreshSuffix(st, suffix)
    requires forall c :: c in suffix ==> !IsForbidden(c)
    requires Receive(sha, st, chunk, suffix).1.Ok? && Receive(sha, st, chunk, suffix).1.value.Some?
    ensures var (st', r) := Receive(sha, st, chunk, suffix);
            var final := r.value.value;
            && final in st'.files && final !in st.files && SafeComponent(final)
            && FingerprintHex(sha(st'.files[final])) == chunk.fileSha256
            && (chunk.fileSha256 == FingerprintHex(sha(original)) ==> sha(st'.files[final]) == sha(original))
            && chunk.fileId !in st'.transfers && PartialName(chunk.fileId) !in st'.files
            && final == UniqueName(EntriesFor(st, chunk.fileId), NameFor(st, chunk), suffix)
  {
    hide Base64.Decode, FingerprintHex, WriteAt, UniqueName, Fallback, SafeComponent, SanitizeFilename;
    OpenKeepsShape(st, chunk);
    var begun := Open(st, chunk);
    var name := begun.transfers[chunk.fileId].name;
    var keys := begun.files.Keys;
    FinalNameIsFree(st, chunk, suffix);
    UniqueNameIsSafe(keys, name, suffix);
    var (st', r) := Receive(sha, st, chunk, suffix);
    var stored := Store(begun, chunk, Base64.Decode(chunk.payloadB64).value);
    assert stored.files.Keys == keys == EntriesFor(st, chunk.fileId);
    if chunk.fileSha256 == FingerprintHex(sha(original)) {
      FingerprintInjective(sha(st'.files[r.value.value]), sha(original));
    }
  }

  /** A file saved under the partial name of a later transfer is lost: what the first accepted chunk
      leaves does not depend on the bytes that were there. */
  lemma OpeningTruncates(sha: Digest, st: ReceiverState, chunk: FileChunkFrame, suffix: Uuid, saved: seq<Byte>)
    requires Valid(st) && chunk.fileId !in st.transfers
    requires chunk.Validates() && Base64.Decode(chunk.payloadB64).Some?
    ensures var before := st.(files := st.files[PartialName(chunk.fileId) := saved]);
            Valid(before) && Receive(sha, before, chunk, suffix) == Receive(sha, st, chunk, suffix)
  {
    var before := st.(files := st.files[PartialName(chunk.fileId) := saved]);
    assert Open(before, chunk) == Open(st, chunk);
  }

  // Runs.

  datatype Arrival = Arrival(chunk: FileChunkFrame, suffix: Uuid)

  function Run(sha: Digest, st: ReceiverState, arrivals: seq<Arrival>): (r: ReceiverState)
    requires Valid(st)
    ensures Valid(r)
  {
    if |arrivals| == 0 then st
    else
      var last := arrivals[|arrivals| - 1];
      var before := Run(sha, st, arrivals[..|arrivals| - 1]);
      ReceiveKeepsValid(sha, before, last.chunk, last.suffix);
      Receive(sha, before, last.chunk, last.suffix).0
  }

  /** Random identifiers are fresh when drawn, made of hexadecimal digits and hyphens. */
  ghost predicate FreshRun(sha: Digest, st: ReceiverState, arrivals: seq<Arrival>)
    requires Valid(st)
  {
    forall k :: 0 <= k < |arrivals| ==>
      FreshSuffix(Run(sha, st, arrivals[..k]), arrivals[k].suffix)
  }

  /** A file in the directory keeps its bytes over every run in which no chunk's id gives it its
      partial name. */
  lemma {:induction false} SavedFilesKept(sha: Digest, st: ReceiverState, arrivals: seq<Arrival>, name: string)
    requires Valid(st) && FreshRun(sha, st, arrivals)
    requires name in st.files && forall a :: a in arrivals ==> PartialName(a.chunk.fileId) != name
    ensures name in Run(sha, st, arrivals).files && Run(sha, st, arrivals).files[name] == st.files[name]
  {
    hide Receive, PartialName;
    if |arrivals| > 0 {
      var n := |arrivals| - 1;
      var before := arrivals[..n];
      FreshPrefix(sha, st, arrivals, n);
      SavedFilesKept(sha, st, before, name);
      assert arrivals[n] in arrivals;
      OthersUntouched(sha, Run(sha, st, before), arrivals[n].chunk, arrivals[n].suffix);
    }
  }

  lemma FreshPrefix(sha: Digest, st: ReceiverState, arrivals: seq<Arrival>, n: nat)
    requires Valid(st) && FreshRun(sha, st, arrivals) && n <= |arrivals|
    ensures FreshRun(sha, st, arrivals[..n])
  {
    var before := arrivals[..n];
    forall k | 0 <= k < |before| ensures before[..k] == arrivals[..k] {}
  }
}
