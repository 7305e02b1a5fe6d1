/** `run_supervisor`: routes changes and frames, and batches received files for the clipboard. */
module Supervisor {
  import opened Wrappers
  import opened Protocol
  import opened Clipboard
  import opened ClipFrames
  import opened FileReceive
  import opened UriList
  import Utf8

  const RECEIVE_BATCH_WINDOW := 500

  datatype BatchState = BatchState(pending: seq<Path>, deadline: Option<int>)

  /** `Path::join` with one component: a slash between the two unless the directory ends in one. */
  function Below(saveDir: string, name: string): string {
    if |saveDir| == 0 || saveDir[|saveDir| - 1] == '/' then saveDir + name else saveDir + "/" + name
  }

  /** Where a received file was saved. */
  function SavedPath(saveDir: string, name: string): Path {
    Utf8.Encode(Below(saveDir, name))
  }

  function Complete(b: BatchState, path: Path, now: int): BatchState {
    BatchState(b.pending + [path], Some(now + RECEIVE_BATCH_WINDOW))
  }

  /** The deadline arm: what is sent to the clipboard, and the state left. */
  function Fire(b: BatchState): (BatchState, seq<ClipChange>) {
    (BatchState([], None), if |b.pending| == 0 then [] else [Files(b.pending)])
  }

  function AfterChunk(b: BatchState, saveDir: string, outcome: Outcome, now: int): BatchState {
    if outcome.Ok? && outcome.value.Some? then Complete(b, SavedPath(saveDir, outcome.value.value), now) else b
  }

  class Task {
    const codec: Codec
    const saveDir: string
    const receiver: FileReceiver
    var pendingFiles: seq<Path>
    var pendingDeadline: Option<int>
    var toClipboard: seq<ClipChange>
    var outbound: seq<ClipFrame>

    ghost function Batching(): BatchState
      reads this
    {
      BatchState(pendingFiles, pendingDeadline)
    }

    constructor (codec: Codec, saveDir: string, receiver: FileReceiver)
      ensures this.codec == codec && this.saveDir == saveDir && this.receiver == receiver
      ensures Batching() == BatchState([], None) && toClipboard == [] && outbound == []
    {
      this.codec, this.saveDir, this.receiver := codec, saveDir, receiver;
      pendingFiles, pendingDeadline, toClipboard, outbound := [], None, [], [];
    }

    /** The local arm, as every desktop of a network takes it: a frame that is queued is one that any
        other desktop's remote arm turns back into the change. */
    method OnLocalChange(change: ClipChange, id: Uuid, ts: int)
      modifies this`outbound
      ensures outbound == QueueLocal(codec, old(outbound), change, id, ts)
      ensures Lossless(codec) && outbound != old(outbound) ==>
        Arrives(codec, outbound[|outbound| - 1], change)
    {
      hide Arrives;
      if Lossless(codec) {
        LocalThenRemote(codec, outbound, change, id, ts);
      }
      var frame := ChangeToFrame(codec, change, id, ts);
      if frame.Some? && |outbound| < OUTBOUND_BUF {
        outbound := outbound + [frame.value];
      }
    }

    /** The remote arm, likewise: what reaches the clipboard is never a file list, and comes back from
        it unchanged. */
    method OnRemoteClip(clip: ClipFrame)
      modifies this`toClipboard
      ensures toClipboard == QueueRemote(codec, old(toClipboard), clip)
      ensures toClipboard != old(toClipboard) ==> Faithful(toClipboard[|toClipboard| - 1])
    {
      var change := FrameToChange(codec, clip);
      if change.Ok? {
        toClipboard := toClipboard + [change.value];
      }
    }

    method OnFileChunk(chunk: FileChunkFrame, suffix: Uuid, now: int)
      requires Valid(receiver.State())
      modifies this`pendingFiles, this`pendingDeadline, receiver
      ensures Valid(receiver.State())
      ensures var (st, outcome) := Receive(receiver.sha, old(receiver.State()), chunk, suffix);
              receiver.State() == st && Batching() == AfterChunk(old(Batching()), saveDir, outcome, now)
    {
      var outcome := receiver.ReceiveChunk(chunk, suffix);
      if outcome.Ok? && outcome.value.Some? {
        pendingFiles := pendingFiles + [SavedPath(saveDir, outcome.value.value)];
        pendingDeadline := Some(now + RECEIVE_BATCH_WINDOW);
      }
    }

    method OnDeadline()
      modifies this`pendingFiles, this`pendingDeadline, this`toClipboard
      ensures Batching() == Fire(old(Batching())).0
      ensures toClipboard == old(toClipboard) + Fire(old(Batching())).1
    {
      pendingDeadline := None;
      if |pendingFiles| > 0 {
        toClipboard := toClipboard + [Files(pendingFiles)];
        pendingFiles := [];
      }
    }
  }

  // Batches over time, in milliseconds.

  /** One turn of the loop that concerns received files: a chunk and what the receiver made of it, or
      the deadline. */
  datatype Turn = Chunk(outcome: Outcome, at: int) | DeadlineArm(at: int)

  /** What a turn leaves, and what it hands to the clipboard. */
  function Turned(saveDir: string, b: BatchState, turn: Turn): (BatchState, seq<ClipChange>) {
    match turn
    case Chunk(outcome, at) => (AfterChunk(b, saveDir, outcome, at), [])
    case DeadlineArm(_) => Fire(b)
  }

  function BatchAfter(saveDir: string, turns: seq<Turn>): BatchState {
    if |turns| == 0 then BatchState([], None)
    else Turned(saveDir, BatchAfter(saveDir, turns[..|turns| - 1]), turns[|turns| - 1]).0
  }

  datatype Dispatch = Dispatch(change: ClipChange, at: int)

  function At(changes: seq<ClipChange>, at: int): seq<Dispatch> {
    seq(|changes|, i requires 0 <= i < |changes| => Dispatch(changes[i], at))
  }

  /** Everything handed to the clipboard so far. */
  function Dispatches(saveDir: string, turns: seq<Turn>): seq<Dispatch> {
    if |turns| == 0 then []
    else
      var before, last := turns[..|turns| - 1], turns[|turns| - 1];
      Dispatches(saveDir, before) + At(Turned(saveDir, BatchAfter(saveDir, before), last).1, last.at)
  }

  /** Time does not go back, and the deadline arm runs only when its deadline has passed; a chunk may
      be handled before a deadline that has passed as well. */
  ghost predicate Timely(saveDir: string, turns: seq<Turn>) {
    forall i :: 0 <= i < |turns| ==>
      && (i > 0 ==> turns[i - 1].at <= turns[i].at)
      && (turns[i].DeadlineArm? ==>
            var deadline := BatchAfter(saveDir, turns[..i]).deadline;
            deadline.Some? && deadline.value <= turns[i].at)
  }

  // The files of a run, from its turns alone.

  datatype Saved = Saved(name: string, at: int)

  function SavedBy(turn: Turn): seq<Saved> {
    match turn
    case Chunk(Ok(Some(name)), at) => [Saved(name, at)]
    case _ => []
  }

  /** The transfers that completed, in order: the name the receiver gave each, and when. */
  function SavedIn(turns: seq<Turn>): seq<Saved> {
    if |turns| == 0 then [] else SavedIn(turns[..|turns| - 1]) + SavedBy(turns[|turns| - 1])
  }

  /** The files of all the changes, one after the other. */
  function PathsOf(dispatches: seq<Dispatch>): seq<Path> {
    if |dispatches| == 0 then []
    else
      var last := dispatches[|dispatches| - 1];
      PathsOf(dispatches[..|dispatches| - 1]) + (if last.change.Files? then last.change.paths else [])
  }

  /** These paths are the saved files, in order: each reads as the name under the directory. */
  ghost predicate AreSaved(paths: seq<Path>, saveDir: string, saved: seq<Saved>) {
    |paths| == |saved|
    && forall i :: 0 <= i < |paths| ==> Utf8.Decode(paths[i]) == Some(Below(saveDir, saved[i].name))
  }

  /** One batch: not empty, no sooner than the window after its last file, and before the next file. */
  ghost predicate WellTimed(d: Dispatch, end: nat, saved: seq<Saved>) {
    && d.change.Files? && |d.change.paths| > 0 && 0 < end <= |saved|
    && saved[end - 1].at + RECEIVE_BATCH_WINDOW <= d.at
    && (end < |saved| ==> d.at <= saved[end].at)
  }

  ghost predicate AllWellTimed(dispatches: seq<Dispatch>, saved: seq<Saved>) {
    forall k :: 0 <= k < |dispatches| ==> WellTimed(dispatches[k], |PathsOf(dispatches[..k + 1])|, saved)
  }

  ghost predicate BatchInv(saveDir: string, b: BatchState, dispatches: seq<Dispatch>, saved: seq<Saved>, now: int) {
    && AreSaved(PathsOf(dispatches) + b.pending, saveDir, saved)
    && b.deadline == (if |b.pending| == 0 then None else Some(saved[|saved| - 1].at + RECEIVE_BATCH_WINDOW))
    && AllWellTimed(dispatches, saved)
    && (forall k :: 0 <= k < |dispatches| ==> dispatches[k].at <= now)
    && (|saved| > 0 ==> saved[|saved| - 1].at <= now)
  }

  lemma SavedPathReads(saveDir: string, name: string)
    ensures Utf8.Decode(SavedPath(saveDir, name)) == Some(Below(saveDir, name))
  {
    Utf8.RoundTrip(Below(saveDir, name));
  }

  lemma {:induction false} PathsGrow(dispatches: seq<Dispatch>, k: nat)
    requires k <= |dispatches|
    ensures |PathsOf(dispatches[..k])| <= |PathsOf(dispatches)|
    decreases |dispatches|
  {
    if k < |dispatches| {
      var n := |dispatches| - 1;
      PathsGrow(dispatches[..n], k);
      assert dispatches[..n][..k] == dispatches[..k];
    } else {
      assert dispatches[..k] == dispatches;
    }
  }

  lemma SavedAppend(paths: seq<Path>, saveDir: string, saved: seq<Saved>, file: Saved)
    requires AreSaved(paths, saveDir, saved)
    ensures AreSaved(paths + [SavedPath(saveDir, file.name)], saveDir, saved + [file])
  {
    SavedPathReads(saveDir, file.name);
    hide Utf8.Decode, SavedPath, Below;
  }

  /** A completed file joins the batch and moves its deadline. */
  lemma CompletionKeeps(saveDir: string, b: BatchState, dispatches: seq<Dispatch>, saved: seq<Saved>, now: int,
                        name: string, at: int)
    requires BatchInv(saveDir, b, dispatches, saved, now) && now <= at
    ensures BatchInv(saveDir, AfterChunk(b, saveDir, Ok(Some(name)), at), dispatches, saved + [Saved(name, at)], at)
  {
    hide PathsOf, AreSaved, SavedPath;
    SavedAppend(PathsOf(dispatches) + b.pending, saveDir, saved, Saved(name, at));
    assert PathsOf(dispatches) + b.pending + [SavedPath(saveDir, name)] == PathsOf(dispatches) + (b.pending + [SavedPath(saveDir, name)]);
    forall k | 0 <= k < |dispatches|
      ensures WellTimed(dispatches[k], |PathsOf(dispatches[..k + 1])|, saved + [Saved(name, at)])
    {
      assert WellTimed(dispatches[k], |PathsOf(dispatches[..k + 1])|, saved);
    }
  }

  lemma PathsAppend(dispatches: seq<Dispatch>, d: Dispatch)
    ensures PathsOf(dispatches + [d]) == PathsOf(dispatches) + (if d.change.Files? then d.change.paths else [])
  {
    assert (dispatches + [d])[..|dispatches|] == dispatches;
  }

  lemma DispatchTimed(dispatches: seq<Dispatch>, d: Dispatch, saved: seq<Saved>)
    requires AllWellTimed(dispatches, saved) && WellTimed(d, |PathsOf(dispatches + [d])|, saved)
    ensures AllWellTimed(dispatches + [d], saved)
  {
    hide PathsOf, WellTimed;
    var after := dispatches + [d];
    forall k | 0 <= k < |after| ensures WellTimed(after[k], |PathsOf(after[..k + 1])|, saved) {
      if k < |dispatches| {
        assert after[..k + 1] == dispatches[..k + 1];
        assert WellTimed(dispatches[k], |PathsOf(dispatches[..k + 1])|, saved);
      } else {
        assert after[..k + 1] == after;
      }
    }
  }

  /** The whole batch goes out, and nothing is left. */
  lemma DispatchKeeps(saveDir: string, b: BatchState, dispatches: seq<Dispatch>, saved: seq<Saved>, now: int, at: int)
    requires BatchInv(saveDir, b, dispatches, saved, now) && now <= at
    requires b.deadline.Some? && b.deadline.value <= at
    ensures var (b', sent) := Fire(b); BatchInv(saveDir, b', dispatches + At(sent, at), saved, at)
  {
    hide AllWellTimed, Utf8.Decode;
    var d := Dispatch(Files(b.pending), at);
    assert At(Fire(b).1, at) == [d];
    PathsAppend(dispatches, d);
    hide PathsOf;
    var paths := PathsOf(dispatches) + b.pending;
    assert PathsOf(dispatches + [d]) == paths == paths + [] && |paths| == |saved|;
    assert WellTimed(d, |paths|, saved);
    DispatchTimed(dispatches, d, saved);
    hide AreSaved;
  }

  ghost predicate BatchLawAt(saveDir: string, turns: seq<Turn>, now: int) {
    BatchInv(saveDir, BatchAfter(saveDir, turns), Dispatches(saveDir, turns), SavedIn(turns), now)
  }

  lemma TurnKeeps(saveDir: string, b: BatchState, dispatches: seq<Dispatch>, saved: seq<Saved>, now: int, turn: Turn)
    requires BatchInv(saveDir, b, dispatches, saved, now) && now <= turn.at
    requires turn.DeadlineArm? ==> b.deadline.Some? && b.deadline.value <= turn.at
    ensures var (b', sent) := Turned(saveDir, b, turn);
            BatchInv(saveDir, b', dispatches + At(sent, turn.at), saved + SavedBy(turn), turn.at)
  {
    assert dispatches + At([], turn.at) == dispatches && saved + [] == saved;
    match turn
    case DeadlineArm(at) =>
      DispatchKeeps(saveDir, b, dispatches, saved, now, at);
    case Chunk(outcome, at) =>
      if outcome.Ok? && outcome.value.Some? {
        CompletionKeeps(saveDir, b, dispatches, saved, now, outcome.value.value, at);
      } else {
        hide AreSaved, PathsOf, AllWellTimed;
      }
  }

  lemma {:induction false} BatchInvAlways(saveDir: string, turns: seq<Turn>, i: nat)
    requires Timely(saveDir, turns) && i <= |turns|
    ensures BatchLawAt(saveDir, turns[..i], if i == 0 then (if |turns| == 0 then 0 else turns[0].at) else turns[i - 1].at)
  {
    if i > 0 {
      BatchInvAlways(saveDir, turns, i - 1);
      var before := turns[..i - 1];
      assert turns[..i][..i - 1] == before && turns[..i][i - 1] == turns[i - 1];
      TurnKeeps(saveDir, BatchAfter(saveDir, before), Dispatches(saveDir, before), SavedIn(before),
                if i == 1 then turns[0].at else turns[i - 2].at, turns[i - 1]);
      hide Turned, BatchInv, At, SavedBy;
    }
  }

  lemma TimedAt(dispatches: seq<Dispatch>, saved: seq<Saved>, k: nat)
    requires AllWellTimed(dispatches, saved) && k < |dispatches|
    ensures WellTimed(dispatches[k], |PathsOf(dispatches[..k + 1])|, saved)
  {}

  /** What becomes of received files, over every run of the two arms. The files handed to the clipboard,
      change after change, followed by the pending ones, are the files of the completed transfers in
      order, each where the receiver saved it; a deadline is set exactly while files wait; no change
      goes out sooner than the window after its last file; and files completed less than the window
      apart are never split over two changes. */
  lemma BatchLaw(saveDir: string, turns: seq<Turn>)
    requires Timely(saveDir, turns)
    ensures var (b, dispatches, saved) := (BatchAfter(saveDir, turns), Dispatches(saveDir, turns), SavedIn(turns));
            && AreSaved(PathsOf(dispatches) + b.pending, saveDir, saved)
            && (b.deadline.Some? <==> |b.pending| > 0)
            && (forall k :: 0 <= k < |dispatches| ==>
                  var end := |PathsOf(dispatches[..k + 1])|;
                  && dispatches[k].change.Files? && |dispatches[k].change.paths| > 0 && 0 < end <= |saved|
                  && saved[end - 1].at + RECEIVE_BATCH_WINDOW <= dispatches[k].at
                  && (end < |saved| ==> saved[end - 1].at + RECEIVE_BATCH_WINDOW <= saved[end].at))
  {
    BatchInvAlways(saveDir, turns, |turns|);
    assert turns[..|turns|] == turns;
    var dispatches, saved := Dispatches(saveDir, turns), SavedIn(turns);
    hide BatchAfter, Dispatches, SavedIn, PathsOf, AreSaved, Timely, AllWellTimed;
    forall k | 0 <= k < |dispatches| ensures WellTimed(dispatches[k], |PathsOf(dispatches[..k + 1])|, saved) {
      TimedAt(dispatches, saved, k);
    }
  }

  /** A batch of files saved under an absolute directory comes back from the clipboard unchanged, so
      exposing received files is never taken for a local copy. */
  lemma SavedBatchIsFaithful(saveDir: string, names: seq<string>, batch: seq<Path>)
    requires |saveDir| > 0 && saveDir[0] == '/' && |batch| == |names| > 0
    requires forall i :: 0 <= i < |names| ==> batch[i] == SavedPath(saveDir, names[i])
    ensures Faithful(Files(batch))
  {
    forall i | 0 <= i < |batch| ensures RoundTrips(batch[i]) {
      AbsolutePathsRoundTrip(Below(saveDir, names[i]));
    }
  }
}
