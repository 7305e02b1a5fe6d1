/** What the clients send and what the hub publishes: the readers lose, add and reorder nothing. */
module ServerIntake {
  import opened Wrappers
  import opened Protocol
  import opened Hub
  import opened Server
  import opened ServerCapacity
  import opened ServerStream

  // What the steps of a run say.

  /** The frame that a read passes on: a valid clip or chunk, its origin reset; nothing for an invalid
      one, a frame of another kind, or a message that is no frame. */
  function Passed(frame: Option<Frame>): seq<Frame> {
    match frame
    case Some(Clip(clip)) => if clip.Validates() then [Clip(clip.(from := None))] else []
    case Some(FileChunk(chunk)) => if chunk.Validates() then [FileChunk(chunk.(from := None))] else []
    case _ => []
  }

  /** Everything a client's reader has passed on, in order. */
  function PassedBy(steps: seq<Step>, id: Uuid): seq<Frame> {
    if |steps| == 0 then []
    else
      var last := steps[|steps| - 1];
      PassedBy(steps[..|steps| - 1], id) + (if last.Read? && last.id == id then Passed(last.frame) else [])
  }

  // What the states hold.

  function Reset(frame: Frame): Frame {
    match frame
    case Clip(clip) => Clip(clip.(from := None))
    case FileChunk(chunk) => FileChunk(chunk.(from := None))
    case _ => frame
  }

  /** The log entries stamped with this client, as it sent them. */
  function LoggedFrom(log: seq<Frame>, id: Uuid): seq<Frame> {
    if |log| == 0 then []
    else
      var last := log[|log| - 1];
      LoggedFrom(log[..|log| - 1], id) + (if OriginOf(last) == Some(id) then [Reset(last)] else [])
  }

  /** The client's frames that wait for the hub. */
  function WaitingFrom(inbox: seq<Message>, id: Uuid): seq<Frame> {
    if |inbox| == 0 then []
    else
      (match inbox[0]
       case Publish(from, clip) => if from == id then [Clip(clip)] else []
       case PublishFile(from, chunk) => if from == id then [FileChunk(chunk)] else []
       case _ => [])
      + WaitingFrom(inbox[1..], id)
  }

  /** Frames wait without an origin. */
  ghost predicate Unstamped(msg: Message) {
    (msg.Publish? ==> msg.clip.from.None?) && (msg.PublishFile? ==> msg.chunk.from.None?)
  }

  lemma {:induction false} WaitingAppend(inbox: seq<Message>, msg: Message, id: Uuid)
    ensures WaitingFrom(inbox + [msg], id) == WaitingFrom(inbox, id) + WaitingFrom([msg], id)
  {
    if |inbox| == 0 {
      assert inbox + [msg] == [msg];
    } else {
      assert (inbox + [msg])[1..] == inbox[1..] + [msg];
      WaitingAppend(inbox[1..], msg, id);
    }
  }

  lemma WaitingOne(msg: Message, id: Uuid)
    ensures WaitingFrom([msg], id) ==
      (match msg
       case Publish(from, clip) => if from == id then [Clip(clip)] else []
       case PublishFile(from, chunk) => if from == id then [FileChunk(chunk)] else []
       case _ => [])
  {
    assert [msg][1..] == [];
  }

  lemma LoggedAppend(log: seq<Frame>, frame: Frame, id: Uuid)
    ensures LoggedFrom(log + [frame], id) ==
      LoggedFrom(log, id) + (if OriginOf(frame) == Some(id) then [Reset(frame)] else [])
  {
    assert (log + [frame])[..|log|] == log;
  }

  lemma {:induction false} LoggedSplits(a: seq<Frame>, b: seq<Frame>, id: Uuid)
    ensures LoggedFrom(a + b, id) == LoggedFrom(a, id) + LoggedFrom(b, id)
  {
    if |b| == 0 {
      assert a + b == a;
    } else {
      var n := |b| - 1;
      assert a + b == (a + b[..n]) + [b[n]];
      LoggedSplits(a, b[..n], id);
      LoggedAppend(a + b[..n], b[n], id);
    }
  }

  // One step.

  /** A client's frames in the log and in the inbox. */
  function Intake(s: Server, id: Uuid): seq<Frame> {
    LoggedFrom(s.log, id) + WaitingFrom(s.inbox, id)
  }

  ghost predicate InboxUnstamped(s: Server) {
    forall i :: 0 <= i < |s.inbox| ==> Unstamped(s.inbox[i])
  }

  /** What a read appends to the inbox is what it passes on. */
  lemma ReadFrame(s: Server, id: Uuid, frame: Option<Frame>)
    requires Enabled(s, Read(id, frame))
    ensures var s' := Next(s, Read(id, frame));
            && s'.log == s.log
            && if Passed(frame) == [] then s'.inbox == s.inbox
               else
                 && |s'.inbox| == |s.inbox| + 1 && s'.inbox[..|s.inbox|] == s.inbox && Unstamped(s'.inbox[|s.inbox|])
                 && forall x :: WaitingFrom([s'.inbox[|s.inbox|]], x) == if x == id then Passed(frame) else []
  {
    var s' := Next(s, Read(id, frame));
    if Passed(frame) != [] {
      forall x ensures WaitingFrom([s'.inbox[|s.inbox|]], x) == if x == id then Passed(frame) else [] {
        WaitingOne(s'.inbox[|s.inbox|], x);
      }
    }
  }

  lemma ReadIntake(s: Server, id: Uuid, frame: Option<Frame>, x: Uuid)
    requires Enabled(s, Read(id, frame))
    ensures Intake(Next(s, Read(id, frame)), x) == Intake(s, x) + (if x == id then Passed(frame) else [])
  {
    ReadFrame(s, id, frame);
    var s' := Next(s, Read(id, frame));
    hide Next, Enabled, WaitingFrom, LoggedFrom, Passed;
    if Passed(frame) == [] {
      assert Intake(s, x) + [] == Intake(s, x);
    } else {
      assert s'.inbox == s.inbox + [s'.inbox[|s.inbox|]];
      WaitingAppend(s.inbox, s'.inbox[|s.inbox|], x);
    }
  }

  lemma HubIntake(s: Server, x: Uuid)
    requires Enabled(s, HubHandles) && InboxUnstamped(s)
    ensures Intake(Next(s, HubHandles), x) == Intake(s, x)
  {
    assert Unstamped(s.inbox[0]);
    HubInbox(s);
    WaitingHead(s.inbox, x);
    var s', msg := Next(s, HubHandles), s.inbox[0];
    if msg.Publish? || msg.PublishFile? {
      PostFrame(s);
      hide Next, Enabled, SeenBy, FanOut, LoggedFrom, WaitingFrom;
      LoggedAppend(s.log, PostedFrame(msg), x);
      WaitingOne(msg, x);
      Moves(LoggedFrom(s.log, x), WaitingFrom([msg], x), WaitingFrom(s.inbox[1..], x));
    } else {
      SameLog(s);
      hide Next, Enabled, LoggedFrom, WaitingFrom;
      WaitingOne(msg, x);
      assert [] + WaitingFrom(s.inbox[1..], x) == WaitingFrom(s.inbox[1..], x);
    }
  }

  lemma Moves(logged: seq<Frame>, head: seq<Frame>, rest: seq<Frame>)
    ensures logged + head + rest == logged + (head + rest) && logged + [] == logged
  {}

  lemma SameLog(s: Server)
    requires Enabled(s, HubHandles) && (s.inbox[0].Register? || s.inbox[0].Deregister?)
    ensures Next(s, HubHandles).log == s.log
  {
    hide Counted;
  }

  lemma WaitingHead(inbox: seq<Message>, x: Uuid)
    requires |inbox| > 0
    ensures WaitingFrom(inbox, x) == WaitingFrom([inbox[0]], x) + WaitingFrom(inbox[1..], x)
  {
    WaitingOne(inbox[0], x);
  }

  lemma WriteOutInbox(s: Server, id: Uuid, frame: Frame, ok: bool)
    requires id in s.conns
    ensures WriteOut(s, id, frame, ok).inbox == s.inbox && WriteOut(s, id, frame, ok).log == s.log
  {}

  /** The other steps queue registrations and departures at most. */
  lemma OtherFrame(s: Server, step: Step)
    requires Enabled(s, step) && !step.HubHandles? && !step.Read?
    ensures var s' := Next(s, step);
            && s'.log == s.log
            && s'.inbox == s.inbox + (if step.SendRegister? then [Register(step.id)]
                                      else if step.SendDeregister? then [Deregister(step.id)] else [])
  {
    hide WriteOut;
    match step
    case WriteInternal(id, ok) =>
      var c := s.conns[id];
      WriteOutInbox(WithConn(s, id, c.(internal := c.internal[1..])), id, c.internal[0], ok);
    case WriteClip(id, ok) =>
      var o := s.hub.outboxes[id];
      WriteOutInbox(WithOutbox(s, id, o.(clips := o.clips[1..])), id, Clip(o.clips[0]), ok);
    case WriteFile(id, ok) =>
      var o := s.hub.outboxes[id];
      WriteOutInbox(WithOutbox(s, id, o.(files := o.files[1..])), id, FileChunk(o.files[0]), ok);
    case _ =>
  }

  lemma OtherIntake(s: Server, step: Step, x: Uuid)
    requires Enabled(s, step) && !step.HubHandles? && !step.Read?
    ensures Intake(Next(s, step), x) == Intake(s, x)
  {
    OtherFrame(s, step);
    hide Next, Enabled, LoggedFrom;
    if step.SendRegister? {
      WaitingAppend(s.inbox, Register(step.id), x);
      WaitingOne(Register(step.id), x);
    } else if step.SendDeregister? {
      WaitingAppend(s.inbox, Deregister(step.id), x);
      WaitingOne(Deregister(step.id), x);
    }
    assert WaitingFrom(s.inbox, x) + [] == WaitingFrom(s.inbox, x) && s.inbox + [] == s.inbox;
  }

  lemma StepUnstamped(s: Server, step: Step)
    requires Enabled(s, step) && InboxUnstamped(s)
    ensures InboxUnstamped(Next(s, step))
  {
    if step.HubHandles? {
      HubInbox(s);
    } else if step.Read? {
      ReadFrame(s, step.id, step.frame);
      var s' := Next(s, step);
      hide Next, Enabled, Unstamped, Passed;
      assert |s'.inbox| > |s.inbox| ==> s'.inbox == s.inbox + [s'.inbox[|s.inbox|]];
    } else {
      OtherFrame(s, step);
      hide Next, Enabled;
    }
  }

  lemma HubInbox(s: Server)
    requires Enabled(s, HubHandles)
    ensures Next(s, HubHandles).inbox == s.inbox[1..]
  {
    hide Counted, FanOut, SeenBy;
  }

  // Whole runs.

  lemma {:induction false} UnstampedRun(states: seq<Server>, steps: seq<Step>, maxConns: nat, counting: bool, i: nat)
    requires IsRun(states, steps, maxConns, counting) && i < |states|
    ensures InboxUnstamped(states[i])
  {
    hide Next, Enabled, InboxUnstamped;
    if i > 0 {
      UnstampedRun(states, steps, maxConns, counting, i - 1);
      StepUnstamped(states[i - 1], steps[i - 1]);
    } else {
      NothingWaits(maxConns, counting);
    }
  }

  lemma NothingWaits(maxConns: nat, counting: bool)
    ensures InboxUnstamped(Initial(maxConns, counting)) && forall id :: Intake(Initial(maxConns, counting), id) == []
  {}

  /** The readers' law. In every run, for every client: the valid clips and chunks that its reads have
      brought so far, in order and with their origin reset, are the log entries stamped with it
      followed by those that still wait for the hub. */
  lemma {:induction false} ReadIsPublished(states: seq<Server>, steps: seq<Step>, maxConns: nat, counting: bool, i: nat, id: Uuid)
    requires IsRun(states, steps, maxConns, counting) && i < |states|
    ensures PassedBy(steps[..i], id) == LoggedFrom(states[i].log, id) + WaitingFrom(states[i].inbox, id)
  {
    hide Next, Enabled, InboxUnstamped, Passed, LoggedFrom, WaitingFrom;
    if i == 0 {
      NothingWaits(maxConns, counting);
      assert steps[..0] == [] && Intake(states[0], id) == [];
    } else {
      ReadIsPublished(states, steps, maxConns, counting, i - 1, id);
      UnstampedRun(states, steps, maxConns, counting, i - 1);
      assert steps[..i][..i - 1] == steps[..i - 1];
      var s, step := states[i - 1], steps[i - 1];
      match step {
        case Read(reader, frame) => ReadIntake(s, reader, frame, id);
        case HubHandles => HubIntake(s, id);
        case _ => OtherIntake(s, step, id);
      }
      assert PassedBy(steps[..i - 1], id) + [] == PassedBy(steps[..i - 1], id);
    }
  }

  // From one client's reader to another client's socket.

  /** The frames of one origin, as it sent them. */
  function ClipsOf(clips: seq<ClipFrame>, id: Uuid): seq<Frame> {
    if |clips| == 0 then []
    else
      var last := clips[|clips| - 1];
      ClipsOf(clips[..|clips| - 1], id) + (if last.from == Some(id) then [Clip(last.(from := None))] else [])
  }

  function ChunksOf(chunks: seq<FileChunkFrame>, id: Uuid): seq<Frame> {
    if |chunks| == 0 then []
    else
      var last := chunks[|chunks| - 1];
      ChunksOf(chunks[..|chunks| - 1], id) + (if last.from == Some(id) then [FileChunk(last.(from := None))] else [])
  }

  function OnlyClips(frames: seq<Frame>): seq<Frame> {
    if |frames| == 0 then []
    else OnlyClips(frames[..|frames| - 1]) + (if frames[|frames| - 1].Clip? then [frames[|frames| - 1]] else [])
  }

  function OnlyChunks(frames: seq<Frame>): seq<Frame> {
    if |frames| == 0 then []
    else OnlyChunks(frames[..|frames| - 1]) + (if frames[|frames| - 1].FileChunk? then [frames[|frames| - 1]] else [])
  }

  lemma OnlyAppend(frames: seq<Frame>, f: Frame)
    ensures OnlyClips(frames + [f]) == OnlyClips(frames) + (if f.Clip? then [f] else [])
    ensures OnlyChunks(frames + [f]) == OnlyChunks(frames) + (if f.FileChunk? then [f] else [])
  {
    assert (frames + [f])[..|frames|] == frames;
  }

  lemma {:induction false} OnlySplits(a: seq<Frame>, b: seq<Frame>)
    ensures OnlyClips(a + b) == OnlyClips(a) + OnlyClips(b) && OnlyChunks(a + b) == OnlyChunks(a) + OnlyChunks(b)
  {
    if |b| == 0 {
      assert a + b == a;
    } else {
      var n := |b| - 1;
      assert a + b == (a + b[..n]) + [b[n]] && b == b[..n] + [b[n]];
      OnlySplits(a, b[..n]);
      OnlyAppend(a + b[..n], b[n]);
      OnlyAppend(b[..n], b[n]);
    }
  }

  /** One origin's part of a log, seen by somebody else. */
  ghost predicate SeenThrough(others: seq<Frame>, logged: seq<Frame>, x: Uuid) {
    && ClipsOf(ClipsIn(others), x) == OnlyClips(logged)
    && ChunksOf(ChunksIn(others), x) == OnlyChunks(logged)
  }

  lemma {:induction false} OriginThroughOthers(log: seq<Frame>, id: Uuid, x: Uuid)
    requires id != x
    ensures SeenThrough(Others(log, id), LoggedFrom(log, x), x)
  {
    if |log| > 0 {
      var n := |log| - 1;
      OriginThroughOthers(log[..n], id, x);
      OriginNext(Others(log[..n], id), LoggedFrom(log[..n], x), log[n], id, x);
    }
  }

  lemma OriginNext(others: seq<Frame>, logged: seq<Frame>, frame: Frame, id: Uuid, x: Uuid)
    requires id != x && SeenThrough(others, logged, x)
    ensures SeenThrough(others + (if OriginOf(frame) == Some(id) then [] else [frame]),
                        logged + (if OriginOf(frame) == Some(x) then [Reset(frame)] else []), x)
  {
    hide ClipsIn, ChunksIn, ClipsOf, ChunksOf, OnlyClips, OnlyChunks;
    FramesAppend(others, frame);
    OnlyAppend(logged, Reset(frame));
    NothingMore(others, logged);
    if frame.Clip? {
      OriginClip(ClipsIn(others), frame.clip, x);
    } else if frame.FileChunk? {
      OriginChunk(ChunksIn(others), frame.chunk, x);
    }
  }

  lemma NothingMore(others: seq<Frame>, logged: seq<Frame>)
    ensures others + [] == others && logged + [] == logged
    ensures ClipsIn(others) + [] == ClipsIn(others) && ChunksIn(others) + [] == ChunksIn(others)
  {}

  lemma OriginClip(clips: seq<ClipFrame>, clip: ClipFrame, x: Uuid)
    ensures ClipsOf(clips + [clip], x) == ClipsOf(clips, x) + (if clip.from == Some(x) then [Clip(clip.(from := None))] else [])
  {
    assert (clips + [clip])[..|clips|] == clips;
  }

  lemma OriginChunk(chunks: seq<FileChunkFrame>, chunk: FileChunkFrame, x: Uuid)
    ensures ChunksOf(chunks + [chunk], x)
         == ChunksOf(chunks, x) + (if chunk.from == Some(x) then [FileChunk(chunk.(from := None))] else [])
  {
    assert (chunks + [chunk])[..|chunks|] == chunks;
  }

  /** From reader to socket. In every run, when a member's clip channel has refused nothing and is
      written out, the clips that another client's reads have brought are, in order: those published
      before the member joined, those its socket carries from that client, and those that still
      wait for the hub. */
  lemma ReaderToSocket(states: seq<Server>, steps: seq<Step>, maxConns: nat, counting: bool, i: nat, id: Uuid, x: Uuid)
    requires IsRun(states, steps, maxConns, counting) && i < |states| && maxConns < USIZE_COUNT
    requires id in states[i].views && id in states[i].hub.clients && id != x
    requires id in states[i].conns && states[i].conns[id].writer && id in states[i].hub.outboxes
    ensures var s := states[i];
            var v, sent, o, brought := s.views[id], s.conns[id].sent, s.hub.outboxes[id], PassedBy(steps[..i], x);
            && v.since <= |s.log|
            && (v.clips.full == 0 && o.clips == [] ==>
                  OnlyClips(brought) == OnlyClips(LoggedFrom(s.log[..v.since], x)) + ClipsOf(ClipsIn(sent), x)
                                        + OnlyClips(WaitingFrom(s.inbox, x)))
            && (v.files.full == 0 && o.files == [] ==>
                  OnlyChunks(brought) == OnlyChunks(LoggedFrom(s.log[..v.since], x)) + ChunksOf(ChunksIn(sent), x)
                                         + OnlyChunks(WaitingFrom(s.inbox, x)))
  {
    SnapshotPlusStream(states, steps, maxConns, counting, i, id);
    ReadIsPublished(states, steps, maxConns, counting, i, x);
    hide IsRun, ClipsIn, ChunksIn, Others, LoggedFrom, WaitingFrom, OnlyClips, OnlyChunks, PassedBy, Subsequence, LastClip, ClipsOf, ChunksOf;
    var s := states[i];
    var v := s.views[id];
    assert s.log[v.since..v.until] == s.log[v.since..];
    SplitOrigin(s.log, v.since, id, x, WaitingFrom(s.inbox, x));
    WholeOf(v.clips, ClipsIn(Others(s.log[v.since..], id)), ClipsIn(s.conns[id].sent), s.hub.outboxes[id].clips);
    WholeOf(v.files, ChunksIn(Others(s.log[v.since..], id)), ChunksIn(s.conns[id].sent), s.hub.outboxes[id].files);
  }

  /** A stream that refused nothing and has drained went out whole. */
  lemma WholeOf<T>(tap: Tap<T>, offered: seq<T>, written: seq<T>, waiting: seq<T>)
    requires Streamed(tap, offered, written, waiting, true)
    ensures tap.full == 0 && waiting == [] ==> written == offered
  {
    hide Subsequence;
    assert written + [] == written;
  }

  /** What the log and the inbox hold of one origin, split where somebody else joined. */
  lemma SplitOrigin(log: seq<Frame>, since: nat, id: Uuid, x: Uuid, waiting: seq<Frame>)
    requires since <= |log| && id != x
    ensures OnlyClips(LoggedFrom(log, x) + waiting) ==
      OnlyClips(LoggedFrom(log[..since], x)) + ClipsOf(ClipsIn(Others(log[since..], id)), x) + OnlyClips(waiting)
    ensures OnlyChunks(LoggedFrom(log, x) + waiting) ==
      OnlyChunks(LoggedFrom(log[..since], x)) + ChunksOf(ChunksIn(Others(log[since..], id)), x) + OnlyChunks(waiting)
  {
    hide ClipsIn, ChunksIn, Others, LoggedFrom, OnlyClips, OnlyChunks, ClipsOf, ChunksOf;
    var before, part := log[..since], log[since..];
    assert log == before + part;
    LoggedSplits(before, part, x);
    OriginThroughOthers(part, id, x);
    OnlySplits(LoggedFrom(log, x), waiting);
    OnlySplits(LoggedFrom(before, x), LoggedFrom(part, x));
  }
}
