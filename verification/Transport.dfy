/** The client's connection loop: two outbound and two inbound queues, and one socket at a time. */
module Transport {
  import opened Protocol
  import opened Wrappers

  const INBOUND_BUF := 32
  const INBOUND_FILES_BUF := 4

  /** Why `connect_and_serve` returned. */
  datatype Exit = ClipsClosed | FilesClosed | SendFailed | PingFailed | StreamEnded | ReceiverGone | NotConnected

  datatype Mode = Connecting | Serving | Draining | Ended(exit: Exit) | Stopped

  /** What the socket yields: its end, a message that is skipped, or a frame. */
  datatype Input = Ends | Skipped | Hears(frame: Frame)

  /** The outbound half. */
  datatype Outward = Outward(clips: seq<Frame>, files: seq<Frame>, clipsOpen: bool, filesOpen: bool)

  /** One inbound queue. Closing it drops what it holds. */
  datatype Inbound<T> = Inbound(queue: seq<T>, open: bool)

  /** `filesWired` says whether anybody wants file chunks at all. */
  datatype State = State(
    mode: Mode, out: Outward, clipsIn: Inbound<ClipFrame>, filesWired: bool, filesIn: Inbound<FileChunkFrame>)

  datatype Event =
    | PutClip(frame: Frame)
    | PutFile(frame: Frame)
    | CloseClips
    | CloseFiles
    | Connected(lastClip: Option<ClipFrame>)
    | ConnectFails
    | ClipArm(ok: bool)
    | FileArm(ok: bool)
    | DrainArm(ok: bool)
    | StreamArm(input: Input)
    | PingFails
    | TakeClipIn
    | TakeFileIn
    | CloseClipsIn
    | CloseFilesIn
    | Decide(oneShot: bool)

  function Start(filesWired: bool): State {
    State(Connecting, Outward([], [], true, true), Inbound([], true), filesWired, Inbound([], true))
  }

  /** A send to an inbound queue waits for room, unless nobody listens any more. */
  ghost predicate Room(s: State, frame: Frame) {
    match frame
    case Clip(_) => s.clipsIn.open ==> |s.clipsIn.queue| < INBOUND_BUF
    case FileChunk(_) => s.filesWired && s.filesIn.open ==> |s.filesIn.queue| < INBOUND_FILES_BUF
    case _ => true
  }

  /** An arm is ready when its queue has a frame or its channel is closed. */
  ghost predicate Enabled(s: State, e: Event) {
    match e
    case PutClip(_) => s.out.clipsOpen && |s.out.clips| < OUTBOUND_BUF
    case PutFile(_) => s.out.filesOpen && |s.out.files| < OUTBOUND_FILES_BUF
    case CloseClips => s.out.clipsOpen
    case CloseFiles => s.out.filesOpen
    case Connected(lastClip) => s.mode == Connecting && (lastClip.Some? ==> Room(s, Clip(lastClip.value)))
    case ConnectFails => s.mode == Connecting
    case ClipArm(_) => s.mode == Serving && (|s.out.clips| > 0 || !s.out.clipsOpen)
    case FileArm(_) => s.mode == Serving && (|s.out.files| > 0 || !s.out.filesOpen)
    case DrainArm(_) => s.mode == Draining && (|s.out.files| > 0 || !s.out.filesOpen)
    case StreamArm(input) => s.mode == Serving && (input.Hears? ==> Room(s, input.frame))
    case PingFails => s.mode == Serving
    case TakeClipIn => |s.clipsIn.queue| > 0
    case TakeFileIn => |s.filesIn.queue| > 0
    case CloseClipsIn => s.clipsIn.open
    case CloseFilesIn => s.filesIn.open
    case Decide(_) => s.mode.Ended?
  }

  function SentOrFailed(s: State, out: Outward, ok: bool): State {
    if ok then s.(out := out) else s.(out := out, mode := Ended(SendFailed))
  }

  function TakeClip(s: State, ok: bool): State
    requires |s.out.clips| > 0
  {
    SentOrFailed(s, s.out.(clips := s.out.clips[1..]), ok)
  }

  function TakeFile(s: State, ok: bool): State
    requires |s.out.files| > 0
  {
    SentOrFailed(s, s.out.(files := s.out.files[1..]), ok)
  }

  function Hear<T>(q: Inbound<T>, item: T): Inbound<T> {
    if q.open then q.(queue := q.queue + [item]) else q
  }

  function TakeIn<T>(q: Inbound<T>): Inbound<T>
    requires |q.queue| > 0
  {
    q.(queue := q.queue[1..])
  }

  function Shut<T>(q: Inbound<T>): Inbound<T> {
    q.(queue := [], open := false)
  }

  /** The stream arm: clips and wanted chunks go inside, and nobody listening ends the connection. */
  function HearFrame(s: State, frame: Frame): State {
    match frame
    case Clip(clip) =>
      var s' := s.(clipsIn := Hear(s.clipsIn, clip));
      if s.clipsIn.open then s' else s'.(mode := Ended(ReceiverGone))
    case FileChunk(chunk) =>
      if !s.filesWired then s
      else
        var s' := s.(filesIn := Hear(s.filesIn, chunk));
        if s.filesIn.open then s' else s'.(mode := Ended(ReceiverGone))
    case _ => s
  }

  function Next(s: State, e: Event): State
    requires Enabled(s, e)
  {
    var o := s.out;
    match e
    case PutClip(f) => s.(out := o.(clips := o.clips + [f]))
    case PutFile(f) => s.(out := o.(files := o.files + [f]))
    case CloseClips => s.(out := o.(clipsOpen := false))
    case CloseFiles => s.(out := o.(filesOpen := false))
    case Connected(lastClip) =>
      s.(mode := Serving, clipsIn := if lastClip.Some? then Hear(s.clipsIn, lastClip.value) else s.clipsIn)
    case ConnectFails => s.(mode := Ended(NotConnected))
    case ClipArm(ok) => if |o.clips| > 0 then TakeClip(s, ok) else s.(mode := Draining)
    case FileArm(ok) => if |o.files| > 0 then TakeFile(s, ok) else s.(mode := Ended(FilesClosed))
    case DrainArm(ok) => if |o.files| > 0 then TakeFile(s, ok) else s.(mode := Ended(ClipsClosed))
    case StreamArm(input) =>
      if input.Ends? then s.(mode := Ended(StreamEnded))
      else if input.Skipped? then s
      else HearFrame(s, input.frame)
    case PingFails => s.(mode := Ended(PingFailed))
    case TakeClipIn => s.(clipsIn := TakeIn(s.clipsIn))
    case TakeFileIn => s.(filesIn := TakeIn(s.filesIn))
    case CloseClipsIn => s.(clipsIn := Shut(s.clipsIn))
    case CloseFilesIn => s.(filesIn := Shut(s.filesIn))
    case Decide(oneShot) => s.(mode := if oneShot || !o.clipsOpen then Stopped else Connecting)
  }

  /** A run that some event cannot happen in stays where it was; `Legal` rules that out. */
  ghost function Run(s: State, events: seq<Event>): State {
    if |events| == 0 then s
    else
      var before := Run(s, events[..|events| - 1]);
      if Enabled(before, events[|events| - 1]) then Next(before, events[|events| - 1]) else before
  }

  ghost predicate Legal(s: State, events: seq<Event>) {
    forall i :: 0 <= i < |events| ==> Enabled(Run(s, events[..i]), events[i])
  }

  /** Is this event part of one `connect_and_serve` call? */
  predicate InsideServe(e: Event) {
    !e.Connected? && !e.ConnectFails? && !e.Decide?
  }

  ghost predicate Inside(events: seq<Event>) {
    forall e :: e in events ==> InsideServe(e)
  }

  class TransportTask {
    var mode: Mode
    var out: Outward
    var clipsIn: Inbound<ClipFrame>
    const filesWired: bool
    var filesIn: Inbound<FileChunkFrame>

    ghost function Now(): State
      reads this
    {
      State(mode, out, clipsIn, filesWired, filesIn)
    }

    constructor (filesWired: bool)
      ensures Now() == Start(filesWired)
    {
      this.filesWired := filesWired;
      mode, out := Connecting, Outward([], [], true, true);
      clipsIn, filesIn := Inbound([], true), Inbound([], true);
    }

    /** Take the next file chunk and hand it to the socket. */
    method SendFile(ok: bool)
      requires |out.files| > 0
      modifies this`mode, this`out
      ensures Now() == TakeFile(old(Now()), ok)
    {
      out := out.(files := out.files[1..]);
      if !ok {
        mode := Ended(SendFailed);
      }
    }

    method SendClip(ok: bool)
      requires |out.clips| > 0
      modifies this`mode, this`out
      ensures Now() == TakeClip(old(Now()), ok)
    {
      out := out.(clips := out.clips[1..]);
      if !ok {
        mode := Ended(SendFailed);
      }
    }

    /** The stream arm's body. */
    method Receive(frame: Frame)
      modifies this`mode, this`clipsIn, this`filesIn
      ensures Now() == HearFrame(old(Now()), frame)
    {
      match frame
      case Clip(clip) =>
        clipsIn := Hear(clipsIn, clip);
        if !clipsIn.open {
          mode := Ended(ReceiverGone);
        }
      case FileChunk(chunk) =>
        if filesWired {
          filesIn := Hear(filesIn, chunk);
          if !filesIn.open {
            mode := Ended(ReceiverGone);
          }
        }
      case _ =>
    }

    /** One turn of the select loop or of the drain loop, or a change at the other end of a queue. */
    method Select(e: Event)
      requires InsideServe(e) && Enabled(Now(), e)
      modifies this
      ensures Now() == Next(old(Now()), e)
    {
      match e
      case PutClip(frame) => out := out.(clips := out.clips + [frame]);
      case PutFile(frame) => out := out.(files := out.files + [frame]);
      case CloseClips => out := out.(clipsOpen := false);
      case CloseFiles => out := out.(filesOpen := false);
      case ClipArm(ok) =>
        if |out.clips| > 0 {
          SendClip(ok);
        } else {
          mode := Draining;
        }
      case FileArm(ok) =>
        if |out.files| > 0 {
          SendFile(ok);
        } else {
          mode := Ended(FilesClosed);
        }
      case DrainArm(ok) =>
        if |out.files| > 0 {
          SendFile(ok);
        } else {
          mode := Ended(ClipsClosed);
        }
      case StreamArm(input) =>
        match input {
          case Ends => mode := Ended(StreamEnded);
          case Skipped =>
          case Hears(frame) => Receive(frame);
        }
      case PingFails => mode := Ended(PingFailed);
      case TakeClipIn => clipsIn := TakeIn(clipsIn);
      case TakeFileIn => filesIn := TakeIn(filesIn);
      case CloseClipsIn => clipsIn := Shut(clipsIn);
      case CloseFilesIn => filesIn := Shut(filesIn);
    }

    /** `drain_outbound_files`, driven by what becomes ready until it returns; the file channel may
        still be open, and chunks may still arrive. */
    method DrainOutboundFiles(events: seq<Event>) returns (used: nat)
      requires mode == Draining && Legal(Now(), events) && Inside(events)
      modifies this
      ensures used <= |events| && Now() == Run(old(Now()), events[..used])
      ensures mode.Ended? || (used == |events| && mode == Draining)
      ensures mode.Ended? ==> mode.exit == ClipsClosed || mode.exit == SendFailed
      ensures mode == Ended(ClipsClosed) ==> out.files == [] && !out.filesOpen
      ensures forall k :: 0 <= k < used ==> !Run(old(Now()), events[..k]).mode.Ended?
    {
      hide Next, Enabled, InsideServe, Run;
      used := 0;
      RunNone(Now(), events);
      while used < |events| && !mode.Ended?
        invariant used <= |events| && Now() == Run(old(Now()), events[..used])
        invariant mode == Draining || mode == Ended(ClipsClosed) || mode == Ended(SendFailed)
        invariant mode == Ended(ClipsClosed) ==> out.files == [] && !out.filesOpen
        invariant forall k :: 0 <= k < used ==> !Run(old(Now()), events[..k]).mode.Ended?
      {
        RunStep(old(Now()), events, used);
        assert events[used] in events;
        DrainingStep(Now(), events[used]);
        Select(events[used]);
        used := used + 1;
      }
    }

    /** `connect_and_serve` after its handshake: the select loop, driven by what becomes ready until
        it returns. */
    method Serve(events: seq<Event>) returns (used: nat)
      requires mode == Serving && Legal(Now(), events) && Inside(events)
      modifies this
      ensures used <= |events| && Now() == Run(old(Now()), events[..used])
      ensures used < |events| ==> mode.Ended?
      ensures forall k :: 0 <= k < used ==> !Run(old(Now()), events[..k]).mode.Ended?
    {
      hide Next, Enabled, InsideServe, Run;
      used := 0;
      RunNone(Now(), events);
      while used < |events| && mode == Serving
        invariant used <= |events| && Now() == Run(old(Now()), events[..used])
        invariant mode == Serving || mode == Draining || mode.Ended?
        invariant forall k :: 0 <= k < used ==> !Run(old(Now()), events[..k]).mode.Ended?
      {
        RunStep(old(Now()), events, used);
        assert events[used] in events;
        ServingStep(Now(), events[used]);
        Select(events[used]);
        used := used + 1;
      }
      if mode == Draining {
        ghost var first := used;
        LegalTail(old(Now()), events, first);
        var more := DrainOutboundFiles(events[used..]);
        used := used + more;
        forall k | 0 <= k <= more ensures Run(old(Now()), events[..first + k]) == Run(Run(old(Now()), events[..first]), events[first..][..k]) {
          RunTail(old(Now()), events, first, k);
        }
        forall k | 0 <= k < used ensures !Run(old(Now()), events[..k]).mode.Ended? {
          assert k >= first ==> events[..k] == events[..first + (k - first)];
        }
      }
    }
  }

  lemma RunNone(s: State, events: seq<Event>)
    ensures Run(s, events[..0]) == s
  {}

  lemma RunStep(s: State, events: seq<Event>, n: nat)
    requires n < |events| && Legal(s, events)
    ensures Enabled(Run(s, events[..n]), events[n])
    ensures Run(s, events[..n + 1]) == Next(Run(s, events[..n]), events[n])
  {
    hide Enabled, Next;
    assert events[..n + 1][..n] == events[..n];
  }

  lemma {:induction false} RunTail(s: State, events: seq<Event>, n: nat, k: nat)
    requires n + k <= |events|
    ensures Run(s, events[..n + k]) == Run(Run(s, events[..n]), events[n..][..k])
  {
    hide Enabled, Next;
    if k > 0 {
      RunTail(s, events, n, k - 1);
      assert events[..n + k][..n + k - 1] == events[..n + k - 1];
      assert events[n..][..k][..k - 1] == events[n..][..k - 1];
      assert events[..n + k][n + k - 1] == events[n..][..k][k - 1];
    } else {
      assert events[n..][..0] == [];
    }
  }

  lemma LegalTail(s: State, events: seq<Event>, n: nat)
    requires Legal(s, events) && n <= |events|
    ensures Legal(Run(s, events[..n]), events[n..])
  {
    hide Enabled, Run;
    forall i | 0 <= i < |events| - n ensures Enabled(Run(Run(s, events[..n]), events[n..][..i]), events[n..][i]) {
      RunTail(s, events, n, i);
    }
  }

  lemma DrainingStep(s: State, e: Event)
    requires s.mode == Draining && InsideServe(e) && Enabled(s, e)
    ensures var s' := Next(s, e);
            && (s'.mode == Draining || s'.mode == Ended(ClipsClosed) || s'.mode == Ended(SendFailed))
            && (s'.mode == Ended(ClipsClosed) ==> s'.out.files == [] && !s'.out.filesOpen)
  {}

  lemma ServingStep(s: State, e: Event)
    requires s.mode == Serving && InsideServe(e) && Enabled(s, e)
    ensures var m := Next(s, e).mode; m == Serving || m == Draining || m.Ended?
  {}

  // What the events of a run say.

  /** The clips that were put on the outbound queue. */
  function PutClips(events: seq<Event>): seq<Frame> {
    if |events| == 0 then []
    else
      var e := events[|events| - 1];
      PutClips(events[..|events| - 1]) + (if e.PutClip? then [e.frame] else [])
  }

  function PutFiles(events: seq<Event>): seq<Frame> {
    if |events| == 0 then []
    else
      var e := events[|events| - 1];
      PutFiles(events[..|events| - 1]) + (if e.PutFile? then [e.frame] else [])
  }

  /** The clips that the server sent: the cached one in a welcome, and those relayed. */
  function ClipsHeard(events: seq<Event>): seq<ClipFrame> {
    if |events| == 0 then []
    else
      var e := events[|events| - 1];
      ClipsHeard(events[..|events| - 1])
      + (match e
         case Connected(Some(clip)) => [clip]
         case StreamArm(Hears(Clip(clip))) => [clip]
         case _ => [])
  }

  /** The file chunks that the server sent. */
  function ChunksHeard(events: seq<Event>): seq<FileChunkFrame> {
    if |events| == 0 then []
    else
      var e := events[|events| - 1];
      ChunksHeard(events[..|events| - 1])
      + (match e case StreamArm(Hears(FileChunk(chunk))) => [chunk] case _ => [])
  }

  // What a run takes off its queues.

  /** A frame taken off a queue, and whether the socket took it. */
  datatype Taken = Taken(frame: Frame, ok: bool)

  /** The clip at the head of its queue goes when the clip arm fires. */
  function ClipTaken(s: State, e: Event): seq<Taken> {
    if e.ClipArm? && |s.out.clips| > 0 then [Taken(s.out.clips[0], e.ok)] else []
  }

  /** The chunk at the head of its queue goes when the file arm fires, or the drain loop turns. */
  function FileTaken(s: State, e: Event): seq<Taken> {
    if (e.FileArm? || e.DrainArm?) && |s.out.files| > 0 then [Taken(s.out.files[0], e.ok)] else []
  }

  ghost function TookClips(s: State, events: seq<Event>): seq<Taken> {
    if |events| == 0 then []
    else
      var before := events[..|events| - 1];
      TookClips(s, before) + ClipTaken(Run(s, before), events[|events| - 1])
  }

  ghost function TookFiles(s: State, events: seq<Event>): seq<Taken> {
    if |events| == 0 then []
    else
      var before := events[..|events| - 1];
      TookFiles(s, before) + FileTaken(Run(s, before), events[|events| - 1])
  }

  /** The clips the supervisor got. */
  ghost function GotClips(s: State, events: seq<Event>): seq<ClipFrame> {
    if |events| == 0 then []
    else
      var before, e := events[..|events| - 1], events[|events| - 1];
      var q := Run(s, before).clipsIn.queue;
      GotClips(s, before) + (if e.TakeClipIn? && |q| > 0 then [q[0]] else [])
  }

  ghost function GotChunks(s: State, events: seq<Event>): seq<FileChunkFrame> {
    if |events| == 0 then []
    else
      var before, e := events[..|events| - 1], events[|events| - 1];
      var q := Run(s, before).filesIn.queue;
      GotChunks(s, before) + (if e.TakeFileIn? && |q| > 0 then [q[0]] else [])
  }

  /** How many connections a failed send has ended. */
  ghost function SendFailures(s: State, events: seq<Event>): nat {
    if |events| == 0 then 0
    else
      var before := events[..|events| - 1];
      SendFailures(s, before) + FailsNow(Run(s, before), Run(s, events))
  }

  function FailsNow(s: State, s': State): nat {
    if s'.mode == Ended(SendFailed) && s.mode != Ended(SendFailed) then 1 else 0
  }

  function FramesOf(taken: seq<Taken>): seq<Frame> {
    seq(|taken|, i requires 0 <= i < |taken| => taken[i].frame)
  }

  /** The frames the socket took, in order. */
  function Handed(taken: seq<Taken>): seq<Frame> {
    if |taken| == 0 then []
    else Handed(taken[..|taken| - 1]) + (if taken[|taken| - 1].ok then [taken[|taken| - 1].frame] else [])
  }

  function Lost(taken: seq<Taken>): nat {
    if |taken| == 0 then 0 else Lost(taken[..|taken| - 1]) + (if taken[|taken| - 1].ok then 0 else 1)
  }

  lemma TakenAppend(taken: seq<Taken>, t: Taken)
    ensures FramesOf(taken + [t]) == FramesOf(taken) + [t.frame]
    ensures Handed(taken + [t]) == Handed(taken) + (if t.ok then [t.frame] else [])
    ensures Lost(taken + [t]) == Lost(taken) + (if t.ok then 0 else 1)
  {
    assert (taken + [t])[..|taken|] == taken;
  }

  lemma {:induction false} HandedLength(taken: seq<Taken>)
    ensures |Handed(taken)| + Lost(taken) == |taken|
  {
    if |taken| > 0 {
      HandedLength(taken[..|taken| - 1]);
    }
  }

  // Conservation.

  /** One queue: what was put on it is what was taken off it and what it still holds. */
  ghost predicate Balanced(put: seq<Frame>, took: seq<Taken>, queue: seq<Frame>) {
    put == FramesOf(took) + queue
  }

  lemma PutBalances(put: seq<Frame>, took: seq<Taken>, queue: seq<Frame>, f: Frame)
    requires Balanced(put, took, queue)
    ensures Balanced(put + [f], took, queue + [f])
  {
    assert FramesOf(took) + (queue + [f]) == FramesOf(took) + queue + [f];
  }

  lemma TakeBalances(put: seq<Frame>, took: seq<Taken>, queue: seq<Frame>, ok: bool)
    requires Balanced(put, took, queue) && |queue| > 0
    ensures Balanced(put, took + [Taken(queue[0], ok)], queue[1..])
  {
    TakenAppend(took, Taken(queue[0], ok));
    assert FramesOf(took) + [queue[0]] + queue[1..] == FramesOf(took) + queue;
  }

  ghost predicate ClipsBalance(s: State, events: seq<Event>) {
    Balanced(PutClips(events), TookClips(s, events), Run(s, events).out.clips)
  }

  ghost predicate FilesBalance(s: State, events: seq<Event>) {
    Balanced(PutFiles(events), TookFiles(s, events), Run(s, events).out.files)
  }

  /** What one more event puts, takes and leaves. */
  lemma OutStep(s: State, e: Event)
    requires Enabled(s, e)
    ensures var (clips, files) := (s.out.clips, s.out.files);
            && Next(s, e).out.clips ==
                 (if e.PutClip? then clips + [e.frame] else if ClipTaken(s, e) != [] then clips[1..] else clips)
            && Next(s, e).out.files ==
                 (if e.PutFile? then files + [e.frame] else if FileTaken(s, e) != [] then files[1..] else files)
  {}

  /** The last event of a run. */
  lemma LastStep(s: State, events: seq<Event>)
    requires |events| > 0 && Legal(s, events)
    ensures var n := |events| - 1;
            && Legal(s, events[..n]) && Enabled(Run(s, events[..n]), events[n])
            && Run(s, events) == Next(Run(s, events[..n]), events[n])
  {
    hide Enabled, Next, Run;
    var n := |events| - 1;
    LegalPrefix(s, events, n);
    RunStep(s, events, n);
    assert events[..n + 1] == events;
  }

  lemma ClipsStep(s: State, e: Event, put: seq<Frame>, took: seq<Taken>)
    requires Enabled(s, e) && Balanced(put, took, s.out.clips)
    ensures Balanced(put + (if e.PutClip? then [e.frame] else []), took + ClipTaken(s, e), Next(s, e).out.clips)
  {
    OutStep(s, e);
    hide Next, Enabled, Balanced;
    assert put + [] == put && took + [] == took;
    if e.PutClip? {
      PutBalances(put, took, s.out.clips, e.frame);
    } else if e.ClipArm? && |s.out.clips| > 0 {
      TakeBalances(put, took, s.out.clips, e.ok);
    }
  }

  lemma FilesStep(s: State, e: Event, put: seq<Frame>, took: seq<Taken>)
    requires Enabled(s, e) && Balanced(put, took, s.out.files)
    ensures Balanced(put + (if e.PutFile? then [e.frame] else []), took + FileTaken(s, e), Next(s, e).out.files)
  {
    OutStep(s, e);
    hide Next, Enabled, Balanced;
    assert put + [] == put && took + [] == took;
    if e.PutFile? {
      PutBalances(put, took, s.out.files, e.frame);
    } else if (e.FileArm? || e.DrainArm?) && |s.out.files| > 0 {
      TakeBalances(put, took, s.out.files, e.ok);
    }
  }

  lemma {:induction false} OutBalances(s: State, events: seq<Event>)
    requires Legal(s, events) && s.out.clips == [] && s.out.files == []
    ensures ClipsBalance(s, events) && FilesBalance(s, events)
  {
    if |events| > 0 {
      var n := |events| - 1;
      var e, before, t := events[n], events[..n], Run(s, events[..n]);
      LastStep(s, events);
      OutBalances(s, before);
      ClipsStep(t, e, PutClips(before), TookClips(s, before));
      FilesStep(t, e, PutFiles(before), TookFiles(s, before));
      hide Next, Enabled, Run, Balanced, Legal, ClipTaken, FileTaken;
    }
  }

  /** A frame is lost exactly by the event that ends its connection with a failed send. */
  lemma LossStep(s: State, e: Event)
    requires Enabled(s, e)
    ensures Lost(ClipTaken(s, e)) + Lost(FileTaken(s, e)) == FailsNow(s, Next(s, e))
    ensures |ClipTaken(s, e)| <= 1 && |FileTaken(s, e)| <= 1
  {
    LostOne(ClipTaken(s, e));
    LostOne(FileTaken(s, e));
    hide Lost;
  }

  lemma LostOne(taken: seq<Taken>)
    requires |taken| <= 1
    ensures Lost(taken) == if |taken| == 1 && !taken[0].ok then 1 else 0
  {}

  lemma LostSplits(a: seq<Taken>, b: seq<Taken>)
    requires |b| <= 1
    ensures Lost(a + b) == Lost(a) + Lost(b)
  {
    if |b| == 0 {
      assert a + b == a;
    } else {
      TakenAppend(a, b[0]);
      LostOne(b);
      assert a + b == a + [b[0]];
    }
  }

  lemma {:induction false} LossesAreFailures(s: State, events: seq<Event>)
    requires Legal(s, events)
    ensures Lost(TookClips(s, events)) + Lost(TookFiles(s, events)) == SendFailures(s, events)
  {
    if |events| > 0 {
      var n := |events| - 1;
      var e, before, t := events[n], events[..n], Run(s, events[..n]);
      LastStep(s, events);
      LossesAreFailures(s, before);
      LossStep(t, e);
      hide Next, Enabled, Run, Legal, Lost, ClipTaken, FileTaken, FailsNow;
      LostSplits(TookClips(s, before), ClipTaken(t, e));
      LostSplits(TookFiles(s, before), FileTaken(t, e));
    }
  }

  /** What was heard and what the supervisor got: in order, and all of it while somebody listens. */
  ghost predicate Delivered<T>(heard: seq<T>, got: seq<T>, q: Inbound<T>) {
    if q.open then heard == got + q.queue else q.queue == [] && got <= heard
  }

  lemma HearDelivers<T>(heard: seq<T>, got: seq<T>, q: Inbound<T>, item: T)
    requires Delivered(heard, got, q)
    ensures Delivered(heard + [item], got, Hear(q, item))
  {
    assert got + (q.queue + [item]) == got + q.queue + [item];
  }

  lemma TakeDelivers<T>(heard: seq<T>, got: seq<T>, q: Inbound<T>)
    requires Delivered(heard, got, q) && |q.queue| > 0
    ensures Delivered(heard, got + [q.queue[0]], TakeIn(q))
  {
    assert got + [q.queue[0]] + q.queue[1..] == got + q.queue;
  }

  lemma ShutDelivers<T>(heard: seq<T>, got: seq<T>, q: Inbound<T>)
    requires Delivered(heard, got, q)
    ensures Delivered(heard, got, Shut(q))
  {}

  /** What one more event does to the inbound clips. */
  lemma ClipsInStep(s: State, e: Event)
    requires Enabled(s, e)
    ensures Next(s, e).filesWired == s.filesWired
    ensures Next(s, e).clipsIn ==
      match e
      case Connected(Some(clip)) => Hear(s.clipsIn, clip)
      case StreamArm(Hears(Clip(clip))) => Hear(s.clipsIn, clip)
      case TakeClipIn => TakeIn(s.clipsIn)
      case CloseClipsIn => Shut(s.clipsIn)
      case _ => s.clipsIn
    ensures e.TakeClipIn? ==> |s.clipsIn.queue| > 0
  {
    hide Hear, TakeIn, Shut;
  }

  lemma ChunksInStep(s: State, e: Event)
    requires Enabled(s, e)
    ensures Next(s, e).filesIn ==
      match e
      case StreamArm(Hears(FileChunk(chunk))) => if s.filesWired then Hear(s.filesIn, chunk) else s.filesIn
      case TakeFileIn => TakeIn(s.filesIn)
      case CloseFilesIn => Shut(s.filesIn)
      case _ => s.filesIn
    ensures e.TakeFileIn? ==> |s.filesIn.queue| > 0
  {
    hide Hear, TakeIn, Shut;
  }

  lemma {:induction false} ClipsDelivered(s: State, events: seq<Event>)
    requires Legal(s, events) && s.clipsIn == Inbound([], true)
    ensures Delivered(ClipsHeard(events), GotClips(s, events), Run(s, events).clipsIn)
    ensures Run(s, events).filesWired == s.filesWired
  {
    if |events| > 0 {
      var n := |events| - 1;
      var e, before, t := events[n], events[..n], Run(s, events[..n]);
      LastStep(s, events);
      ClipsDelivered(s, before);
      ClipsInStep(t, e);
      hide Next, Enabled, Run, Legal, Delivered, Hear, TakeIn, Shut;
      assert ClipsHeard(before) + [] == ClipsHeard(before) && GotClips(s, before) + [] == GotClips(s, before);
      match e {
        case Connected(Some(clip)) => HearDelivers(ClipsHeard(before), GotClips(s, before), t.clipsIn, clip);
        case StreamArm(Hears(Clip(clip))) => HearDelivers(ClipsHeard(before), GotClips(s, before), t.clipsIn, clip);
        case TakeClipIn => TakeDelivers(ClipsHeard(before), GotClips(s, before), t.clipsIn);
        case CloseClipsIn => ShutDelivers(ClipsHeard(before), GotClips(s, before), t.clipsIn);
        case _ =>
      }
    }
  }

  lemma {:induction false} ChunksDelivered(s: State, events: seq<Event>)
    requires Legal(s, events) && s.filesIn == Inbound([], true) && s.clipsIn == Inbound([], true)
    ensures Delivered(if s.filesWired then ChunksHeard(events) else [], GotChunks(s, events), Run(s, events).filesIn)
  {
    if |events| > 0 {
      var n := |events| - 1;
      var e, before, t := events[n], events[..n], Run(s, events[..n]);
      LastStep(s, events);
      ChunksDelivered(s, before);
      ClipsDelivered(s, before);
      ChunksInStep(t, e);
      hide Next, Enabled, Run, Legal, Delivered, Hear, TakeIn, Shut;
      var heard := if s.filesWired then ChunksHeard(before) else [];
      assert ChunksHeard(before) + [] == ChunksHeard(before) && GotChunks(s, before) + [] == GotChunks(s, before);
      match e {
        case StreamArm(Hears(FileChunk(chunk))) =>
          if s.filesWired {
            HearDelivers(heard, GotChunks(s, before), t.filesIn, chunk);
          }
        case TakeFileIn => TakeDelivers(heard, GotChunks(s, before), t.filesIn);
        case CloseFilesIn => ShutDelivers(heard, GotChunks(s, before), t.filesIn);
        case _ =>
      }
    }
  }

  /** The inbound law. Over every run and any number of reconnects, the clips of welcomes and relays,
      and the file chunks if anybody wants them, reach the supervisor in order: those it got and those
      still queued are a beginning of those the server sent, and all of them while it listens. */
  lemma InboundConservation(filesWired: bool, events: seq<Event>)
    requires Legal(Start(filesWired), events)
    ensures var s := Run(Start(filesWired), events);
            var (clips, chunks) := (GotClips(Start(filesWired), events), GotChunks(Start(filesWired), events));
            var sent := if filesWired then ChunksHeard(events) else [];
            && clips + s.clipsIn.queue <= ClipsHeard(events) && chunks + s.filesIn.queue <= sent
            && (s.clipsIn.open ==> ClipsHeard(events) == clips + s.clipsIn.queue)
            && (s.filesIn.open ==> sent == chunks + s.filesIn.queue)
  {
    ClipsDelivered(Start(filesWired), events);
    ChunksDelivered(Start(filesWired), events);
    hide Run, ClipsHeard, ChunksHeard, GotClips, GotChunks, Legal;
    assert GotClips(Start(filesWired), events) + [] == GotClips(Start(filesWired), events);
    assert GotChunks(Start(filesWired), events) + [] == GotChunks(Start(filesWired), events);
  }

  // How connections end.

  ghost predicate Sound(s: State) {
    && (s.mode == Ended(ClipsClosed) ==> s.out.clips == [] && s.out.files == [] && !s.out.clipsOpen && !s.out.filesOpen)
    && (s.mode == Ended(FilesClosed) ==> s.out.files == [] && !s.out.filesOpen)
    && (s.mode == Draining ==> s.out.clips == [] && !s.out.clipsOpen)
  }

  lemma NextSound(s: State, e: Event)
    requires Sound(s) && Enabled(s, e)
    ensures Sound(Next(s, e))
  {}

  lemma {:induction false} RunSound(filesWired: bool, events: seq<Event>)
    requires Legal(Start(filesWired), events)
    ensures Sound(Run(Start(filesWired), events))
  {
    if |events| > 0 {
      LastStep(Start(filesWired), events);
      RunSound(filesWired, events[..|events| - 1]);
      NextSound(Run(Start(filesWired), events[..|events| - 1]), events[|events| - 1]);
      hide Next, Enabled, Run, Sound;
    }
  }

  lemma LegalPrefix(s: State, events: seq<Event>, n: nat)
    requires Legal(s, events) && n <= |events|
    ensures Legal(s, events[..n])
  {
    hide Enabled, Run;
    forall i | 0 <= i < n ensures events[..n][..i] == events[..i] {}
  }

  /** The outbound law. Over every run and any number of reconnects, the frames put on each queue
      are, in order, those taken off it and those still queued; each frame taken went to the socket or
      was lost; and both queues together lost exactly one frame per connection that a failed send
      ended. */
  lemma TransportConservation(filesWired: bool, events: seq<Event>)
    requires Legal(Start(filesWired), events)
    ensures var s := Start(filesWired);
            var (clips, files, o) := (TookClips(s, events), TookFiles(s, events), Run(s, events).out);
            && PutClips(events) == FramesOf(clips) + o.clips
            && PutFiles(events) == FramesOf(files) + o.files
            && |PutClips(events)| + |PutFiles(events)| ==
                 |Handed(clips)| + |Handed(files)| + SendFailures(s, events) + |o.clips| + |o.files|
            && (SendFailures(s, events) == 0 <==>
                  PutClips(events) == Handed(clips) + o.clips && PutFiles(events) == Handed(files) + o.files)
  {
    var s := Start(filesWired);
    OutBalances(s, events);
    LossesAreFailures(s, events);
    var clips, files := TookClips(s, events), TookFiles(s, events);
    hide Run, TookClips, TookFiles, SendFailures, PutClips, PutFiles, Legal;
    HandedLength(clips);
    HandedLength(files);
    if SendFailures(s, events) == 0 {
      NothingLost(clips);
      NothingLost(files);
    }
  }

  lemma {:induction false} NothingLost(taken: seq<Taken>)
    requires Lost(taken) == 0
    ensures Handed(taken) == FramesOf(taken)
  {
    if |taken| > 0 {
      var n := |taken| - 1;
      NothingLost(taken[..n]);
      TakenAppend(taken[..n], taken[n]);
      assert taken[..n] + [taken[n]] == taken;
    }
  }

  /** Is a `connect_and_serve` call at work, or has it just returned? */
  predicate InCall(m: Mode) {
    m == Serving || m == Draining || m.Ended?
  }

  lemma StepLoss(s: State, e: Event)
    requires Enabled(s, e) && InsideServe(e) && InCall(s.mode)
    ensures InCall(Next(s, e).mode)
    ensures s.mode.Ended? ==> Next(s, e).mode == s.mode
  {}

  lemma {:induction false} OneFailure(s: State, events: seq<Event>)
    requires s.mode == Serving && Legal(s, events) && Inside(events)
    ensures var s' := Run(s, events);
            InCall(s'.mode) && SendFailures(s, events) == if s'.mode == Ended(SendFailed) then 1 else 0
  {
    hide Next, Enabled, InsideServe;
    if |events| > 0 {
      var n := |events| - 1;
      LastStep(s, events);
      assert events[n] in events && forall e :: e in events[..n] ==> e in events;
      OneFailure(s, events[..n]);
      StepLoss(Run(s, events[..n]), events[n]);
      hide Run, Legal;
    }
  }

  /** From the start of a connection to its end at most one frame is lost, over both queues, and
      exactly when a failed send is what ends it. */
  lemma OneLossPerConnection(s: State, events: seq<Event>)
    requires s.mode == Serving && Legal(s, events) && Inside(events)
    ensures Lost(TookClips(s, events)) + Lost(TookFiles(s, events))
         == if Run(s, events).mode == Ended(SendFailed) then 1 else 0
  {
    OneFailure(s, events);
    LossesAreFailures(s, events);
  }

  // When the loop stops, and when a connection has nobody to talk to.

  /** The channels are open until they are closed. */
  ghost predicate OpenSoFar(s: State, events: seq<Event>) {
    && (s.out.clipsOpen <==> CloseClips !in events) && (s.out.filesOpen <==> CloseFiles !in events)
    && (s.clipsIn.open <==> CloseClipsIn !in events) && (s.filesIn.open <==> CloseFilesIn !in events)
  }

  ghost predicate OpenAt(filesWired: bool, events: seq<Event>) {
    var s := Run(Start(filesWired), events);
    OpenSoFar(s, events) && s.filesWired == filesWired
  }

  lemma {:induction false} OpenUntilClosed(filesWired: bool, events: seq<Event>)
    requires Legal(Start(filesWired), events)
    ensures OpenAt(filesWired, events)
  {
    hide OpenAt, Legal;
    if |events| == 0 {
      OpenAtStart(filesWired);
    } else {
      LastStep(Start(filesWired), events);
      OpenUntilClosed(filesWired, events[..|events| - 1]);
      OpenNext(filesWired, events);
    }
  }

  lemma OpenAtStart(filesWired: bool)
    ensures OpenAt(filesWired, [])
  {}

  lemma OpenNext(filesWired: bool, events: seq<Event>)
    requires |events| > 0 && Legal(Start(filesWired), events) && OpenAt(filesWired, events[..|events| - 1])
    ensures OpenAt(filesWired, events)
  {
    hide Next, Enabled, Run, Legal, OpenSoFar;
    var n := |events| - 1;
    var before := Run(Start(filesWired), events[..n]);
    LastStep(Start(filesWired), events);
    OpenStep(before, events[n]);
    OpenAppend(before, Next(before, events[n]), events[..n], events[n]);
    assert events == events[..n] + [events[n]];
  }

  lemma OpenAppend(s: State, s': State, events: seq<Event>, e: Event)
    requires OpenSoFar(s, events)
    requires s'.out.clipsOpen <==> s.out.clipsOpen && e != CloseClips
    requires s'.out.filesOpen <==> s.out.filesOpen && e != CloseFiles
    requires s'.clipsIn.open <==> s.clipsIn.open && e != CloseClipsIn
    requires s'.filesIn.open <==> s.filesIn.open && e != CloseFilesIn
    ensures OpenSoFar(s', events + [e])
  {}

  lemma OpenStep(s: State, e: Event)
    requires Enabled(s, e)
    ensures var s' := Next(s, e);
            && (s'.out.clipsOpen <==> s.out.clipsOpen && e != CloseClips)
            && (s'.out.filesOpen <==> s.out.filesOpen && e != CloseFiles)
            && (s'.clipsIn.open <==> s.clipsIn.open && e != CloseClipsIn)
            && (s'.filesIn.open <==> s.filesIn.open && e != CloseFilesIn)
            && s'.filesWired == s.filesWired
  {}

  /** The stop rule: after a connection or an attempt has ended, the loop stops exactly when it was
      asked for one connection or the outbound clip channel has been closed, and else connects again;
      and once it has stopped it stays so. */
  lemma StopsIff(filesWired: bool, events: seq<Event>, oneShot: bool)
    requires Legal(Start(filesWired), events) && Run(Start(filesWired), events).mode.Ended?
    ensures Enabled(Run(Start(filesWired), events), Decide(oneShot))
    ensures Next(Run(Start(filesWired), events), Decide(oneShot)).mode ==
      if oneShot || CloseClips in events then Stopped else Connecting
  {
    OpenUntilClosed(filesWired, events);
    var t := Run(Start(filesWired), events);
    hide Run, Legal;
    DecideStep(t, oneShot);
  }

  lemma DecideStep(s: State, oneShot: bool)
    requires s.mode.Ended?
    ensures Enabled(s, Decide(oneShot))
    ensures Next(s, Decide(oneShot)).mode == if oneShot || !s.out.clipsOpen then Stopped else Connecting
  {}

  lemma StaysStopped(s: State, e: Event)
    requires s.mode == Stopped && Enabled(s, e)
    ensures Next(s, e).mode == Stopped
  {}

  /** A frame from the server ends its connection exactly when it is for a listener that has gone. */
  lemma ListenerGoneIff(filesWired: bool, events: seq<Event>, frame: Frame)
    requires Legal(Start(filesWired), events) && Enabled(Run(Start(filesWired), events), StreamArm(Hears(frame)))
    ensures Next(Run(Start(filesWired), events), StreamArm(Hears(frame))).mode ==
      if (frame.Clip? && CloseClipsIn in events) || (frame.FileChunk? && filesWired && CloseFilesIn in events)
      then Ended(ReceiverGone) else Serving
  {
    OpenUntilClosed(filesWired, events);
    var t := Run(Start(filesWired), events);
    hide Run, Legal, Next, Enabled;
    HearStep(t, frame);
  }

  lemma HearStep(s: State, frame: Frame)
    requires Enabled(s, StreamArm(Hears(frame)))
    ensures Next(s, StreamArm(Hears(frame))).mode ==
      if (frame.Clip? && !s.clipsIn.open) || (frame.FileChunk? && s.filesWired && !s.filesIn.open)
      then Ended(ReceiverGone) else Serving
  {}

  // What a connection that has ended leaves queued.

  ghost predicate EndsBy(events: seq<Event>, exit: Exit) {
    Legal(Start(true), events) && Run(Start(true), events).mode == Ended(exit)
  }

  /** Would the loop stop for good here, rather than connect again? */
  predicate StopsNow(s: State) {
    s.mode.Ended? && !s.out.clipsOpen
  }

  lemma Snoc(s: State, events: seq<Event>, e: Event)
    requires Legal(s, events) && Enabled(Run(s, events), e)
    ensures Legal(s, events + [e]) && Run(s, events + [e]) == Next(Run(s, events), e)
  {
    hide Enabled, Next;
    var all := events + [e];
    assert all[..|events|] == events;
    forall i | 0 <= i < |all| ensures Enabled(Run(s, all[..i]), all[i]) {
      assert i < |events| ==> all[..i] == events[..i];
    }
  }

  /** Both channels closed with a clip and a chunk queued, and nobody listening inside. */
  function Loaded(clip: Frame, chunk: Frame): State {
    Start(true).(out := Outward([clip], [chunk], false, false), clipsIn := Inbound([], false))
  }

  lemma LoadedRun(clip: Frame, chunk: Frame) returns (events: seq<Event>)
    ensures Legal(Start(true), events) && Run(Start(true), events) == Loaded(clip, chunk)
  {
    hide Run, Legal;
    events := [];
    RunsNowhere(Start(true));
    Snoc(Start(true), events, PutClip(clip));
    events := events + [PutClip(clip)];
    Snoc(Start(true), events, PutFile(chunk));
    events := events + [PutFile(chunk)];
    Snoc(Start(true), events, CloseClips);
    events := events + [CloseClips];
    Snoc(Start(true), events, CloseFiles);
    events := events + [CloseFiles];
    Snoc(Start(true), events, CloseClipsIn);
    events := events + [CloseClipsIn];
  }

  lemma RunsNowhere(s: State)
    ensures Legal(s, []) && Run(s, []) == s
  {}

  /** Every exit but the one through the closed clip channel can leave a frame behind for good. */
  lemma Leftover(exit: Exit, clip: Frame, chunk: Frame, inside: ClipFrame) returns (events: seq<Event>)
    requires exit != ClipsClosed
    ensures EndsBy(events, exit) && StopsNow(Run(Start(true), events))
    ensures var o := Run(Start(true), events).out;
            (exit == FilesClosed ==> o.clips == [clip]) && (exit != FilesClosed ==> o.files == [chunk])
  {
    hide Run, Legal;
    events := LoadedRun(clip, chunk);
    if exit == NotConnected {
      Snoc(Start(true), events, ConnectFails);
      events := events + [ConnectFails];
    } else {
      Snoc(Start(true), events, Connected(None));
      events := events + [Connected(None)];
      if exit == FilesClosed {
        Snoc(Start(true), events, FileArm(true));
        events := events + [FileArm(true)];
      }
      var last := match exit
        case FilesClosed => FileArm(true)
        case SendFailed => ClipArm(false)
        case PingFailed => PingFails
        case StreamEnded => StreamArm(Ends)
        case _ => StreamArm(Hears(Clip(inside)));
      Snoc(Start(true), events, last);
      events := events + [last];
    }
  }

  /** Which exits abandon nothing. A connection that ends leaves both queues empty, in every run,
      exactly when what ended it is the closed clip channel; it leaves the file queue empty exactly when
      it is one of the closed channels; and neither changes if only ends are counted after which the
      loop stops for good. */
  lemma ExitLeavesNothingIff(exit: Exit)
    ensures (forall events :: EndsBy(events, exit) ==>
               Run(Start(true), events).out.clips == [] && Run(Start(true), events).out.files == [])
            <==> exit == ClipsClosed
    ensures (forall events :: EndsBy(events, exit) ==> Run(Start(true), events).out.files == [])
            <==> exit == ClipsClosed || exit == FilesClosed
    ensures (forall events :: EndsBy(events, exit) && StopsNow(Run(Start(true), events)) ==>
               Run(Start(true), events).out.clips == [] && Run(Start(true), events).out.files == [])
            <==> exit == ClipsClosed
  {
    hide Run, Legal;
    forall events | EndsBy(events, exit)
      ensures Sound(Run(Start(true), events))
    {
      RunSound(true, events);
    }
    if exit != ClipsClosed {
      var clip := ClipFrame("", 0, "", None, None, None);
      var events := Leftover(exit, Clip(clip), Clip(clip), clip);
      assert EndsBy(events, exit) && StopsNow(Run(Start(true), events));
    }
  }

  /** A connection that ends through a closed outbound channel leaves no file chunk queued, and none
      can be queued any more; it leaves no clip either when the clip channel was the one seen closed. */
  lemma ClosedExitLeavesNoFiles(filesWired: bool, events: seq<Event>)
    requires Legal(Start(filesWired), events)
    ensures var s := Run(Start(filesWired), events);
            && (s.mode == Ended(FilesClosed) ==> s.out.files == [] && !s.out.filesOpen)
            && (s.mode == Ended(ClipsClosed) ==>
                  s.out.files == [] && !s.out.filesOpen && s.out.clips == [] && !s.out.clipsOpen)
  {
    RunSound(filesWired, events);
  }

  // Closing the file channel under a connection at work.

  /** In every continuation that ends through the closed file channel, no clip is left. */
  ghost predicate StrandsNoClip(s: State) {
    forall events :: Legal(s, events) && Inside(events) && Run(s, events).mode == Ended(FilesClosed) ==>
      Run(s, events).out.clips == []
  }

  lemma {:induction false} ClosedStaysEmpty(s: State, events: seq<Event>)
    requires Legal(s, events) && s.out.clips == [] && !s.out.clipsOpen
    ensures Run(s, events).out.clips == [] && !Run(s, events).out.clipsOpen
  {
    hide Enabled, Next;
    if |events| > 0 {
      var n := |events| - 1;
      LegalPrefix(s, events, n);
      ClosedStaysEmpty(s, events[..n]);
      EmptyStep(Run(s, events[..n]), events[n]);
    }
  }

  lemma EmptyStep(s: State, e: Event)
    requires s.out.clips == [] && !s.out.clipsOpen && Enabled(s, e)
    ensures Next(s, e).out.clips == [] && !Next(s, e).out.clipsOpen
  {}

  /** The file arm may fire until it finds its channel closed and empty. */
  lemma FileArmOnly(s: State, before: seq<Event>, clips: seq<Frame>) returns (events: seq<Event>)
    requires Legal(s, before) && Inside(before)
    requires var t := Run(s, before); t.mode == Serving && !t.out.filesOpen && t.out.clips == clips
    ensures Legal(s, events) && Inside(events)
    ensures Run(s, events).mode == Ended(FilesClosed) && Run(s, events).out.clips == clips
    decreases |Run(s, before).out.files|
  {
    var t := Run(s, before);
    hide Run, Legal;
    Snoc(s, before, FileArm(true));
    events := before + [FileArm(true)];
    if |t.out.files| > 0 {
      events := FileArmOnly(s, events, clips);
    }
  }

  /** The caller's side: closing the file channel under a connection never strands a clip exactly when
      the clip queue is empty and closed already. */
  lemma CloseFilesIsSafeIff(s: State)
    requires s.mode == Serving && s.out.filesOpen
    ensures StrandsNoClip(Next(s, CloseFiles)) <==> s.out.clips == [] && !s.out.clipsOpen
  {
    var t := Next(s, CloseFiles);
    if s.out.clips == [] && !s.out.clipsOpen {
      hide Run, Legal;
      forall events | Legal(t, events) && Inside(events) && Run(t, events).mode == Ended(FilesClosed)
        ensures Run(t, events).out.clips == []
      {
        ClosedStaysEmpty(t, events);
      }
    } else {
      RunsNowhere(t);
      hide Run, Legal;
      var before: seq<Event> := [];
      if s.out.clips == [] {
        var clip := Clip(ClipFrame("", 0, "", None, None, None));
        Snoc(t, before, PutClip(clip));
        before := before + [PutClip(clip)];
      }
      var events := FileArmOnly(t, before, Run(t, before).out.clips);
      assert Run(t, events).out.clips != [];
    }
  }
}
