/** What a client sees of the publish log, and the grammar of everything its socket carries. */
module ServerStream {
  import opened Wrappers
  import opened Protocol
  import opened Hub
  import opened Server
  import opened ServerCapacity

  function OriginOf(frame: Frame): Option<Uuid> {
    match frame
    case Clip(clip) => clip.from
    case FileChunk(chunk) => chunk.from
    case _ => None
  }

  /** The log without a client's own frames. */
  function Others(log: seq<Frame>, id: Uuid): seq<Frame> {
    if |log| == 0 then []
    else
      var last := log[|log| - 1];
      Others(log[..|log| - 1], id) + (if OriginOf(last) == Some(id) then [] else [last])
  }

  function ClipsIn(frames: seq<Frame>): seq<ClipFrame> {
    if |frames| == 0 then []
    else
      var last := frames[|frames| - 1];
      ClipsIn(frames[..|frames| - 1]) + (if last.Clip? then [last.clip] else [])
  }

  function ChunksIn(frames: seq<Frame>): seq<FileChunkFrame> {
    if |frames| == 0 then []
    else
      var last := frames[|frames| - 1];
      ChunksIn(frames[..|frames| - 1]) + (if last.FileChunk? then [last.chunk] else [])
  }

  function LastClip(log: seq<Frame>): Option<ClipFrame> {
    var clips := ClipsIn(log);
    if |clips| == 0 then None else Some(clips[|clips| - 1])
  }

  /** `a` is `b` with some entries left out: same order, no repeats. */
  ghost predicate Subsequence<T>(a: seq<T>, b: seq<T>) {
    |a| == 0
    || (|b| > 0 && a[|a| - 1] == b[|b| - 1] && Subsequence(a[..|a| - 1], b[..|b| - 1]))
    || (|b| > 0 && Subsequence(a, b[..|b| - 1]))
  }

  lemma SubsequenceGrows<T>(a: seq<T>, b: seq<T>, x: T)
    requires Subsequence(a, b)
    ensures Subsequence(a, b + [x]) && Subsequence(a + [x], b + [x])
  {
    assert (a + [x])[..|a|] == a && (b + [x])[..|b|] == b;
  }

  lemma {:induction false} SubsequenceLength<T>(a: seq<T>, b: seq<T>)
    requires Subsequence(a, b)
    ensures |a| <= |b| && (|a| == |b| <==> a == b)
  {
    if |a| > 0 {
      var a', b' := a[..|a| - 1], b[..|b| - 1];
      if a[|a| - 1] == b[|b| - 1] && Subsequence(a', b') {
        SubsequenceLength(a', b');
        assert a == a' + [a[|a| - 1]] && b == b' + [b[|b| - 1]];
      } else {
        SubsequenceLength(a, b');
      }
    }
  }

  lemma FramesAppend(frames: seq<Frame>, f: Frame)
    ensures ClipsIn(frames + [f]) == ClipsIn(frames) + (if f.Clip? then [f.clip] else [])
    ensures ChunksIn(frames + [f]) == ChunksIn(frames) + (if f.FileChunk? then [f.chunk] else [])
  {
    assert (frames + [f])[..|frames|] == frames;
  }

  lemma OthersAppend(log: seq<Frame>, x: Frame, id: Uuid)
    ensures Others(log + [x], id) == Others(log, id) + (if OriginOf(x) == Some(id) then [] else [x])
  {
    assert (log + [x])[..|log|] == log;
  }

  // A client's part of the log.

  /** A channel took some of what it was offered, in order, and every other item is accounted for. */
  ghost predicate TapOk<T>(tap: Tap<T>, offered: seq<T>) {
    Subsequence(tap.queued, offered) && |tap.queued| + tap.full + tap.closed == |offered|
  }

  lemma OfferKeepsTap<T>(tap: Tap<T>, offered: seq<T>, item: T, open: bool, room: bool)
    requires TapOk(tap, offered)
    ensures TapOk(Offered(tap, item, open, room), offered + [item])
  {
    hide Subsequence;
    SubsequenceGrows(tap.queued, offered, item);
  }

  ghost predicate ViewOk(v: View, log: seq<Frame>, member: bool, id: Uuid) {
    && v.since <= v.until <= |log|
    && v.snapshot == LastClip(log[..v.since])
    && TapOk(v.clips, ClipsIn(Others(log[v.since..v.until], id)))
    && TapOk(v.files, ChunksIn(Others(log[v.since..v.until], id)))
    && (member ==> v.until == |log|)
  }

  ghost predicate Stamped(frame: Frame) {
    (frame.Clip? || frame.FileChunk?) && OriginOf(frame).Some?
  }

  ghost predicate StreamInv(s: Server) {
    && s.hub.lastClip == LastClip(s.log)
    && s.hub.clients <= s.views.Keys
    && (forall id :: id in s.views ==> ViewOk(s.views[id], s.log, id in s.hub.clients, id))
    && (forall i :: 0 <= i < |s.log| ==> Stamped(s.log[i]))
  }

  lemma LaterEntryKeepsView(v: View, log: seq<Frame>, member: bool, id: Uuid, frame: Frame)
    requires ViewOk(v, log, member, id)
    ensures ViewOk(v, log + [frame], false, id)
  {
    hide Others, TapOk, LastClip;
    assert (log + [frame])[v.since..v.until] == log[v.since..v.until];
    assert (log + [frame])[..v.since] == log[..v.since];
  }

  /** The entry a member is offered extends its part of the log, whether its channel takes it or not. */
  lemma OfferedEntryKeepsView(v: View, log: seq<Frame>, id: Uuid, from: Uuid, frame: Frame, o: Outbox)
    requires ViewOk(v, log, true, id) && Stamped(frame) && OriginOf(frame) == Some(from)
    ensures from == id ==> ViewOk(v.(until := |log| + 1), log + [frame], true, id)
    ensures from != id ==> ViewOk(OfferedTo(v, o, frame).(until := |log| + 1), log + [frame], true, id)
  {
    hide Others, ClipsIn, ChunksIn, TapOk, LastClip, Offered;
    var part := log[v.since..v.until];
    var offered := Others(part, id);
    assert (log + [frame])[v.since..|log| + 1] == part + [frame];
    assert (log + [frame])[..v.since] == log[..v.since];
    OthersAppend(part, frame, id);
    FramesAppend(offered, frame);
    assert offered + [] == offered && ClipsIn(offered) + [] == ClipsIn(offered) && ChunksIn(offered) + [] == ChunksIn(offered);
    match frame
    case Clip(clip) => OfferKeepsTap(v.clips, ClipsIn(offered), clip, o.open, |o.clips| < PER_CLIENT_CHANNEL_BUF);
    case FileChunk(chunk) => OfferKeepsTap(v.files, ChunksIn(offered), chunk, o.open, |o.files| < PER_CLIENT_FILE_CHANNEL_BUF);
    case _ =>
  }

  lemma PostKeepsView(s: Server, from: Uuid, frame: Frame, id: Uuid)
    requires StreamInv(s) && id in s.views && Stamped(frame) && OriginOf(frame) == Some(from)
    requires s.hub.clients <= s.hub.outboxes.Keys
    ensures ViewOk(SeenBy(s.views[id], id, s.hub, from, frame, |s.log| + 1), s.log + [frame], id in s.hub.clients, id)
  {
    hide ViewOk, OfferedTo;
    LaterEntryKeepsView(s.views[id], s.log, id in s.hub.clients, id, frame);
    if id in s.hub.clients {
      OfferedEntryKeepsView(s.views[id], s.log, id, from, frame, s.hub.outboxes[id]);
    }
  }

  lemma LeavingKeepsView(v: View, log: seq<Frame>, id: Uuid)
    requires ViewOk(v, log, true, id)
    ensures ViewOk(v, log, false, id)
  {}

  function PostedFrame(msg: Message): Frame
    requires msg.Publish? || msg.PublishFile?
  {
    if msg.Publish? then Clip(msg.clip.(from := Some(msg.from))) else FileChunk(msg.chunk.(from := Some(msg.from)))
  }

  /** What a publish changes besides the channels. */
  lemma PostFrame(s: Server)
    requires Enabled(s, HubHandles) && (s.inbox[0].Publish? || s.inbox[0].PublishFile?)
    ensures var s', msg := Next(s, HubHandles), s.inbox[0];
            var frame := PostedFrame(msg);
            && s'.log == s.log + [frame] && s'.views.Keys == s.views.Keys && s'.conns == s.conns
            && s'.hub.clients == s.hub.clients
            && s'.hub.lastClip == (if msg.Publish? then Some(frame.clip) else s.hub.lastClip)
            && s'.hub.outboxes == FanOut(s.hub.outboxes, s.hub.clients - {msg.from}, frame)
            && forall id :: id in s.views ==> s'.views[id] == SeenBy(s.views[id], id, s.hub, msg.from, frame, |s.log| + 1)
  {
    hide SeenBy, Offer;
  }

  lemma StreamPublish(s: Server)
    requires StreamInv(s) && Enabled(s, HubHandles) && (s.inbox[0].Publish? || s.inbox[0].PublishFile?)
    ensures StreamInv(Next(s, HubHandles))
  {
    PostFrame(s);
    var s', msg := Next(s, HubHandles), s.inbox[0];
    assert s.hub.clients <= s.hub.outboxes.Keys;
    hide Next, Enabled, FanOut, StreamInv, SeenBy;
    PostedStream(s, s', msg.from, PostedFrame(msg));
  }

  lemma PostedStream(s: Server, s': Server, from: Uuid, frame: Frame)
    requires StreamInv(s) && Stamped(frame) && OriginOf(frame) == Some(from) && s.hub.clients <= s.hub.outboxes.Keys
    requires s'.log == s.log + [frame] && s'.views.Keys == s.views.Keys && s'.hub.clients == s.hub.clients
    requires s'.hub.lastClip == if frame.Clip? then Some(frame.clip) else s.hub.lastClip
    requires forall id :: id in s.views ==> s'.views[id] == SeenBy(s.views[id], id, s.hub, from, frame, |s.log| + 1)
    ensures StreamInv(s')
  {
    hide ViewOk, SeenBy, ClipsIn, Stamped;
    FramesAppend(s.log, frame);
    assert ClipsIn(s.log) + [] == ClipsIn(s.log);
    forall id | id in s'.views ensures ViewOk(s'.views[id], s'.log, id in s'.hub.clients, id) {
      PostKeepsView(s, from, frame, id);
    }
  }

  lemma StreamRegister(s: Server)
    requires StreamInv(s) && Enabled(s, HubHandles) && s.inbox[0].Register?
    ensures StreamInv(Next(s, HubHandles))
  {
    hide Counted, ViewOk, LastClip;
    NothingOffered(s, s.inbox[0].id);
  }

  lemma StreamLeave(s: Server)
    requires StreamInv(s) && Enabled(s, HubHandles) && s.inbox[0].Deregister?
    ensures StreamInv(Next(s, HubHandles))
  {
    hide Counted, FanOut, ViewOk, LastClip;
    var msg := s.inbox[0];
    if msg.id in s.hub.clients {
      LeavingKeepsView(s.views[msg.id], s.log, msg.id);
    }
  }

  lemma StreamHubStep(s: Server)
    requires StreamInv(s) && Enabled(s, HubHandles)
    ensures StreamInv(Next(s, HubHandles))
  {
    hide Next, StreamInv;
    match s.inbox[0]
    case Publish(_, _) => StreamPublish(s);
    case PublishFile(_, _) => StreamPublish(s);
    case Register(_) => StreamRegister(s);
    case Deregister(_) => StreamLeave(s);
  }

  lemma NothingOffered(s: Server, id: Uuid)
    requires StreamInv(s)
    ensures ViewOk(NewView(|s.log|, s.hub.lastClip), s.log, true, id)
  {
    assert s.log[|s.log|..|s.log|] == [] && s.log[..|s.log|] == s.log;
  }

  lemma WriteOutViews(s: Server, id: Uuid, frame: Frame, ok: bool)
    requires id in s.conns
    ensures var s' := WriteOut(s, id, frame, ok);
            && s'.log == s.log && s'.views == s.views
            && s'.hub.lastClip == s.hub.lastClip && s'.hub.clients == s.hub.clients
  {}

  lemma StreamFrame(s: Server, step: Step)
    requires Enabled(s, step) && !step.HubHandles?
    ensures var s' := Next(s, step);
            && s'.log == s.log && s'.views == s.views
            && s'.hub.lastClip == s.hub.lastClip && s'.hub.clients == s.hub.clients
  {
    hide WriteOut;
    match step
    case WriteInternal(id, ok) =>
      var c := s.conns[id];
      WriteOutViews(WithConn(s, id, c.(internal := c.internal[1..])), id, c.internal[0], ok);
    case WriteClip(id, ok) =>
      var o := s.hub.outboxes[id];
      WriteOutViews(WithOutbox(s, id, o.(clips := o.clips[1..])), id, Clip(o.clips[0]), ok);
    case WriteFile(id, ok) =>
      var o := s.hub.outboxes[id];
      WriteOutViews(WithOutbox(s, id, o.(files := o.files[1..])), id, FileChunk(o.files[0]), ok);
    case _ =>
  }

  lemma StreamStep(s: Server, step: Step)
    requires StreamInv(s) && Enabled(s, step)
    ensures StreamInv(Next(s, step))
  {
    if step.HubHandles? {
      StreamHubStep(s);
    } else {
      StreamFrame(s, step);
      hide Next, Enabled, ViewOk;
    }
  }

  // The socket's output.

  /** The welcome, then clips and file chunks. */
  ghost predicate Talking(sent: seq<Frame>, welcome: Frame) {
    |sent| > 0 && sent[0] == welcome && forall i :: 1 <= i < |sent| ==> sent[i].Clip? || sent[i].FileChunk?
  }

  /** At most one error, and nothing after it. */
  ghost predicate Grammar(sent: seq<Frame>, welcome: Frame) {
    || sent == []
    || Talking(sent, welcome)
    || (|sent| > 0 && sent[|sent| - 1].Error? && Talking(sent[..|sent| - 1], welcome))
  }

  ghost predicate OnlyError(frames: seq<Frame>) {
    |frames| == 1 && frames[0].Error?
  }

  /** What is written and what waits on the internal channel. */
  ghost predicate OutputOk(c: Conn, welcome: Frame) {
    && (if c.writer then
          || (c.sent == [] && |c.internal| > 0 && c.internal[0] == welcome
              && (|c.internal| == 1 || (OnlyError(c.internal[1..]) && !c.reader)))
          || (Talking(c.sent, welcome) && (c.internal == [] || (OnlyError(c.internal) && !c.reader)))
        else Grammar(c.sent, welcome))
  }

  ghost predicate Quiet(c: Conn) {
    c.internal == [] && c.sent == [] && !c.reader && !c.writer
  }

  /** While a channel's receiver lives, what it took is written or still waiting, in order, and it
      refused nothing for being closed; afterwards what was written is the beginning of what it took. */
  ghost predicate Piped<T>(open: bool, written: seq<T>, waiting: seq<T>, tap: Tap<T>) {
    if open then written + waiting == tap.queued && tap.closed == 0 else written <= tap.queued
  }

  /** One connection with its record and its channels, from the hub's acceptance on. */
  ghost predicate JoinedOk(id: Uuid, c: Conn, v: View, o: Outbox) {
    && Piped(o.open, ClipsIn(c.sent), o.clips, v.clips)
    && Piped(o.open, ChunksIn(c.sent), o.files, v.files)
    && (if c.phase.Acked? then Quiet(c) && c.phase.lastClip == v.snapshot && o.open
        else
          && (c.phase.Serving? || c.phase.Leaving? || c.phase.Gone?)
          && OutputOk(c, Welcome(id, v.snapshot)) && (c.writer <==> o.open))
  }

  ghost predicate ConnOk(s: Server, id: Uuid) {
    id in s.conns &&
    var c := s.conns[id];
    if id !in s.views then
      Quiet(c) && (c.phase.Admitted? || c.phase.Registering? || c.phase.Refused? || c.phase.Gone?)
    else
      id in s.hub.outboxes && JoinedOk(id, c, s.views[id], s.hub.outboxes[id])
  }

  ghost predicate DeliveryInv(s: Server) {
    s.views.Keys <= s.conns.Keys && forall id :: id in s.conns ==> ConnOk(s, id)
  }

  /** A publish reaches a channel exactly when the client's record says so. */
  lemma OfferKeepsPipes(id: Uuid, c: Conn, v: View, o: Outbox, frame: Frame)
    requires JoinedOk(id, c, v, o)
    ensures JoinedOk(id, c, OfferedTo(v, o, frame), Offer(o, frame))
  {
    hide OutputOk, Quiet, ClipsIn, ChunksIn;
    match frame
    case Clip(clip) => assert ClipsIn(c.sent) + o.clips + [clip] == ClipsIn(c.sent) + (o.clips + [clip]);
    case FileChunk(chunk) => assert ChunksIn(c.sent) + o.files + [chunk] == ChunksIn(c.sent) + (o.files + [chunk]);
    case _ =>
  }

  lemma UntilKeepsPipes(id: Uuid, c: Conn, v: View, o: Outbox, until: nat)
    requires JoinedOk(id, c, v, o)
    ensures JoinedOk(id, c, v.(until := until), o)
  {}

  lemma PublishKeepsConn(s: Server, id: Uuid)
    requires DeliveryInv(s) && Enabled(s, HubHandles) && (s.inbox[0].Publish? || s.inbox[0].PublishFile?) && id in s.conns
    ensures ConnOk(Next(s, HubHandles), id)
  {
    PostFrame(s);
    hide Next, JoinedOk, Offer, OfferedTo, Quiet;
    assert ConnOk(s, id);
    if id in s.views {
      var c, v, o := s.conns[id], s.views[id], s.hub.outboxes[id];
      OfferKeepsPipes(id, c, v, o, PostedFrame(s.inbox[0]));
      UntilKeepsPipes(id, c, v, o, |s.log| + 1);
      UntilKeepsPipes(id, c, OfferedTo(v, o, PostedFrame(s.inbox[0])), Offer(o, PostedFrame(s.inbox[0])), |s.log| + 1);
    }
  }

  lemma LeavingKeepsConn(s: Server, id: Uuid)
    requires DeliveryInv(s) && Enabled(s, HubHandles) && id in s.conns && s.inbox[0].Deregister?
    ensures ConnOk(Next(s, HubHandles), id)
  {
    hide JoinedOk, Quiet, Counted;
    assert ConnOk(s, id);
  }

  lemma NewcomerOk(id: Uuid, c: Conn, length: nat, snapshot: Option<ClipFrame>)
    requires Quiet(c)
    ensures JoinedOk(id, c.(phase := Acked(snapshot)), NewView(length, snapshot), Outbox([], [], true))
  {}

  lemma RegisterKeepsConn(s: Server, id: Uuid)
    requires DeliveryInv(s) && Enabled(s, HubHandles) && id in s.conns
    requires s.inbox[0].Register? && InPhase(s, s.inbox[0].id, Registering) && |s.hub.clients| < s.maxConns
    ensures ConnOk(Next(s, HubHandles), id)
  {
    assert ConnOk(s, id);
    if id == s.inbox[0].id {
      NewcomerOk(id, s.conns[id], |s.log|, s.hub.lastClip);
    }
    hide JoinedOk, NewView, Quiet, Counted;
  }

  lemma HubKeepsConn(s: Server, id: Uuid)
    requires CapacityInv(s) && DeliveryInv(s) && Enabled(s, HubHandles) && id in s.conns
    ensures ConnOk(Next(s, HubHandles), id)
  {
    hide Next, DeliveryInv, ConnOk;
    if s.inbox[0].Register? {
      HeadWaits(s);
      HeadIsAccepted(s);
      RegisterKeepsConn(s, id);
    } else if s.inbox[0].Publish? || s.inbox[0].PublishFile? {
      PublishKeepsConn(s, id);
    } else {
      LeavingKeepsConn(s, id);
    }
  }

  lemma HeadWaits(s: Server)
    requires CapacityInv(s) && |s.inbox| > 0 && s.inbox[0].Register?
    ensures InPhase(s, s.inbox[0].id, Registering)
  {}

  /** The steps of other connections do not touch this one. */
  lemma OthersKeepConn(s: Server, step: Step, id: Uuid)
    requires DeliveryInv(s) && Enabled(s, step) && !step.HubHandles? && step.id != id && id in s.conns
    ensures ConnOk(Next(s, step), id)
  {
    ElsewhereFrame(s, step, id);
    hide Next, Enabled, JoinedOk, Quiet;
    assert ConnOk(s, id);
  }

  ghost predicate SameAt(s: Server, s': Server, id: Uuid) {
    && id in s.conns && id in s'.conns && s'.conns[id] == s.conns[id] && s'.views == s.views
    && (id in s.hub.outboxes ==> id in s'.hub.outboxes && s'.hub.outboxes[id] == s.hub.outboxes[id])
  }

  lemma WriteOutElsewhere(s: Server, writer: Uuid, frame: Frame, ok: bool, id: Uuid)
    requires writer in s.conns && id in s.conns && id != writer
    ensures SameAt(s, WriteOut(s, writer, frame, ok), id)
  {}

  lemma ElsewhereFrame(s: Server, step: Step, id: Uuid)
    requires Enabled(s, step) && !step.HubHandles? && step.id != id && id in s.conns
    ensures SameAt(s, Next(s, step), id)
  {
    hide WriteOut;
    match step
    case WriteInternal(writer, ok) =>
      var c := s.conns[writer];
      WriteOutElsewhere(WithConn(s, writer, c.(internal := c.internal[1..])), writer, c.internal[0], ok, id);
    case WriteClip(writer, ok) =>
      var o := s.hub.outboxes[writer];
      WriteOutElsewhere(WithOutbox(s, writer, o.(clips := o.clips[1..])), writer, Clip(o.clips[0]), ok, id);
    case WriteFile(writer, ok) =>
      var o := s.hub.outboxes[writer];
      WriteOutElsewhere(WithOutbox(s, writer, o.(files := o.files[1..])), writer, FileChunk(o.files[0]), ok, id);
    case _ =>
  }

  /** One frame to the socket, as it changes the writing connection and its channels. */
  function Wrote(c: Conn, o: Outbox, frame: Frame, ok: bool): (Conn, Outbox) {
    if !ok then (c.(writer := false), o.(open := false))
    else if frame.Error? then (c.(writer := false, sent := c.sent + [frame]), o.(open := false))
    else (c.(sent := c.sent + [frame]), o)
  }

  lemma WriteOutIs(s: Server, id: Uuid, frame: Frame, ok: bool)
    requires id in s.conns && id in s.hub.outboxes
    ensures var s' := WriteOut(s, id, frame, ok);
            && id in s'.conns && id in s'.hub.outboxes && s'.views == s.views
            && (s'.conns[id], s'.hub.outboxes[id]) == Wrote(s.conns[id], s.hub.outboxes[id], frame, ok)
  {}

  /** Writing one frame that keeps the output well formed. */
  lemma WriteKeepsJoined(id: Uuid, c: Conn, v: View, o: Outbox, frame: Frame, ok: bool)
    requires (c.phase.Serving? || c.phase.Leaving? || c.phase.Gone?) && c.writer && o.open
    requires Piped(true, ClipsIn(c.sent + [frame]), o.clips, v.clips)
    requires Piped(true, ChunksIn(c.sent + [frame]), o.files, v.files)
    requires Grammar(c.sent, Welcome(id, v.snapshot))
    requires if frame.Error? then Grammar(c.sent + [frame], Welcome(id, v.snapshot))
             else OutputOk(c.(sent := c.sent + [frame]), Welcome(id, v.snapshot))
    ensures var (c', o') := Wrote(c, o, frame, ok); JoinedOk(id, c', v, o')
  {
    hide Grammar, Talking, ClipsIn, ChunksIn;
    FramesAppend(c.sent, frame);
  }

  lemma InternalKeepsJoined(id: Uuid, c: Conn, v: View, o: Outbox, ok: bool)
    requires JoinedOk(id, c, v, o) && c.writer && |c.internal| > 0
    ensures var (c', o') := Wrote(c.(internal := c.internal[1..]), o, c.internal[0], ok); JoinedOk(id, c', v, o')
  {
    hide ClipsIn, ChunksIn;
    var frame := c.internal[0];
    FramesAppend(c.sent, frame);
    assert (c.sent + [frame])[..|c.sent|] == c.sent;
    assert ClipsIn(c.sent + [frame]) == ClipsIn(c.sent) && ChunksIn(c.sent + [frame]) == ChunksIn(c.sent);
    WriteKeepsJoined(id, c.(internal := c.internal[1..]), v, o, frame, ok);
  }

  lemma ClipKeepsJoined(id: Uuid, c: Conn, v: View, o: Outbox, ok: bool)
    requires JoinedOk(id, c, v, o) && c.writer && c.internal == [] && |o.clips| > 0
    ensures var (c', o') := Wrote(c, o.(clips := o.clips[1..]), Clip(o.clips[0]), ok); JoinedOk(id, c', v, o')
  {
    hide ClipsIn, ChunksIn;
    FramesAppend(c.sent, Clip(o.clips[0]));
    assert ClipsIn(c.sent) + [o.clips[0]] + o.clips[1..] == ClipsIn(c.sent) + o.clips;
    assert ChunksIn(c.sent) + [] == ChunksIn(c.sent);
    WriteKeepsJoined(id, c, v, o.(clips := o.clips[1..]), Clip(o.clips[0]), ok);
  }

  lemma FileKeepsJoined(id: Uuid, c: Conn, v: View, o: Outbox, ok: bool)
    requires JoinedOk(id, c, v, o) && c.writer && c.internal == [] && |o.files| > 0
    ensures var (c', o') := Wrote(c, o.(files := o.files[1..]), FileChunk(o.files[0]), ok); JoinedOk(id, c', v, o')
  {
    hide ClipsIn, ChunksIn;
    FramesAppend(c.sent, FileChunk(o.files[0]));
    assert ChunksIn(c.sent) + [o.files[0]] + o.files[1..] == ChunksIn(c.sent) + o.files;
    assert ClipsIn(c.sent) + [] == ClipsIn(c.sent);
    WriteKeepsJoined(id, c, v, o.(files := o.files[1..]), FileChunk(o.files[0]), ok);
  }

  lemma WriterKeepsConn(s: Server, step: Step)
    requires DeliveryInv(s) && Enabled(s, step)
    requires step.WriteInternal? || step.WriteClip? || step.WriteFile?
    ensures ConnOk(Next(s, step), step.id)
  {
    var id := step.id;
    assert ConnOk(s, id) && id in s.views;
    var c, v, o := s.conns[id], s.views[id], s.hub.outboxes[id];
    hide WriteOut, Wrote, JoinedOk, DeliveryInv;
    match step
    case WriteInternal(_, ok) =>
      InternalKeepsJoined(id, c, v, o, ok);
      WriteOutIs(WithConn(s, id, c.(internal := c.internal[1..])), id, c.internal[0], ok);
    case WriteClip(_, ok) =>
      ClipKeepsJoined(id, c, v, o, ok);
      WriteOutIs(WithOutbox(s, id, o.(clips := o.clips[1..])), id, Clip(o.clips[0]), ok);
    case WriteFile(_, ok) =>
      FileKeepsJoined(id, c, v, o, ok);
      WriteOutIs(WithOutbox(s, id, o.(files := o.files[1..])), id, FileChunk(o.files[0]), ok);
  }

  /** A connection's own steps before it has a record. */
  lemma OutsiderKeepsConn(s: Server, step: Step)
    requires DeliveryInv(s) && Enabled(s, step) && !step.HubHandles? && step.id !in s.views
    ensures ConnOk(Next(s, step), step.id)
  {
    hide JoinedOk;
    assert step.id in s.conns ==> ConnOk(s, step.id);
  }

  /** What the steps of a joined connection other than writing do to it. */
  function Stepped(id: Uuid, c: Conn, o: Outbox, step: Step): (Conn, Outbox) {
    match step
    case StartServing(_) =>
      (Conn(Serving, [Welcome(id, if c.phase.Acked? then c.phase.lastClip else None)], true, true, c.sent), o)
    case Read(_, frame) =>
      (if frame.Some? && ((frame.value.Clip? && frame.value.clip.Validates())
                          || (frame.value.FileChunk? && frame.value.chunk.Validates()))
       then c else RejectInput(c), o)
    case ReaderStops(_) => (c.(reader := false), o)
    case WriterStops(_) => (c.(writer := false), o.(open := false))
    case SendDeregister(_) => (c.(phase := Leaving), o)
    case Release(_) => (c.(phase := Gone), o)
    case _ => (c, o)
  }

  lemma SteppedFrame(s: Server, step: Step)
    requires Enabled(s, step) && !step.HubHandles? && !step.WriteInternal? && !step.WriteClip? && !step.WriteFile?
    requires step.id in s.conns && step.id in s.hub.outboxes
    requires var c := s.conns[step.id]; c.phase.Acked? || c.phase.Serving? || c.phase.Leaving? || c.phase.Gone?
    ensures var s', id := Next(s, step), step.id;
            && id in s'.conns && id in s'.hub.outboxes && s'.views == s.views
            && (s'.conns[id], s'.hub.outboxes[id]) == Stepped(id, s.conns[id], s.hub.outboxes[id], step)
  {}

  lemma RejectKeepsJoined(id: Uuid, c: Conn, v: View, o: Outbox)
    requires JoinedOk(id, c, v, o) && c.reader
    ensures JoinedOk(id, RejectInput(c), v, o)
  {
    hide ClipsIn, ChunksIn;
    assert c.writer && c.sent == [] ==> (c.internal + [Error(BadFrame)])[1..] == c.internal[1..] + [Error(BadFrame)];
  }

  lemma StopKeepsJoined(id: Uuid, c: Conn, v: View, o: Outbox)
    requires JoinedOk(id, c, v, o) && c.writer
    ensures JoinedOk(id, c.(writer := false), v, o.(open := false))
  {
    hide ClipsIn, ChunksIn;
  }

  lemma StartKeepsJoined(id: Uuid, c: Conn, v: View, o: Outbox)
    requires JoinedOk(id, c, v, o) && c.phase.Acked?
    ensures JoinedOk(id, Conn(Serving, [Welcome(id, c.phase.lastClip)], true, true, c.sent), v, o)
  {}

  lemma PhaseKeepsJoined(id: Uuid, c: Conn, v: View, o: Outbox, phase: Phase)
    requires JoinedOk(id, c, v, o) && !c.phase.Acked? && (phase == Leaving || phase == Gone)
    ensures JoinedOk(id, c.(phase := phase), v, o)
    ensures JoinedOk(id, c.(reader := false), v, o)
  {
    hide ClipsIn, ChunksIn;
  }

  lemma SteppedKeepsJoined(s: Server, step: Step, id: Uuid, c: Conn, v: View, o: Outbox)
    requires Enabled(s, step) && !step.HubHandles? && !step.WriteInternal? && !step.WriteClip? && !step.WriteFile?
    requires step.id == id && id in s.conns && s.conns[id] == c && id in s.hub.outboxes && s.hub.outboxes[id] == o
    requires JoinedOk(id, c, v, o)
    ensures var (c', o') := Stepped(id, c, o, step); JoinedOk(id, c', v, o')
  {
    ReadersServe(id, c, v, o);
    hide JoinedOk, RejectInput;
    match step
    case StartServing(_) => StartKeepsJoined(id, c, v, o);
    case Read(_, _) => RejectKeepsJoined(id, c, v, o);
    case WriterStops(_) => StopKeepsJoined(id, c, v, o);
    case ReaderStops(_) => PhaseKeepsJoined(id, c, v, o, Gone);
    case SendDeregister(_) => PhaseKeepsJoined(id, c, v, o, Leaving);
    case Release(_) => PhaseKeepsJoined(id, c, v, o, Gone);
    case _ =>
  }

  lemma ReadersServe(id: Uuid, c: Conn, v: View, o: Outbox)
    requires JoinedOk(id, c, v, o)
    ensures c.reader || c.writer ==> !c.phase.Acked?
  {}

  lemma MemberKeepsConn(s: Server, step: Step)
    requires DeliveryInv(s) && Enabled(s, step) && !step.HubHandles? && step.id in s.views
    requires !step.WriteInternal? && !step.WriteClip? && !step.WriteFile?
    ensures ConnOk(Next(s, step), step.id)
  {
    var id := step.id;
    assert id in s.conns && ConnOk(s, id);
    SteppedKeepsJoined(s, step, id, s.conns[id], s.views[id], s.hub.outboxes[id]);
    assert !s.conns[id].phase.Admitted? && !s.conns[id].phase.Registering? && !s.conns[id].phase.Refused?;
    SteppedFrame(s, step);
    hide Next, Enabled, Stepped, JoinedOk, DeliveryInv;
  }

  lemma ViewsAreConns(s: Server, step: Step)
    requires DeliveryInv(s) && Enabled(s, step)
    ensures Next(s, step).views.Keys <= Next(s, step).conns.Keys
  {
    if step.HubHandles? {
      HubViews(s);
    } else {
      StreamFrame(s, step);
      ConnsStay(s, step);
    }
  }

  lemma HubViews(s: Server)
    requires Enabled(s, HubHandles)
    ensures var s' := Next(s, HubHandles);
            s'.conns.Keys == s.conns.Keys && s'.views.Keys <= s.views.Keys + s.conns.Keys
  {
    hide Handle, SeenBy;
  }

  lemma ConnsStay(s: Server, step: Step)
    requires Enabled(s, step) && !step.HubHandles?
    ensures s.conns.Keys <= Next(s, step).conns.Keys
  {
    hide WriteOut;
    match step
    case WriteInternal(id, ok) =>
      var c := s.conns[id];
      WriteOutFrame(WithConn(s, id, c.(internal := c.internal[1..])), id, c.internal[0], ok);
    case WriteClip(id, ok) =>
      var o := s.hub.outboxes[id];
      WriteOutFrame(WithOutbox(s, id, o.(clips := o.clips[1..])), id, Clip(o.clips[0]), ok);
    case WriteFile(id, ok) =>
      var o := s.hub.outboxes[id];
      WriteOutFrame(WithOutbox(s, id, o.(files := o.files[1..])), id, FileChunk(o.files[0]), ok);
    case _ =>
  }

  lemma NewConns(s: Server, step: Step, id: Uuid)
    requires Enabled(s, step) && id in Next(s, step).conns && id !in s.conns
    ensures !step.HubHandles? && step.id == id
  {
    if step.HubHandles? {
      HubViews(s);
    } else if IsTraffic(step) {
      TrafficFrame(s, step);
    }
  }

  lemma DeliveryStep(s: Server, step: Step)
    requires CapacityInv(s) && DeliveryInv(s) && Enabled(s, step)
    ensures DeliveryInv(Next(s, step))
  {
    var s' := Next(s, step);
    ViewsAreConns(s, step);
    assert forall id :: id in s.views ==> id in s.conns;
    hide Next, Enabled, ConnOk, CapacityInv;
    forall id | id in s'.conns ensures ConnOk(s', id) {
      if id !in s.conns {
        NewConns(s, step, id);
        OutsiderKeepsConn(s, step);
      } else if step.HubHandles? {
        HubKeepsConn(s, id);
      } else if step.id != id {
        OthersKeepConn(s, step, id);
      } else if step.WriteInternal? || step.WriteClip? || step.WriteFile? {
        WriterKeepsConn(s, step);
      } else if id in s.views {
        MemberKeepsConn(s, step);
      } else {
        OutsiderKeepsConn(s, step);
      }
    }
  }

  lemma {:induction false} HistoryRun(states: seq<Server>, steps: seq<Step>, maxConns: nat, counting: bool, i: nat)
    requires IsRun(states, steps, maxConns, counting) && i < |states| && maxConns < USIZE_COUNT
    ensures StreamInv(states[i]) && DeliveryInv(states[i])
  {
    hide Next, Enabled, StreamInv, DeliveryInv;
    if i == 0 {
      NoHistory(maxConns, counting);
    } else {
      HistoryRun(states, steps, maxConns, counting, i - 1);
      CapacityRun(states, steps, maxConns, counting, i - 1);
      StreamStep(states[i - 1], steps[i - 1]);
      DeliveryStep(states[i - 1], steps[i - 1]);
    }
  }

  lemma NoHistory(maxConns: nat, counting: bool)
    ensures StreamInv(Initial(maxConns, counting)) && DeliveryInv(Initial(maxConns, counting))
  {}

  /** A tap is what was offered exactly when nothing was refused. */
  lemma NothingRefused<T>(tap: Tap<T>, offered: seq<T>)
    requires TapOk(tap, offered)
    ensures tap.full == 0 && tap.closed == 0 <==> tap.queued == offered
  {
    SubsequenceLength(tap.queued, offered);
  }

  /** What one client's channel of one kind took, refused, handed to the socket and still holds. */
  ghost predicate Streamed<T>(tap: Tap<T>, offered: seq<T>, written: seq<T>, waiting: seq<T>, open: bool) {
    && Subsequence(tap.queued, offered)
    && |tap.queued| + tap.full + tap.closed == |offered|
    && (tap.queued == offered <==> tap.full == 0 && tap.closed == 0)
    && (open ==> tap.closed == 0 && written + waiting == tap.queued)
    && written <= tap.queued
  }

  /** In every run, for every client: its snapshot is the last clip of the publish log when it
      registered; of the later clips of others, and of the later file chunks of others, its channels
      took some in order and without repeats and refused all the rest, being full or, once its writer
      had ended, closed; so they took all exactly when they refused none; and what they took is what
      the socket got followed by what still waits, or a beginning of it went out before the writer
      ended. */
  lemma SnapshotPlusStream(states: seq<Server>, steps: seq<Step>, maxConns: nat, counting: bool, i: nat, id: Uuid)
    requires IsRun(states, steps, maxConns, counting) && i < |states| && maxConns < USIZE_COUNT
    requires id in states[i].views
    ensures var s := states[i];
            var v := s.views[id];
            && v.since <= v.until <= |s.log| && id in s.conns && id in s.hub.outboxes
            && v.snapshot == LastClip(s.log[..v.since])
            && (id in s.hub.clients ==> v.until == |s.log|)
            && (s.conns[id].phase.Acked? || s.conns[id].writer <==> s.hub.outboxes[id].open)
            && var (sent, o, offered) := (s.conns[id].sent, s.hub.outboxes[id], Others(s.log[v.since..v.until], id));
            && Streamed(v.clips, ClipsIn(offered), ClipsIn(sent), o.clips, o.open)
            && Streamed(v.files, ChunksIn(offered), ChunksIn(sent), o.files, o.open)
            && (forall k :: 0 <= k < |s.log| ==> Stamped(s.log[k]))
  {
    HistoryRun(states, steps, maxConns, counting, i);
    var s := states[i];
    var v := s.views[id];
    assert ViewOk(v, s.log, id in s.hub.clients, id) && ConnOk(s, id);
    JoinedIsStreamed(id, s.conns[id], v, s.hub.outboxes[id], s.log[v.since..v.until]);
  }

  lemma JoinedIsStreamed(id: Uuid, c: Conn, v: View, o: Outbox, part: seq<Frame>)
    requires JoinedOk(id, c, v, o)
    requires TapOk(v.clips, ClipsIn(Others(part, id))) && TapOk(v.files, ChunksIn(Others(part, id)))
    ensures Streamed(v.clips, ClipsIn(Others(part, id)), ClipsIn(c.sent), o.clips, o.open)
    ensures Streamed(v.files, ChunksIn(Others(part, id)), ChunksIn(c.sent), o.files, o.open)
    ensures c.phase.Acked? || c.writer <==> o.open
  {
    hide ClipsIn, ChunksIn, Others, Subsequence, OutputOk;
    NothingRefused(v.clips, ClipsIn(Others(part, id)));
    NothingRefused(v.files, ChunksIn(Others(part, id)));
  }

  /** In every run every socket carries one welcome first, naming the client and carrying its
      snapshot, then clips and file chunks, and at most one error, which is last: the client's check
      that the first frame is a welcome never fails. */
  lemma WireGrammar(states: seq<Server>, steps: seq<Step>, maxConns: nat, counting: bool, i: nat, id: Uuid)
    requires IsRun(states, steps, maxConns, counting) && i < |states| && maxConns < USIZE_COUNT
    requires id in states[i].conns
    ensures var s := states[i];
            var sent := s.conns[id].sent;
            && (sent != [] ==> id in s.views && sent[0] == Welcome(id, s.views[id].snapshot))
            && (id in s.views ==> Grammar(sent, Welcome(id, s.views[id].snapshot)))
            && (forall k :: 0 <= k < |sent| && sent[k].Welcome? ==> k == 0)
            && (forall k :: 0 <= k < |sent| && sent[k].Error? ==> k == |sent| - 1)
  {
    HistoryRun(states, steps, maxConns, counting, i);
    hide IsRun, StreamInv, ClipsIn, CapacityInv;
    var s := states[i];
    assert ConnOk(s, id);
    if id in s.views {
      WelcomedOutput(s.conns[id], Welcome(id, s.views[id].snapshot));
    }
  }

  lemma WelcomedOutput(c: Conn, welcome: Frame)
    requires welcome.Welcome? && (Quiet(c) || OutputOk(c, welcome))
    ensures Grammar(c.sent, welcome)
    ensures c.sent != [] ==> c.sent[0] == welcome
    ensures forall k :: 0 <= k < |c.sent| && c.sent[k].Welcome? ==> k == 0
    ensures forall k :: 0 <= k < |c.sent| && c.sent[k].Error? ==> k == |c.sent| - 1
  {
    if c.sent != [] && !Talking(c.sent, welcome) {
      var body := c.sent[..|c.sent| - 1];
      assert forall k :: 0 <= k < |body| ==> body[k] == c.sent[k];
    }
  }
}
