/** The life of every connection around the hub: permit, registration, reader, writer, departure.
    One step is one visible action of one task; reader and writer tasks outlive the departure. */
module Server {
  import opened Wrappers
  import opened Protocol
  import opened Hub

  /** Where `handle_socket` is. */
  datatype Phase =
    | Admitted
    | Registering
    | Refused
    | Acked(lastClip: Option<ClipFrame>)
    | Serving
    | Leaving
    | Gone

  /** `reader` and `writer` say whether the tasks run; `sent` is what went to the socket. */
  datatype Conn = Conn(phase: Phase, internal: seq<Frame>, reader: bool, writer: bool, sent: seq<Frame>)

  /** What one channel was offered: the items it took, and how many it refused because it was full or
      because its receiver was gone. */
  datatype Tap<T> = Tap(queued: seq<T>, full: nat, closed: nat)

  /** A client's part of the publish log: registered when the log had `since` entries, a member
      until it had `until`. */
  datatype View = View(
    since: nat, until: nat, snapshot: Option<ClipFrame>, clips: Tap<ClipFrame>, files: Tap<FileChunkFrame>)

  /** `log` and `views` record history; no step reads them. `log` holds everything published, clips
      and file chunks, as the hub stamped it. */
  datatype Server = Server(
    maxConns: nat, permits: nat, inbox: seq<Message>, hub: HubState, conns: map<Uuid, Conn>,
    log: seq<Frame>, views: map<Uuid, View>)

  datatype Step =
    | Accept(id: Uuid)
    | AbortUpgrade(id: Uuid)
    | SendRegister(id: Uuid)
    | HubHandles
    | CloseRefused(id: Uuid)
    | StartServing(id: Uuid)
    | Read(id: Uuid, frame: Option<Frame>)
    | ReaderStops(id: Uuid)
    | WriteInternal(id: Uuid, ok: bool)
    | WriteClip(id: Uuid, ok: bool)
    | WriteFile(id: Uuid, ok: bool)
    | WriterStops(id: Uuid)
    | SendDeregister(id: Uuid)
    | Release(id: Uuid)

  function Initial(maxConns: nat, counting: bool): Server {
    Server(maxConns, maxConns, [], HubState({}, map[], None, if counting then Some(0) else None), map[], [], map[])
  }

  ghost predicate InPhase(s: Server, id: Uuid, phase: Phase) {
    id in s.conns && s.conns[id].phase == phase
  }

  ghost predicate Enabled(s: Server, step: Step) {
    match step
    case Accept(id) => s.permits > 0 && id !in s.conns
    case AbortUpgrade(id) => InPhase(s, id, Admitted)
    case SendRegister(id) => InPhase(s, id, Admitted) && |s.inbox| < HUB_INBOX_BUF
    case HubHandles =>
      |s.inbox| > 0 && s.hub.clients <= s.hub.outboxes.Keys && (s.inbox[0].Register? ==> s.inbox[0].id in s.conns)
    case CloseRefused(id) => InPhase(s, id, Refused)
    case StartServing(id) => id in s.conns && s.conns[id].phase.Acked?
    case Read(id, frame) => id in s.conns && s.conns[id].reader && |s.inbox| < HUB_INBOX_BUF
    case ReaderStops(id) => id in s.conns && s.conns[id].reader
    case WriteInternal(id, ok) => id in s.conns && s.conns[id].writer && |s.conns[id].internal| > 0
    case WriteClip(id, ok) =>
      && id in s.conns && s.conns[id].writer && s.conns[id].internal == []
      && id in s.hub.outboxes && |s.hub.outboxes[id].clips| > 0
    case WriteFile(id, ok) =>
      && id in s.conns && s.conns[id].writer && s.conns[id].internal == []
      && id in s.hub.outboxes && |s.hub.outboxes[id].clips| == 0 && |s.hub.outboxes[id].files| > 0
    case WriterStops(id) => id in s.conns && s.conns[id].writer && id in s.hub.outboxes
    case SendDeregister(id) =>
      && InPhase(s, id, Serving) && (!s.conns[id].reader || !s.conns[id].writer) && |s.inbox| < HUB_INBOX_BUF
    case Release(id) => InPhase(s, id, Leaving)
  }

  function WithConn(s: Server, id: Uuid, c: Conn): Server {
    s.(conns := s.conns[id := c])
  }

  function WithOutbox(s: Server, id: Uuid, o: Outbox): Server {
    s.(hub := s.hub.(outboxes := s.hub.outboxes[id := o]))
  }

  /** The writer task ends and drops its receivers. */
  function StopWriter(s: Server, id: Uuid): Server
    requires id in s.conns
  {
    var s' := WithConn(s, id, s.conns[id].(writer := false));
    if id in s.hub.outboxes then WithOutbox(s', id, s.hub.outboxes[id].(open := false)) else s'
  }

  /** One frame to the socket; a failed send ends the writer, and so does an error frame. */
  function WriteOut(s: Server, id: Uuid, frame: Frame, ok: bool): Server
    requires id in s.conns
  {
    if !ok then StopWriter(s, id)
    else
      var s' := WithConn(s, id, s.conns[id].(sent := s.conns[id].sent + [frame]));
      if frame.Error? then StopWriter(s', id) else s'
  }

  /** An error for the client ends the reader; it is lost if the writer is gone. */
  function RejectInput(c: Conn): Conn {
    c.(reader := false, internal := if c.writer then c.internal + [Error(BadFrame)] else c.internal)
  }

  function Offered<T>(tap: Tap<T>, item: T, open: bool, room: bool): Tap<T> {
    if !open then tap.(closed := tap.closed + 1)
    else if !room then tap.(full := tap.full + 1)
    else tap.(queued := tap.queued + [item])
  }

  /** What a client that is not the publisher records of a published frame. */
  function OfferedTo(v: View, o: Outbox, frame: Frame): View {
    match frame
    case Clip(clip) => v.(clips := Offered(v.clips, clip, o.open, |o.clips| < PER_CLIENT_CHANNEL_BUF))
    case FileChunk(chunk) => v.(files := Offered(v.files, chunk, o.open, |o.files| < PER_CLIENT_FILE_CHANNEL_BUF))
    case _ => v
  }

  function SeenBy(v: View, id: Uuid, before: HubState, from: Uuid, frame: Frame, length: nat): View {
    if id !in before.clients || id !in before.outboxes then v
    else if id == from then v.(until := length)
    else OfferedTo(v, before.outboxes[id], frame).(until := length)
  }

  function Posted(s: Server, before: HubState, from: Uuid, frame: Frame): Server {
    s.(log := s.log + [frame],
       views := map id | id in s.views :: SeenBy(s.views[id], id, before, from, frame, |s.log| + 1))
  }

  function NewView(length: nat, snapshot: Option<ClipFrame>): View {
    View(length, length, snapshot, Tap([], 0, 0), Tap([], 0, 0))
  }

  function HubStep(s: Server): Server
    requires Enabled(s, HubHandles)
  {
    var msg := s.inbox[0];
    var (hub, ack) := Handle(s.hub, s.maxConns, msg);
    var s' := s.(inbox := s.inbox[1..], hub := hub);
    match msg
    case Register(id) =>
      (match ack
       case Some(Accepted(lastClip)) =>
         WithConn(s', id, s.conns[id].(phase := Acked(lastClip)))
           .(views := s.views[id := NewView(|s.log|, s.hub.lastClip)])
       case Some(AtCapacity) => WithConn(s', id, s.conns[id].(phase := Refused)))
    case Publish(from, clip) => Posted(s', s.hub, from, Clip(clip.(from := Some(from))))
    case PublishFile(from, chunk) => Posted(s', s.hub, from, FileChunk(chunk.(from := Some(from))))
    case Deregister(_) => s'
  }

  function Next(s: Server, step: Step): Server
    requires Enabled(s, step)
  {
    match step
    case Accept(id) => WithConn(s, id, Conn(Admitted, [], false, false, [])).(permits := s.permits - 1)
    case AbortUpgrade(id) => WithConn(s, id, s.conns[id].(phase := Gone)).(permits := s.permits + 1)
    case SendRegister(id) => WithConn(s, id, s.conns[id].(phase := Registering)).(inbox := s.inbox + [Register(id)])
    case HubHandles => HubStep(s)
    case CloseRefused(id) => WithConn(s, id, s.conns[id].(phase := Gone)).(permits := s.permits + 1)
    case StartServing(id) =>
      WithConn(s, id, Conn(Serving, [Welcome(id, s.conns[id].phase.lastClip)], true, true, s.conns[id].sent))
    case Read(id, frame) =>
      if frame.Some? && frame.value.Clip? && frame.value.clip.Validates()
      then s.(inbox := s.inbox + [Publish(id, frame.value.clip.(from := None))])
      else if frame.Some? && frame.value.FileChunk? && frame.value.chunk.Validates()
      then s.(inbox := s.inbox + [PublishFile(id, frame.value.chunk.(from := None))])
      else WithConn(s, id, RejectInput(s.conns[id]))
    case ReaderStops(id) => WithConn(s, id, s.conns[id].(reader := false))
    case WriteInternal(id, ok) =>
      var c := s.conns[id];
      WriteOut(WithConn(s, id, c.(internal := c.internal[1..])), id, c.internal[0], ok)
    case WriteClip(id, ok) =>
      var o := s.hub.outboxes[id];
      WriteOut(WithOutbox(s, id, o.(clips := o.clips[1..])), id, Clip(o.clips[0]), ok)
    case WriteFile(id, ok) =>
      var o := s.hub.outboxes[id];
      WriteOut(WithOutbox(s, id, o.(files := o.files[1..])), id, FileChunk(o.files[0]), ok)
    case WriterStops(id) => StopWriter(s, id)
    case SendDeregister(id) => WithConn(s, id, s.conns[id].(phase := Leaving)).(inbox := s.inbox + [Deregister(id)])
    case Release(id) => WithConn(s, id, s.conns[id].(phase := Gone)).(permits := s.permits + 1)
  }

  /** A run of the server: the states before, between and after its steps. */
  ghost predicate IsRun(states: seq<Server>, steps: seq<Step>, maxConns: nat, counting: bool) {
    && |states| == |steps| + 1
    && states[0] == Initial(maxConns, counting)
    && forall i :: 0 <= i < |steps| ==> Enabled(states[i], steps[i]) && states[i + 1] == Next(states[i], steps[i])
  }
}
