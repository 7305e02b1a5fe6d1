/** Any number of desktops around one hub: clipboard threads, supervisors, sockets and queues. */
module Network {
  import opened Wrappers
  import opened Protocol
  import opened Clipboard
  import opened ClipFrames
  import opened Hub
  import opened UriList

  const EVENT_BUFFER := 32

  /** One desktop. `downlink` is everything between the hub's channel and the supervisor. The last
      three fields count what happened: slots its user's copies filled, changes its supervisor
      announced, clips the hub published for it. */
  datatype Desk = Desk(
    os: OsClipboard, trackers: Trackers, events: seq<ClipChange>, outbound: seq<ClipFrame>, uplink: seq<ClipFrame>,
    downlink: seq<ClipFrame>, apply: seq<ClipChange>, filled: nat, announced: nat, published: nat)

  datatype Net = Net(maxClients: nat, hub: HubState, inbox: seq<Message>, desks: map<Uuid, Desk>)

  datatype Step =
    | UserCopy(id: Uuid, os: OsClipboard)
    | PollTick(id: Uuid, faults: Faults)
    | TakeEvent(id: Uuid, frameId: Uuid, ts: int)
    | Send(id: Uuid, ok: bool)
    | HubReads(id: Uuid)
    | HubHandles
    | Deliver(id: Uuid)
    | Stray(id: Uuid, frame: ClipFrame)
    | ConnectionLost(id: Uuid, sent: nat, received: nat)
    | Membership(msg: Message)
    | TakeFrame(id: Uuid)
    | BatchSaved(id: Uuid, paths: seq<Path>)
    | ApplyNext(id: Uuid, ok: bool)

  ghost predicate Enabled(n: Net, step: Step) {
    match step
    case UserCopy(id, os) => id in n.desks
    case PollTick(id, faults) => id in n.desks
    case TakeEvent(id, _, _) => id in n.desks && |n.desks[id].events| > 0
    case Send(id, ok) => id in n.desks && |n.desks[id].outbound| > 0
    case HubReads(id) => id in n.desks && |n.desks[id].uplink| > 0 && |n.inbox| < HUB_INBOX_BUF
    case HubHandles => |n.inbox| > 0
    case Deliver(id) => id in n.desks && id in n.hub.outboxes && |n.hub.outboxes[id].clips| > 0
    case Stray(id, frame) => id in n.desks
    case ConnectionLost(id, sent, received) =>
      id in n.desks && sent <= |n.desks[id].uplink| && received <= |n.desks[id].downlink|
    case Membership(msg) => (msg.Register? || msg.Deregister?) && |n.inbox| < HUB_INBOX_BUF
    case TakeFrame(id) => id in n.desks && |n.desks[id].downlink| > 0
    case BatchSaved(id, paths) => id in n.desks && Faithful(Files(paths))
    case ApplyNext(id, ok) => id in n.desks && |n.desks[id].apply| > 0
  }

  function OnUserCopy(d: Desk, os: OsClipboard): Desk {
    d.(os := os, filled := d.filled + Filled(os))
  }

  /** A full events channel drops the change; the tracker has moved all the same. */
  function OnPoll(d: Desk, faults: Faults): Desk {
    var (trackers, change) := Poll(d.os, d.trackers, faults);
    var d' := d.(trackers := trackers);
    if change.Some? && |d.events| < EVENT_BUFFER then d'.(events := d.events + [change.value]) else d'
  }

  /** The supervisor's local arm: one frame for text or an image, a transfer for files. */
  function OnEvent(codec: Codec, d: Desk, frameId: Uuid, ts: int): Desk
    requires |d.events| > 0
  {
    var queued := QueueLocal(codec, d.outbound, d.events[0], frameId, ts);
    d.(events := d.events[1..], outbound := queued,
       announced := d.announced + if d.events[0].Files? || |queued| > |d.outbound| then 1 else 0)
  }

  /** A failed send loses the frame and, with the connection, whatever the socket held. */
  function OnSend(d: Desk, ok: bool): Desk
    requires |d.outbound| > 0
  {
    var d' := d.(outbound := d.outbound[1..]);
    if ok then d'.(uplink := d.uplink + [d.outbound[0]]) else d'.(uplink := [])
  }

  /** The supervisor's remote arm. */
  function OnFrame(codec: Codec, d: Desk): Desk
    requires |d.downlink| > 0
  {
    d.(downlink := d.downlink[1..], apply := QueueRemote(codec, d.apply, d.downlink[0]))
  }

  function OnApply(d: Desk, ok: bool): Desk
    requires |d.apply| > 0
  {
    var (os, trackers) := Apply(d.os, d.trackers, d.apply[0], ok);
    d.(os := os, trackers := trackers, apply := d.apply[1..])
  }

  function Update(n: Net, id: Uuid, d: Desk): Net {
    n.(desks := n.desks[id := d])
  }

  /** The hub takes one message; a published clip counts for its desktop. */
  function OnHub(n: Net): Net
    requires |n.inbox| > 0
  {
    var msg := n.inbox[0];
    var n' := n.(inbox := n.inbox[1..], hub := Handle(n.hub, n.maxClients, msg).0);
    if msg.Publish? && msg.from in n.desks
    then Update(n', msg.from, n.desks[msg.from].(published := n.desks[msg.from].published + 1))
    else n'
  }

  /** `Stray` stands for any clip that reaches a desktop another way: the cached clip in the welcome
      of a new connection, or its own earlier clip under a new connection's identifier. A connection
      lost in either direction keeps some of what the socket held; `Membership` is its departure or
      return as the hub hears of it. `BatchSaved` brings only file lists that the clipboard does not
      alter, which lists saved under an absolute directory are. */
  function Next(codec: Codec, n: Net, step: Step): Net
    requires Enabled(n, step)
  {
    match step
    case UserCopy(id, os) => Update(n, id, OnUserCopy(n.desks[id], os))
    case PollTick(id, faults) => Update(n, id, OnPoll(n.desks[id], faults))
    case TakeEvent(id, frameId, ts) => Update(n, id, OnEvent(codec, n.desks[id], frameId, ts))
    case Send(id, ok) => Update(n, id, OnSend(n.desks[id], ok))
    case HubReads(id) =>
      var d := n.desks[id];
      var n' := Update(n, id, d.(uplink := d.uplink[1..]));
      if d.uplink[0].Validates() then n'.(inbox := n.inbox + [Publish(id, d.uplink[0].(from := None))]) else n'
    case HubHandles => OnHub(n)
    case Deliver(id) =>
      var o := n.hub.outboxes[id];
      var n' := n.(hub := n.hub.(outboxes := n.hub.outboxes[id := o.(clips := o.clips[1..])]));
      Update(n', id, n.desks[id].(downlink := n.desks[id].downlink + [o.clips[0]]))
    case Stray(id, frame) => Update(n, id, n.desks[id].(downlink := n.desks[id].downlink + [frame]))
    case ConnectionLost(id, sent, received) =>
      Update(n, id, n.desks[id].(uplink := n.desks[id].uplink[..sent], downlink := n.desks[id].downlink[..received]))
    case Membership(msg) => n.(inbox := n.inbox + [msg])
    case TakeFrame(id) => Update(n, id, OnFrame(codec, n.desks[id]))
    case BatchSaved(id, paths) => Update(n, id, n.desks[id].(apply := n.desks[id].apply + [Files(paths)]))
    case ApplyNext(id, ok) => Update(n, id, OnApply(n.desks[id], ok))
  }

  ghost predicate IsRun(codec: Codec, nets: seq<Net>, steps: seq<Step>) {
    && |nets| == |steps| + 1
    && forall i :: 0 <= i < |steps| ==> Enabled(nets[i], steps[i]) && nets[i + 1] == Next(codec, nets[i], steps[i])
  }
}
