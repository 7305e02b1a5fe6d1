/** The fan-out hub: one task that owns the set of clients and the last clip. */
module Hub {
  import opened Wrappers
  import opened Protocol

  const PER_CLIENT_CHANNEL_BUF := 32
  const PER_CLIENT_FILE_CHANNEL_BUF := 4
  const HUB_INBOX_BUF := 1024
  const USIZE_COUNT := 0x1_0000_0000_0000_0000

  /** The two bounded channels towards one connection; `open` while their receivers exist. */
  datatype Outbox = Outbox(clips: seq<ClipFrame>, files: seq<FileChunkFrame>, open: bool)

  datatype Message =
    | Register(id: Uuid)
    | Deregister(id: Uuid)
    | Publish(from: Uuid, clip: ClipFrame)
    | PublishFile(from: Uuid, chunk: FileChunkFrame)

  datatype RegisterResult = Accepted(lastClip: Option<ClipFrame>) | AtCapacity

  /** `outboxes` is the channel memory the hub shares with the connections: a connection's channels
      outlive its membership. `stats` is the optional connection counter, a machine word. */
  datatype HubState = HubState(
    clients: set<Uuid>, outboxes: map<Uuid, Outbox>, lastClip: Option<ClipFrame>, stats: Option<int>)

  ghost predicate Wired(h: HubState) {
    h.clients <= h.outboxes.Keys
  }

  /** `try_send`: a full or closed channel drops the newest frame. */
  function OfferClip(o: Outbox, clip: ClipFrame): Outbox {
    if o.open && |o.clips| < PER_CLIENT_CHANNEL_BUF then o.(clips := o.clips + [clip]) else o
  }

  function OfferFile(o: Outbox, chunk: FileChunkFrame): Outbox {
    if o.open && |o.files| < PER_CLIENT_FILE_CHANNEL_BUF then o.(files := o.files + [chunk]) else o
  }

  function Offer(o: Outbox, frame: Frame): Outbox {
    match frame
    case Clip(clip) => OfferClip(o, clip)
    case FileChunk(chunk) => OfferFile(o, chunk)
    case _ => o
  }

  function FanOut(outboxes: map<Uuid, Outbox>, peers: set<Uuid>, frame: Frame): map<Uuid, Outbox> {
    map id | id in outboxes :: if id in peers then Offer(outboxes[id], frame) else outboxes[id]
  }

  /** The counter's wrapping arithmetic. */
  function Counted(stats: Option<int>, delta: int): Option<int> {
    match stats case None => None case Some(n) => Some((n + delta) % USIZE_COUNT)
  }

  function Handle(h: HubState, maxClients: nat, msg: Message): (HubState, Option<RegisterResult>) {
    match msg
    case Register(id) =>
      if |h.clients| >= maxClients then (h, Some(AtCapacity))
      else
        (h.(clients := h.clients + {id}, outboxes := h.outboxes[id := Outbox([], [], true)], stats := Counted(h.stats, 1)),
         Some(Accepted(h.lastClip)))
    case Deregister(id) =>
      if id in h.clients then (h.(clients := h.clients - {id}, stats := Counted(h.stats, -1)), None) else (h, None)
    case Publish(from, clip) =>
      var stamped := clip.(from := Some(from));
      (h.(lastClip := Some(stamped), outboxes := FanOut(h.outboxes, h.clients - {from}, Clip(stamped))), None)
    case PublishFile(from, chunk) =>
      var stamped := chunk.(from := Some(from));
      (h.(outboxes := FanOut(h.outboxes, h.clients - {from}, FileChunk(stamped))), None)
  }

  class HubTask {
    const maxClients: nat
    var clients: set<Uuid>
    var outboxes: map<Uuid, Outbox>
    var lastClip: Option<ClipFrame>
    var stats: Option<int>

    ghost function State(): HubState
      reads this
    {
      HubState(clients, outboxes, lastClip, stats)
    }

    constructor (maxClients: nat, stats: Option<int>)
      ensures this.maxClients == maxClients && State() == HubState({}, map[], None, stats) && Wired(State())
    {
      this.maxClients := maxClients;
      this.stats := stats;
      clients, outboxes, lastClip := {}, map[], None;
    }

    method HandleMessage(msg: Message) returns (ack: Option<RegisterResult>)
      requires Wired(State())
      modifies this
      ensures Wired(State())
      ensures (State(), ack) == Handle(old(State()), maxClients, msg)
    {
      ack := None;
      match msg
      case Register(id) =>
        if |clients| >= maxClients {
          return Some(AtCapacity);
        }
        clients := clients + {id};
        outboxes := outboxes[id := Outbox([], [], true)];
        stats := Counted(stats, 1);
        ack := Some(Accepted(lastClip));
      case Deregister(id) =>
        if id in clients {
          clients := clients - {id};
          stats := Counted(stats, -1);
        }
      case Publish(from, clip) =>
        var stamped := clip.(from := Some(from));
        lastClip := Some(stamped);
        Relay(from, Clip(stamped));
      case PublishFile(from, chunk) =>
        Relay(from, FileChunk(chunk.(from := Some(from))));
    }

    /** The loop over the peers, in whatever order the table yields them. */
    method Relay(from: Uuid, frame: Frame)
      requires Wired(State())
      modifies this`outboxes
      ensures outboxes == FanOut(old(outboxes), clients - {from}, frame)
    {
      ghost var before := outboxes;
      var todo := clients;
      assert outboxes == FanOut(before, {}, frame);
      while todo != {}
        invariant todo <= clients && outboxes.Keys == before.Keys
        invariant outboxes == FanOut(before, clients - todo - {from}, frame)
        decreases todo
      {
        var peer :| peer in todo;
        todo := todo - {peer};
        if peer != from {
          outboxes := outboxes[peer := Offer(outboxes[peer], frame)];
        }
      }
    }
  }

  /** What one message does to a client's channels depends on nothing but that client's own channels
      and membership: no other peer's fullness matters. */
  lemma PeerIndependence(h: HubState, g: HubState, maxClients: nat, msg: Message, client: Uuid)
    requires client in h.outboxes && client in g.outboxes && h.outboxes[client] == g.outboxes[client]
    requires client in h.clients <==> client in g.clients
    requires msg.Register? ==> msg.id != client
    ensures var (h', g') := (Handle(h, maxClients, msg).0, Handle(g, maxClients, msg).0);
            && client in h'.outboxes && client in g'.outboxes
            && h'.outboxes[client] == g'.outboxes[client]
  {}

  /** The hub refuses a registration exactly when it is full, and by itself never grows past its
      limit, whatever it is sent. */
  lemma HubCapsItself(h: HubState, maxClients: nat, msg: Message)
    requires |h.clients| <= maxClients
    ensures |Handle(h, maxClients, msg).0.clients| <= maxClients
    ensures Handle(h, maxClients, msg).1 == Some(AtCapacity) <==> msg.Register? && |h.clients| == maxClients
  {
    if msg.Register? {
      SizeOfUnion(h.clients, msg.id);
    } else if msg.Deregister? {
      SizeOfRest(h.clients, msg.id);
    }
  }

  lemma SizeOfUnion(clients: set<Uuid>, id: Uuid)
    ensures |clients + {id}| <= |clients| + 1
  {}

  lemma SizeOfRest(clients: set<Uuid>, id: Uuid)
    ensures |clients - {id}| <= |clients|
  {
    assert clients == (clients - {id}) + (clients * {id});
  }

  /** Every other client with room gets the stamped frame as its newest, and the rest of the channel
      memory stays as it is. */
  lemma FanOutReaches(h: HubState, maxClients: nat, msg: Message, client: Uuid)
    requires Wired(h) && client in h.outboxes && (msg.Publish? || msg.PublishFile?)
    ensures var o, h' := h.outboxes[client], Handle(h, maxClients, msg).0;
            && client in h'.outboxes && h'.clients == h.clients
            && var reached := client in h.clients && client != msg.from && o.open;
            && h'.outboxes[client] == o.(
                 clips := if reached && msg.Publish? && |o.clips| < PER_CLIENT_CHANNEL_BUF
                          then o.clips + [msg.clip.(from := Some(msg.from))] else o.clips,
                 files := if reached && msg.PublishFile? && |o.files| < PER_CLIENT_FILE_CHANNEL_BUF
                          then o.files + [msg.chunk.(from := Some(msg.from))] else o.files)
  {}

  // Whole message sequences.

  /** The hub after these messages, one by one. */
  function HandleAll(h: HubState, maxClients: nat, msgs: seq<Message>): HubState {
    if |msgs| == 0 then h
    else Handle(HandleAll(h, maxClients, msgs[..|msgs| - 1]), maxClients, msgs[|msgs| - 1]).0
  }

  /** The last clip among these messages, naming its publisher. */
  ghost predicate IsLastPublished(msgs: seq<Message>, clip: Option<ClipFrame>) {
    match clip
    case None => forall i :: 0 <= i < |msgs| ==> !msgs[i].Publish?
    case Some(c) =>
      exists i :: 0 <= i < |msgs| && msgs[i].Publish? && c == msgs[i].clip.(from := Some(msgs[i].from))
                  && forall j :: i < j < |msgs| ==> !msgs[j].Publish?
  }

  lemma {:induction false} CacheIsLast(maxClients: nat, stats: Option<int>, msgs: seq<Message>)
    ensures IsLastPublished(msgs, HandleAll(HubState({}, map[], None, stats), maxClients, msgs).lastClip)
  {
    var h := HubState({}, map[], None, stats);
    if |msgs| > 0 {
      var n := |msgs| - 1;
      CacheIsLast(maxClients, stats, msgs[..n]);
      hide IsLastPublished, FanOut, Counted;
      CacheStep(HandleAll(h, maxClients, msgs[..n]), maxClients, msgs[..n], msgs[n]);
      assert msgs == msgs[..n] + [msgs[n]];
    }
  }

  lemma CacheStep(h: HubState, maxClients: nat, msgs: seq<Message>, msg: Message)
    requires IsLastPublished(msgs, h.lastClip)
    ensures IsLastPublished(msgs + [msg], Handle(h, maxClients, msg).0.lastClip)
  {
    hide FanOut, Counted;
    var all := msgs + [msg];
    if msg.Publish? {
      assert all[|msgs|] == msg;
    } else if h.lastClip.Some? {
      var i :| 0 <= i < |msgs| && msgs[i].Publish? && h.lastClip.value == msgs[i].clip.(from := Some(msgs[i].from))
               && forall j :: i < j < |msgs| ==> !msgs[j].Publish?;
      assert all[i] == msgs[i];
      assert forall j :: i < j < |all| ==> !all[j].Publish?;
    }
  }

  /** What a newcomer is told: after any messages, a registration is answered with the last clip they
      published, naming its publisher, or with none if they published none, and starts with two empty
      channels; or it is refused, exactly when the hub is full. No other message is answered, and
      neither kind touches anybody else's channels. */
  lemma AnsweredWithLast(maxClients: nat, stats: Option<int>, msgs: seq<Message>, msg: Message)
    ensures var h := HandleAll(HubState({}, map[], None, stats), maxClients, msgs);
            var (h', ack) := Handle(h, maxClients, msg);
            && (ack.None? <==> !msg.Register?)
            && (ack == Some(AtCapacity) <==> msg.Register? && |h.clients| >= maxClients)
            && (ack.Some? && ack.value.Accepted? ==>
                  && IsLastPublished(msgs, ack.value.lastClip)
                  && h'.outboxes == h.outboxes[msg.id := Outbox([], [], true)])
            && (ack == Some(AtCapacity) ==> h' == h)
            && (msg.Deregister? ==> h'.outboxes == h.outboxes)
  {
    CacheIsLast(maxClients, stats, msgs);
    hide HandleAll, IsLastPublished;
  }

  function ClientsAfter(maxClients: nat, stats: Option<int>, msgs: seq<Message>): set<Uuid> {
    HandleAll(HubState({}, map[], None, stats), maxClients, msgs).clients
  }

  /** The registration of `id` at this place was accepted, and nothing has taken it back. */
  ghost predicate StaysFrom(maxClients: nat, stats: Option<int>, msgs: seq<Message>, i: nat, id: Uuid) {
    && i < |msgs| && msgs[i] == Register(id)
    && |ClientsAfter(maxClients, stats, msgs[..i])| < maxClients
    && forall j :: i < j < |msgs| ==> msgs[j] != Deregister(id)
  }

  /** One more message: earlier registrations stay, unless it takes them back. */
  lemma StaysStep(maxClients: nat, stats: Option<int>, msgs: seq<Message>, i: nat, id: Uuid)
    requires i < |msgs| - 1
    ensures StaysFrom(maxClients, stats, msgs, i, id) <==>
      StaysFrom(maxClients, stats, msgs[..|msgs| - 1], i, id) && msgs[|msgs| - 1] != Deregister(id)
  {
    hide HandleAll;
    var before := msgs[..|msgs| - 1];
    assert before[..i] == msgs[..i];
    assert forall j :: i < j < |msgs| ==> j == |msgs| - 1 || msgs[j] == before[j];
  }

  /** Who the clients are: after any messages, exactly those whose registration found room, with no
      departure since. */
  lemma {:induction false} ClientsAre(maxClients: nat, stats: Option<int>, msgs: seq<Message>, id: Uuid)
    ensures id in ClientsAfter(maxClients, stats, msgs) <==> exists i :: StaysFrom(maxClients, stats, msgs, i, id)
  {
    BeyondEnd(maxClients, stats, msgs, id);
    if |msgs| > 0 {
      var n := |msgs| - 1;
      ClientsAre(maxClients, stats, msgs[..n], id);
      ClientsNext(maxClients, stats, msgs, id);
    }
    hide ClientsAfter, StaysFrom;
  }

  lemma ClientsNext(maxClients: nat, stats: Option<int>, msgs: seq<Message>, id: Uuid)
    requires |msgs| > 0
    requires var n := |msgs| - 1;
             id in ClientsAfter(maxClients, stats, msgs[..n]) <==> exists i :: StaysFrom(maxClients, stats, msgs[..n], i, id)
    ensures id in ClientsAfter(maxClients, stats, msgs) <==> exists i :: StaysFrom(maxClients, stats, msgs, i, id)
  {
    var n := |msgs| - 1;
    var before := msgs[..n];
    ClientsStep(HandleAll(HubState({}, map[], None, stats), maxClients, before), maxClients, msgs[n], id);
    NewestStays(maxClients, stats, msgs, id);
    BeyondEnd(maxClients, stats, msgs, id);
    BeyondEnd(maxClients, stats, before, id);
    assert id in ClientsAfter(maxClients, stats, msgs) <==>
      || (id in ClientsAfter(maxClients, stats, before) && msgs[n] != Deregister(id))
      || StaysFrom(maxClients, stats, msgs, n, id) by { hide StaysFrom; }
    hide ClientsAfter, StaysFrom, HandleAll, Handle;
    if id in ClientsAfter(maxClients, stats, before) && msgs[n] != Deregister(id) {
      var i: nat :| StaysFrom(maxClients, stats, before, i, id);
      StaysStep(maxClients, stats, msgs, i, id);
    }
    if i: nat :| StaysFrom(maxClients, stats, msgs, i, id) {
      if i < n {
        StaysStep(maxClients, stats, msgs, i, id);
      }
    }
  }

  lemma NewestStays(maxClients: nat, stats: Option<int>, msgs: seq<Message>, id: Uuid)
    requires |msgs| > 0
    ensures var n := |msgs| - 1;
            StaysFrom(maxClients, stats, msgs, n, id) <==>
              && msgs[n] == Register(id)
              && |ClientsAfter(maxClients, stats, msgs[..n])| < maxClients
  {
    hide HandleAll;
  }

  lemma BeyondEnd(maxClients: nat, stats: Option<int>, msgs: seq<Message>, id: Uuid)
    ensures forall i: nat :: StaysFrom(maxClients, stats, msgs, i, id) ==> i < |msgs|
  {
    hide HandleAll;
  }

  lemma ClientsStep(h: HubState, maxClients: nat, msg: Message, id: Uuid)
    ensures id in Handle(h, maxClients, msg).0.clients <==>
      (id in h.clients && msg != Deregister(id)) || (msg == Register(id) && |h.clients| < maxClients)
  {}
}
