/** The semaphore outside the hub keeps the hub from ever being full. */
module ServerCapacity {
  import opened Wrappers
  import opened Protocol
  import opened Hub
  import opened Server

  function Apply(clients: set<Uuid>, msg: Message): set<Uuid> {
    match msg
    case Register(id) => clients + {id}
    case Deregister(id) => clients - {id}
    case _ => clients
  }

  /** Who will be a client once the inbox is empty. */
  function Members(clients: set<Uuid>, inbox: seq<Message>): set<Uuid>
    decreases |inbox|
  {
    if |inbox| == 0 then clients else Members(Apply(clients, inbox[0]), inbox[1..])
  }

  /** The client set stays within the limit all the way through the inbox. */
  ghost predicate Bounded(clients: set<Uuid>, inbox: seq<Message>, limit: nat)
    decreases |inbox|
  {
    |clients| <= limit && (|inbox| > 0 ==> Bounded(Apply(clients, inbox[0]), inbox[1..], limit))
  }

  lemma {:induction false} MembersAppend(clients: set<Uuid>, inbox: seq<Message>, msg: Message)
    ensures Members(clients, inbox + [msg]) == Apply(Members(clients, inbox), msg)
    decreases |inbox|
  {
    if |inbox| == 0 {
      assert ([msg])[1..] == [];
    } else {
      assert (inbox + [msg])[1..] == inbox[1..] + [msg];
      MembersAppend(Apply(clients, inbox[0]), inbox[1..], msg);
    }
  }

  lemma {:induction false} BoundedAppend(clients: set<Uuid>, inbox: seq<Message>, msg: Message, limit: nat)
    requires Bounded(clients, inbox, limit) && |Apply(Members(clients, inbox), msg)| <= limit
    ensures Bounded(clients, inbox + [msg], limit)
    decreases |inbox|
  {
    if |inbox| == 0 {
      assert ([msg])[1..] == [];
      assert Bounded(Apply(clients, msg), [], limit);
    } else {
      assert (inbox + [msg])[1..] == inbox[1..] + [msg];
      BoundedAppend(Apply(clients, inbox[0]), inbox[1..], msg, limit);
    }
  }

  ghost function Holders(s: Server): set<Uuid> {
    set id | id in s.conns && s.conns[id].phase != Gone
  }

  ghost predicate IsMember(c: Conn) {
    c.phase.Registering? || c.phase.Acked? || c.phase.Serving?
  }

  ghost predicate PermitsAddUp(s: Server) {
    |Holders(s)| + s.permits == s.maxConns
  }

  ghost predicate InboxFits(s: Server) {
    && Bounded(s.hub.clients, s.inbox, s.maxConns)
    && (forall id :: id in Members(s.hub.clients, s.inbox) <==> id in s.conns && IsMember(s.conns[id]))
    && (forall i :: 0 <= i < |s.inbox| && s.inbox[i].Register? ==> InPhase(s, s.inbox[i].id, Registering))
    && (forall i, j :: 0 <= i < j < |s.inbox| && s.inbox[i].Register? && s.inbox[j].Register? ==> s.inbox[i].id != s.inbox[j].id)
  }

  ghost predicate HubAgrees(s: Server) {
    && s.hub.clients <= s.hub.outboxes.Keys
    && (forall id :: id in s.hub.clients ==>
          id in s.conns && (s.conns[id].phase.Acked? || s.conns[id].phase.Serving? || s.conns[id].phase.Leaving? || s.conns[id].phase.Gone?))
    && (forall id :: id in s.conns ==> !s.conns[id].phase.Refused?)
    && (s.hub.stats.Some? ==> s.hub.stats.value == |s.hub.clients|)
  }

  ghost predicate CapacityInv(s: Server) {
    PermitsAddUp(s) && InboxFits(s) && HubAgrees(s)
  }

  lemma HoldersAdd(s: Server, s': Server, id: Uuid)
    requires id !in s.conns || s.conns[id].phase == Gone
    requires id in s'.conns && s'.conns[id].phase != Gone
    requires s'.conns.Keys == s.conns.Keys + {id}
    requires forall other :: other in s.conns && other != id ==> s'.conns[other].phase == s.conns[other].phase
    ensures Holders(s') == Holders(s) + {id} && id !in Holders(s)
  {}

  lemma HoldersDrop(s: Server, s': Server, id: Uuid)
    requires id in s.conns && s.conns[id].phase != Gone
    requires id in s'.conns && s'.conns[id].phase == Gone
    requires s'.conns.Keys == s.conns.Keys
    requires forall other :: other in s.conns && other != id ==> s'.conns[other].phase == s.conns[other].phase
    ensures Holders(s') == Holders(s) - {id} && id in Holders(s)
  {}

  lemma HoldersSame(s: Server, s': Server)
    requires s'.conns.Keys == s.conns.Keys
    requires forall id :: id in s.conns ==> (s'.conns[id].phase == Gone <==> s.conns[id].phase == Gone)
    ensures Holders(s') == Holders(s)
  {}

  // Every kind of step keeps the invariant.

  /** The tasks of a connection at work: no phase and no membership changes. */
  ghost predicate IsTraffic(step: Step) {
    || step.Read? || step.ReaderStops? || step.WriteInternal? || step.WriteClip? || step.WriteFile? || step.WriterStops?
  }

  ghost predicate SamePhases(s: Server, s': Server) {
    && s'.conns.Keys == s.conns.Keys
    && forall id :: id in s.conns ==> s'.conns[id].phase == s.conns[id].phase
  }

  lemma TrafficFrame(s: Server, step: Step)
    requires Enabled(s, step) && IsTraffic(step)
    ensures var s' := Next(s, step);
            && SamePhases(s, s') && s'.permits == s.permits && s'.maxConns == s.maxConns
            && s'.hub.clients == s.hub.clients && s'.hub.stats == s.hub.stats && s.hub.outboxes.Keys <= s'.hub.outboxes.Keys
            && (s'.inbox == s.inbox || exists msg: Message :: s'.inbox == s.inbox + [msg] && !msg.Register? && !msg.Deregister?)
  {
    var s' := Next(s, step);
    if step.Read? {
      if s'.inbox != s.inbox {
        var msg := s'.inbox[|s.inbox|];
        assert s'.inbox == s.inbox + [msg] && !msg.Register? && !msg.Deregister?;
      }
    } else {
      WriterFrame(s, step);
    }
  }

  lemma WriterFrame(s: Server, step: Step)
    requires Enabled(s, step) && IsTraffic(step) && !step.Read?
    ensures var s' := Next(s, step);
            && SamePhases(s, s') && s'.permits == s.permits && s'.maxConns == s.maxConns && s'.inbox == s.inbox
            && s'.hub.clients == s.hub.clients && s'.hub.stats == s.hub.stats && s.hub.outboxes.Keys <= s'.hub.outboxes.Keys
  {
    hide WriteOut;
    match step
    case WriteInternal(id, ok) =>
      var c := s.conns[id];
      WriteOutFrame(WithConn(s, id, c.(internal := c.internal[1..])), id, c.internal[0], ok);
    case WriteClip(id, ok) =>
      var o := s.hub.outboxes[id];
      WriteOutFrame(WithOutbox(s, id, o.(clips := o.clips[1..])), id, Clip(o.clips[0]), ok);
    case WriteFile(id, ok) =>
      var o := s.hub.outboxes[id];
      WriteOutFrame(WithOutbox(s, id, o.(files := o.files[1..])), id, FileChunk(o.files[0]), ok);
    case _ =>
  }

  lemma WriteOutFrame(s: Server, id: Uuid, frame: Frame, ok: bool)
    requires id in s.conns
    ensures var s' := WriteOut(s, id, frame, ok);
            && SamePhases(s, s') && s'.(hub := s.hub, conns := s.conns) == s
            && s'.hub.(outboxes := s.hub.outboxes) == s.hub && s'.hub.outboxes.Keys == s.hub.outboxes.Keys
  {}

  lemma TrafficStep(s: Server, step: Step)
    requires CapacityInv(s) && Enabled(s, step) && IsTraffic(step)
    ensures CapacityInv(Next(s, step))
  {
    hide Next, Enabled, Bounded, Members;
    TrafficFrame(s, step);
    var s' := Next(s, step);
    HoldersSame(s, s');
    if s'.inbox != s.inbox {
      var msg: Message :| s'.inbox == s.inbox + [msg] && !msg.Register? && !msg.Deregister?;
      MembersAppend(s.hub.clients, s.inbox, msg);
      MembersFit(s);
      BoundedAppend(s.hub.clients, s.inbox, msg, s.maxConns);
    }
  }

  /** Members hold permits, so there are at most `maxConns` of them; and one fewer while a
      connection that is not a member yet holds one. */
  lemma MembersFit(s: Server)
    requires CapacityInv(s)
    ensures |Members(s.hub.clients, s.inbox)| <= s.maxConns
    ensures forall id :: InPhase(s, id, Admitted) ==> |Members(s.hub.clients, s.inbox) + {id}| <= s.maxConns
  {
    hide Members;
    var members := Members(s.hub.clients, s.inbox);
    SubsetSize(members, Holders(s));
    forall id | InPhase(s, id, Admitted) ensures |members + {id}| <= s.maxConns {
      SubsetSize(members + {id}, Holders(s));
    }
  }

  /** Only one connection changes, and the hub does not. */
  ghost predicate OneConn(s: Server, s': Server, id: Uuid) {
    && s'.hub == s.hub && s'.maxConns == s.maxConns && id in s'.conns
    && s'.conns.Keys == s.conns.Keys + {id}
    && forall other :: other in s.conns && other != id ==> s'.conns[other] == s.conns[other]
  }

  lemma AdmissionFrame(s: Server, step: Step)
    requires Enabled(s, step)
    requires step.Accept? || step.AbortUpgrade? || step.CloseRefused? || step.StartServing? || step.Release?
    ensures var s' := Next(s, step);
            && OneConn(s, s', step.id) && s'.inbox == s.inbox
            && s'.conns[step.id].phase ==
                 (if step.Accept? then Admitted else if step.StartServing? then Serving else Gone)
            && s'.permits == s.permits + (if step.Accept? then -1 else if step.StartServing? then 0 else 1)
    ensures step.Accept? <==> step.id !in s.conns
    ensures step.id in s.conns ==>
              match s.conns[step.id].phase
              case Admitted => step.AbortUpgrade?
              case Refused => step.CloseRefused?
              case Acked(_) => step.StartServing?
              case Leaving => step.Release?
              case _ => false
  {}

  lemma AdmissionKeepsInbox(s: Server, s': Server, id: Uuid)
    requires InboxFits(s) && OneConn(s, s', id) && s'.inbox == s.inbox
    requires id in s.conns ==> !s.conns[id].phase.Registering? && (IsMember(s.conns[id]) <==> IsMember(s'.conns[id]))
    requires id !in s.conns ==> !IsMember(s'.conns[id])
    ensures InboxFits(s')
  {
    hide Bounded, Members;
  }

  lemma AdmissionKeepsHub(s: Server, s': Server, id: Uuid)
    requires HubAgrees(s) && OneConn(s, s', id) && !s'.conns[id].phase.Refused?
    requires id in s.hub.clients ==> s'.conns[id].phase.Serving? || s'.conns[id].phase.Leaving? || s'.conns[id].phase.Gone?
    ensures HubAgrees(s')
  {}

  lemma AdmissionKeepsPermits(s: Server, s': Server, id: Uuid)
    requires PermitsAddUp(s) && OneConn(s, s', id)
    requires id in s.conns ==> s.conns[id].phase != Gone
    requires s'.permits == s.permits + (if id !in s.conns then -1 else if s'.conns[id].phase == Gone then 1 else 0)
    requires id !in s.conns ==> s'.conns[id].phase != Gone
    ensures PermitsAddUp(s')
  {
    if id !in s.conns {
      HoldersAdd(s, s', id);
    } else if s'.conns[id].phase == Gone {
      HoldersDrop(s, s', id);
    } else {
      HoldersSame(s, s');
    }
  }

  lemma AdmissionStep(s: Server, step: Step)
    requires CapacityInv(s) && Enabled(s, step)
    requires step.Accept? || step.AbortUpgrade? || step.CloseRefused? || step.StartServing? || step.Release?
    ensures CapacityInv(Next(s, step))
  {
    hide Next, Holders, InboxFits, PermitsAddUp;
    AdmissionFrame(s, step);
    hide Enabled;
    var s' := Next(s, step);
    AdmissionKeepsInbox(s, s', step.id);
    AdmissionKeepsHub(s, s', step.id);
    AdmissionKeepsPermits(s, s', step.id);
  }

  lemma EnqueueFrame(s: Server, step: Step)
    requires Enabled(s, step) && (step.SendRegister? || step.SendDeregister?)
    ensures var s' := Next(s, step);
            && OneConn(s, s', step.id) && s'.permits == s.permits
            && s'.inbox == s.inbox + [if step.SendRegister? then Register(step.id) else Deregister(step.id)]
            && s'.conns[step.id].phase == (if step.SendRegister? then Registering else Leaving)
            && InPhase(s, step.id, if step.SendRegister? then Admitted else Serving)
  {}

  lemma EnqueueKeepsInbox(s: Server, s': Server, id: Uuid, msg: Message)
    requires InboxFits(s) && OneConn(s, s', id) && s'.inbox == s.inbox + [msg]
    requires Bounded(s.hub.clients, s'.inbox, s.maxConns)
    requires Members(s.hub.clients, s'.inbox) == Apply(Members(s.hub.clients, s.inbox), msg)
    requires id in s.conns && !s.conns[id].phase.Registering?
    requires if s'.conns[id].phase.Registering? then msg == Register(id) else s'.conns[id].phase.Leaving? && msg == Deregister(id)
    ensures InboxFits(s')
  {
    hide Bounded, Members;
    forall i | 0 <= i < |s'.inbox| && s'.inbox[i].Register? ensures InPhase(s', s'.inbox[i].id, Registering) {
      assert i < |s.inbox| ==> InPhase(s, s.inbox[i].id, Registering);
    }
    forall i, j | 0 <= i < j < |s'.inbox| && s'.inbox[i].Register? && s'.inbox[j].Register?
      ensures s'.inbox[i].id != s'.inbox[j].id
    {
      assert InPhase(s, s.inbox[i].id, Registering);
    }
  }

  lemma EnqueueKeepsHub(s: Server, s': Server, id: Uuid)
    requires HubAgrees(s) && OneConn(s, s', id)
    requires s'.conns[id].phase.Leaving? || (id !in s.hub.clients && s'.conns[id].phase.Registering?)
    ensures HubAgrees(s')
  {}

  lemma EnqueueStep(s: Server, step: Step)
    requires CapacityInv(s) && Enabled(s, step) && (step.SendRegister? || step.SendDeregister?)
    ensures CapacityInv(Next(s, step))
  {
    EnqueueFrame(s, step);
    MembersFit(s);
    var s' := Next(s, step);
    EnqueueKeepsHub(s, s', step.id);
    HoldersSame(s, s');
    hide Next, Enabled, Holders, HubAgrees, InboxFits, Members;
    EnqueueInbox(s, s', step.id, if step.SendRegister? then Register(step.id) else Deregister(step.id));
  }

  lemma EnqueueInbox(s: Server, s': Server, id: Uuid, msg: Message)
    requires InboxFits(s) && OneConn(s, s', id) && s'.inbox == s.inbox + [msg]
    requires |Members(s.hub.clients, s.inbox)| <= s.maxConns
    requires msg == Register(id) ==> |Members(s.hub.clients, s.inbox) + {id}| <= s.maxConns
    requires id in s.conns && !s.conns[id].phase.Registering?
    requires if s'.conns[id].phase.Registering? then msg == Register(id) else s'.conns[id].phase.Leaving? && msg == Deregister(id)
    ensures InboxFits(s')
  {
    hide InboxFits, Members, Bounded;
    var members := Members(s.hub.clients, s.inbox);
    MembersAppend(s.hub.clients, s.inbox, msg);
    SubsetSize(members - {id}, members);
    InboxIsBounded(s);
    BoundedAppend(s.hub.clients, s.inbox, msg, s.maxConns);
    EnqueueKeepsInbox(s, s', id, msg);
  }

  lemma InboxIsBounded(s: Server)
    requires InboxFits(s)
    ensures Bounded(s.hub.clients, s.inbox, s.maxConns) && |s.hub.clients| <= s.maxConns
  {}

  lemma HeadIsAccepted(s: Server)
    requires CapacityInv(s) && Enabled(s, HubHandles) && s.inbox[0].Register?
    ensures s.inbox[0].id !in s.hub.clients && |s.hub.clients| < s.maxConns
  {
    var clients := s.hub.clients;
    assert InPhase(s, s.inbox[0].id, Registering);
    assert |clients + {s.inbox[0].id}| <= s.maxConns by {
      assert Bounded(Apply(clients, s.inbox[0]), s.inbox[1..], s.maxConns);
    }
  }

  /** What the hub's own step changes. */
  lemma HubFrame(s: Server)
    requires Enabled(s, HubHandles)
    requires s.inbox[0].Register? ==> s.inbox[0].id !in s.hub.clients && |s.hub.clients| < s.maxConns
    ensures var s', msg := Next(s, HubHandles), s.inbox[0];
            && s'.inbox == s.inbox[1..] && s'.permits == s.permits && s'.maxConns == s.maxConns
            && s'.hub.clients == Apply(s.hub.clients, msg) && s'.hub.clients <= s'.hub.outboxes.Keys
            && s'.hub.stats == Handle(s.hub, s.maxConns, msg).0.stats
            && s'.conns.Keys == s.conns.Keys
            && (forall id :: id in s.conns ==>
                  if msg == Register(id) then s'.conns[id].phase.Acked? else s'.conns[id] == s.conns[id])
  {
    hide Counted, FanOut, SeenBy;
    match s.inbox[0]
    case Register(id) =>
      assert Handle(s.hub, s.maxConns, s.inbox[0]).1.value.Accepted?;
    case Deregister(_) =>
    case Publish(from, clip) =>
      FanOutKeys(s.hub.outboxes, s.hub.clients - {from}, Clip(clip.(from := Some(from))));
    case PublishFile(from, chunk) =>
      FanOutKeys(s.hub.outboxes, s.hub.clients - {from}, FileChunk(chunk.(from := Some(from))));
  }

  lemma FanOutKeys(outboxes: map<Uuid, Outbox>, peers: set<Uuid>, frame: Frame)
    ensures FanOut(outboxes, peers, frame).Keys == outboxes.Keys
  {}

  lemma HubKeepsInbox(s: Server, s': Server)
    requires InboxFits(s) && |s.inbox| > 0 && s'.inbox == s.inbox[1..] && s'.maxConns == s.maxConns
    requires s'.hub.clients == Apply(s.hub.clients, s.inbox[0]) && s'.conns.Keys == s.conns.Keys
    requires forall id :: id in s.conns ==>
               if s.inbox[0] == Register(id) then s'.conns[id].phase.Acked? else s'.conns[id] == s.conns[id]
    ensures InboxFits(s')
  {
    InboxTail(s);
    hide Bounded, Members;
    assert s.inbox[0].Register? ==> InPhase(s, s.inbox[0].id, Registering);
    forall i | 0 <= i < |s'.inbox| && s'.inbox[i].Register? ensures InPhase(s', s'.inbox[i].id, Registering) {
      assert s'.inbox[i] == s.inbox[i + 1] && InPhase(s, s.inbox[i + 1].id, Registering);
    }
    forall i, j | 0 <= i < j < |s'.inbox| && s'.inbox[i].Register? && s'.inbox[j].Register?
      ensures s'.inbox[i].id != s'.inbox[j].id
    {
      assert s'.inbox[i] == s.inbox[i + 1] && s'.inbox[j] == s.inbox[j + 1];
    }
  }

  lemma HubStepKeeps(s: Server)
    requires CapacityInv(s) && Enabled(s, HubHandles) && s.maxConns < USIZE_COUNT
    ensures CapacityInv(Next(s, HubHandles))
  {
    var s', msg := Next(s, HubHandles), s.inbox[0];
    if msg.Register? {
      HeadIsAccepted(s);
      assert InPhase(s, msg.id, Registering);
    }
    InboxIsBounded(s);
    CountsAgree(s);
    HubFrame(s);
    hide Next, Enabled, Holders, InboxFits, Handle, HubAgrees;
    HoldersSame(s, s');
    HubKeepsInbox(s, s');
    HubKeepsAgreement(s, s');
  }

  lemma HubKeepsAgreement(s: Server, s': Server)
    requires HubAgrees(s) && |s.inbox| > 0 && s'.conns.Keys == s.conns.Keys
    requires s.inbox[0].Register? ==> s.inbox[0].id in s.conns
    requires s'.hub.clients == Apply(s.hub.clients, s.inbox[0]) && s'.hub.clients <= s'.hub.outboxes.Keys
    requires s'.hub.stats.Some? ==> s'.hub.stats.value == |s'.hub.clients|
    requires forall id :: id in s.conns ==>
               if s.inbox[0] == Register(id) then s'.conns[id].phase.Acked? else s'.conns[id] == s.conns[id]
    ensures HubAgrees(s')
  {}

  lemma InboxTail(s: Server)
    requires |s.inbox| > 0 && InboxFits(s)
    ensures Bounded(Apply(s.hub.clients, s.inbox[0]), s.inbox[1..], s.maxConns)
    ensures Members(Apply(s.hub.clients, s.inbox[0]), s.inbox[1..]) == Members(s.hub.clients, s.inbox)
  {}

  lemma CountsAgree(s: Server)
    requires HubAgrees(s) && Enabled(s, HubHandles) && s.maxConns < USIZE_COUNT
    requires s.inbox[0].Register? ==> s.inbox[0].id !in s.hub.clients && |s.hub.clients| < s.maxConns
    requires |s.hub.clients| <= s.maxConns
    ensures var h := Handle(s.hub, s.maxConns, s.inbox[0]).0;
            h.stats.Some? ==> h.stats.value == |h.clients|
  {
    var h := s.hub;
    assert h.stats.Some? ==> h.stats.value == |h.clients|;
    hide FanOut, HubAgrees, Enabled;
    CountAfter(h, s.maxConns, s.inbox[0]);
  }

  lemma CountAfter(h: HubState, maxClients: nat, msg: Message)
    requires h.stats.Some? ==> h.stats.value == |h.clients|
    requires |h.clients| <= maxClients < USIZE_COUNT
    requires msg.Register? ==> msg.id !in h.clients && |h.clients| < maxClients
    ensures var h' := Handle(h, maxClients, msg).0;
            h'.stats.Some? ==> h'.stats.value == |h'.clients|
  {
    hide FanOut;
    if msg.Register? {
      assert |h.clients + {msg.id}| == |h.clients| + 1;
    } else if msg.Deregister? && msg.id in h.clients {
      assert |h.clients - {msg.id}| == |h.clients| - 1;
    }
  }

  lemma CapacityStep(s: Server, step: Step)
    requires CapacityInv(s) && Enabled(s, step) && s.maxConns < USIZE_COUNT
    ensures CapacityInv(Next(s, step)) && Next(s, step).maxConns == s.maxConns
  {
    if IsTraffic(step) {
      TrafficStep(s, step);
      TrafficFrame(s, step);
    } else if step.HubHandles? {
      HubStepKeeps(s);
    } else if step.SendRegister? || step.SendDeregister? {
      EnqueueStep(s, step);
    } else {
      AdmissionStep(s, step);
    }
  }

  lemma {:induction false} CapacityRun(states: seq<Server>, steps: seq<Step>, maxConns: nat, counting: bool, i: nat)
    requires IsRun(states, steps, maxConns, counting) && i < |states| && maxConns < USIZE_COUNT
    ensures CapacityInv(states[i]) && states[i].maxConns == maxConns
  {
    hide Next, Enabled;
    if i == 0 {
      InitiallyEmpty(maxConns, counting);
    } else {
      CapacityRun(states, steps, maxConns, counting, i - 1);
      CapacityStep(states[i - 1], steps[i - 1]);
    }
  }

  lemma InitiallyEmpty(maxConns: nat, counting: bool)
    ensures CapacityInv(Initial(maxConns, counting))
  {
    assert Holders(Initial(maxConns, counting)) == {};
  }

  /** In every run the hub never answers that it is full, has at most `maxConns` clients, and its
      counter, if there is one, is exactly their number and never goes below zero; and once the inbox is
      empty the clients are exactly the connections that have registered and not left. */
  lemma NeverAtCapacity(states: seq<Server>, steps: seq<Step>, maxConns: nat, counting: bool, i: nat)
    requires IsRun(states, steps, maxConns, counting) && i < |states| && maxConns < USIZE_COUNT
    ensures |states[i].hub.clients| <= maxConns
    ensures states[i].hub.stats.Some? ==> states[i].hub.stats.value == |states[i].hub.clients|
    ensures forall id :: id in states[i].conns ==> states[i].conns[id].phase != Refused
    ensures |states[i].inbox| > 0 ==>
      Handle(states[i].hub, maxConns, states[i].inbox[0]).1 != Some(AtCapacity)
    ensures states[i].inbox == [] ==>
      forall id :: id in states[i].hub.clients <==> id in states[i].conns && IsMember(states[i].conns[id])
  {
    CapacityRun(states, steps, maxConns, counting, i);
    var s := states[i];
    if |s.inbox| > 0 && s.inbox[0].Register? {
      assert InPhase(s, s.inbox[0].id, Registering);
      HeadIsAccepted(s);
    }
  }
}
