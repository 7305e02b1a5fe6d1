/** One copy at one desktop reaches every desktop. */
module Propagation {
  import opened Wrappers
  import opened Protocol
  import opened Clipboard
  import opened ClipFrames
  import opened Hub
  import opened Network

  /** The situation under study: desktop `a` just copied `v`, and the codec is lossless. */
  datatype Copy = Copy(codec: Codec, a: Uuid, v: ClipChange)

  ghost predicate Travels(c: Copy) {
    && Lossless(c.codec)
    && (c.v.Text? || (c.v.Image? && c.codec.encode(c.v.image).Some?))
  }

  ghost predicate Carries(c: Copy, frame: ClipFrame) {
    frame.Validates() && FrameToChange(c.codec, frame) == Ok(c.v)
  }

  lemma StampCarries(c: Copy, frame: ClipFrame, from: Option<Uuid>)
    requires Carries(c, frame)
    ensures Carries(c, frame.(from := from))
  {}

  // Where the copy is.

  /** Nothing on its way out, and nothing pending. */
  ghost predicate Settled(d: Desk) {
    d.events == [] && d.outbound == [] && d.uplink == [] && Pending(d.os, d.trackers) == []
  }

  /** Every desktop is a registered client with open channels. */
  ghost predicate Connected(n: Net) {
    && n.hub.clients == n.desks.Keys && n.desks.Keys <= n.hub.outboxes.Keys
    && forall id :: id in n.desks ==> n.hub.outboxes[id].open
  }

  ghost predicate NothingInbound(n: Net, id: Uuid)
    requires id in n.desks && id in n.hub.outboxes
  {
    n.hub.outboxes[id].clips == [] && n.desks[id].downlink == [] && n.desks[id].apply == []
  }

  /** The copy has not reached the hub: nothing is inbound anywhere and the others are settled. */
  ghost predicate Unpublished(c: Copy, n: Net) {
    && Connected(n) && c.a in n.desks && n.desks[c.a].os == Holding(c.v)
    && forall id :: id in n.desks ==> NothingInbound(n, id) && (id != c.a ==> Settled(n.desks[id]))
  }

  ghost predicate OnClipboard(c: Copy, n: Net) {
    && Unpublished(c, n) && n.inbox == []
    && var d := n.desks[c.a];
    && d.events == [] && d.outbound == [] && d.uplink == [] && Pending(d.os, d.trackers) == [c.v]
  }

  ghost predicate AtSupervisor(c: Copy, n: Net) {
    && Unpublished(c, n) && n.inbox == []
    && var d := n.desks[c.a];
    && d.events == [c.v] && d.outbound == [] && d.uplink == [] && Pending(d.os, d.trackers) == []
  }

  ghost predicate AtTransport(c: Copy, n: Net) {
    && Unpublished(c, n) && n.inbox == []
    && var d := n.desks[c.a];
    && d.events == [] && |d.outbound| == 1 && Carries(c, d.outbound[0]) && d.uplink == [] && Pending(d.os, d.trackers) == []
  }

  ghost predicate OnUplink(c: Copy, n: Net) {
    && Unpublished(c, n) && n.inbox == []
    && var d := n.desks[c.a];
    && d.events == [] && d.outbound == [] && |d.uplink| == 1 && Carries(c, d.uplink[0]) && Pending(d.os, d.trackers) == []
  }

  ghost predicate AtHub(c: Copy, n: Net) {
    && Unpublished(c, n) && Settled(n.desks[c.a])
    && |n.inbox| == 1 && n.inbox[0].Publish? && n.inbox[0].from == c.a && Carries(c, n.inbox[0].clip)
  }

  /** One receiver: the clip waits in exactly one of its queues, or is on its clipboard. */
  ghost predicate Reaching(c: Copy, o: Outbox, d: Desk) {
    || (|o.clips| == 1 && Carries(c, o.clips[0]) && d.downlink == [] && d.apply == [])
    || (o.clips == [] && |d.downlink| == 1 && Carries(c, d.downlink[0]) && d.apply == [])
    || (o.clips == [] && d.downlink == [] && d.apply == [c.v])
    || (o.clips == [] && d.downlink == [] && d.apply == [] && d.os == Holding(c.v))
  }

  ghost predicate Published(c: Copy, n: Net) {
    && Connected(n) && c.a in n.desks && n.inbox == []
    && n.hub.lastClip.Some? && Carries(c, n.hub.lastClip.value)
    && n.desks[c.a].os == Holding(c.v)
    && forall id :: id in n.desks ==> Settled(n.desks[id]) && Reaching(c, n.hub.outboxes[id], n.desks[id])
  }

  ghost predicate Underway(c: Copy, n: Net) {
    OnClipboard(c, n) || AtSupervisor(c, n) || AtTransport(c, n) || OnUplink(c, n) || AtHub(c, n) || Published(c, n)
  }

  /** No other copy, no stray clip or received file, no connection lost or gained, and no failing send
      or write. */
  ghost predicate Undisturbed(step: Step) {
    match step
    case UserCopy(_, _) => false
    case Stray(_, _) => false
    case BatchSaved(_, _) => false
    case ConnectionLost(_, _, _) => false
    case Membership(_) => false
    case Send(_, ok) => ok
    case ApplyNext(_, ok) => ok
    case _ => true
  }

  ghost predicate StageKept(c: Copy, n: Net, n': Net) {
    && (OnClipboard(c, n) ==> OnClipboard(c, n'))
    && (AtSupervisor(c, n) ==> AtSupervisor(c, n'))
    && (AtTransport(c, n) ==> AtTransport(c, n'))
    && (OnUplink(c, n) ==> OnUplink(c, n'))
    && (AtHub(c, n) ==> AtHub(c, n'))
    && (Published(c, n) ==> Published(c, n'))
  }

  // Polls.

  lemma SettledPollIsSilent(d: Desk, faults: Faults)
    requires Pending(d.os, d.trackers) == []
    ensures OnPoll(d, faults) == d.(trackers := OnPoll(d, faults).trackers)
    ensures Pending(d.os, OnPoll(d, faults).trackers) == []
  {
    hide Poll, Pending;
    PollConsumes(d.os, d.trackers, faults);
  }

  lemma CopiedPoll(d: Desk, v: ClipChange, faults: Faults)
    requires Pending(d.os, d.trackers) == [v] && d.events == []
    ensures var d' := OnPoll(d, faults);
            && d' == d.(trackers := d'.trackers, events := d'.events)
            && ((d'.events == [] && Pending(d.os, d'.trackers) == [v])
                || (d'.events == [v] && Pending(d.os, d'.trackers) == []))
  {
    hide Poll, Pending;
    PollConsumes(d.os, d.trackers, faults);
    var (_, change) := Poll(d.os, d.trackers, faults);
    if change.Some? {
      assert change.value == v && d.events + [v] == [v];
    }
  }

  // Stages before the hub.

  /** A poll finds nothing, or it finds the copy. */
  lemma PollStage(c: Copy, n: Net, id: Uuid, faults: Faults)
    requires Underway(c, n) && Enabled(n, PollTick(id, faults))
    ensures var n' := Next(c.codec, n, PollTick(id, faults));
            && n'.desks.Keys == n.desks.Keys
            && (if n'.desks[id].events == n.desks[id].events
                then n' == Update(n, id, n.desks[id].(trackers := n'.desks[id].trackers)) && StageKept(c, n, n')
                else OnClipboard(c, n) && AtSupervisor(c, n'))
  {
    hide Pending, Poll, Carries, Holding;
    var n' := Next(c.codec, n, PollTick(id, faults));
    assert n'.desks.Keys == n.desks.Keys;
    if OnClipboard(c, n) && id == c.a {
      CopiedPoll(n.desks[id], c.v, faults);
      CopierPolled(c, n, n');
    } else {
      SettledPollIsSilent(n.desks[id], faults);
      SameStage(c, n, n', id);
    }
  }

  lemma CopierPolled(c: Copy, n: Net, n': Net)
    requires OnClipboard(c, n) && c.a in n'.desks
    requires var d' := n'.desks[c.a];
             && n' == Update(n, c.a, n.desks[c.a].(trackers := d'.trackers, events := d'.events))
             && ((d'.events == [] && Pending(d'.os, d'.trackers) == [c.v])
                 || (d'.events == [c.v] && Pending(d'.os, d'.trackers) == []))
    ensures if n'.desks[c.a].events == [] then StageKept(c, n, n') else AtSupervisor(c, n')
  {
    hide Pending, Carries, Holding, Reaching;
    assert NothingInbound(n, c.a) && n'.desks.Keys == n.desks.Keys;
    forall id | id in n'.desks ensures NothingInbound(n', id) && (id != c.a ==> Settled(n'.desks[id])) {
      assert NothingInbound(n, id);
    }
  }

  /** A step that moves only trackers, and leaves nothing pending, stays in its stage. */
  lemma SameStage(c: Copy, n: Net, n': Net, id: Uuid)
    requires Underway(c, n) && id in n.desks && (OnClipboard(c, n) ==> id != c.a)
    requires id in n'.desks && n' == Update(n, id, n.desks[id].(trackers := n'.desks[id].trackers))
    requires Pending(n.desks[id].os, n'.desks[id].trackers) == []
    ensures StageKept(c, n, n')
  {
    hide Pending, Carries, Holding;
    assert n'.desks.Keys == n.desks.Keys;
    if Published(c, n) {
      assert Reaching(c, n.hub.outboxes[id], n.desks[id]);
      OneReceiverMoved(c, n, id, n.hub.outboxes[id], n'.desks[id]);
      SameChannels(n, id, n'.desks[id]);
    } else {
      StillUnpublished(c, n, n', id);
    }
  }

  lemma StillUnpublished(c: Copy, n: Net, n': Net, id: Uuid)
    requires Unpublished(c, n) && id in n.desks && id in n'.desks
    requires n' == Update(n, id, n.desks[id].(trackers := n'.desks[id].trackers))
    requires Pending(n.desks[id].os, n'.desks[id].trackers) == []
    ensures Unpublished(c, n')
  {
    hide Pending, Carries, Holding;
    assert NothingInbound(n, id);
    forall other | other in n'.desks ensures NothingInbound(n', other) && (other != c.a ==> Settled(n'.desks[other])) {
      assert NothingInbound(n, other);
    }
  }

  lemma SupervisorStage(c: Copy, n: Net, frameId: Uuid, ts: int)
    requires Travels(c) && AtSupervisor(c, n)
    ensures AtTransport(c, Next(c.codec, n, TakeEvent(c.a, frameId, ts)))
  {
    hide Pending, Carries, Holding, ChangeToFrame, FrameToChange;
    EncodesOk(c, frameId, ts);
  }

  lemma EncodesOk(c: Copy, frameId: Uuid, ts: int)
    requires Travels(c)
    ensures ChangeToFrame(c.codec, c.v, frameId, ts).Some? && Carries(c, ChangeToFrame(c.codec, c.v, frameId, ts).value)
  {
    var frame := ChangeToFrame(c.codec, c.v, frameId, ts).value;
    FrameRoundTrip(c.codec, c.v, frameId, ts, frame.from);
    assert frame.(from := frame.from) == frame;
  }

  /** Where the copy must be for a queue to hold anything. */
  lemma StageOfQueues(c: Copy, n: Net, id: Uuid)
    requires Underway(c, n) && id in n.desks
    ensures |n.desks[id].events| > 0 ==> AtSupervisor(c, n) && id == c.a
    ensures |n.desks[id].outbound| > 0 ==> AtTransport(c, n) && id == c.a
    ensures |n.desks[id].uplink| > 0 ==> OnUplink(c, n) && id == c.a
    ensures |n.desks[id].downlink| > 0 || |n.desks[id].apply| > 0 ==> Published(c, n)
    ensures id in n.hub.outboxes && |n.hub.outboxes[id].clips| > 0 ==> Published(c, n)
    ensures |n.inbox| > 0 ==> AtHub(c, n)
  {
    hide Pending, Carries, Holding, Reaching;
    assert Unpublished(c, n) ==> NothingInbound(n, id);
  }

  lemma SendStage(c: Copy, n: Net)
    requires AtTransport(c, n)
    ensures OnUplink(c, Next(c.codec, n, Send(c.a, true)))
  {
    hide Pending, Carries, Holding;
  }

  lemma ReadStage(c: Copy, n: Net)
    requires OnUplink(c, n)
    ensures AtHub(c, Next(c.codec, n, HubReads(c.a)))
  {
    StampCarries(c, n.desks[c.a].uplink[0], None);
    assert n.desks[c.a].uplink[0].Validates();
    hide Pending, Carries, Holding;
  }

  // The hub and after.

  /** What publishing the copy does: the stamped clip goes to every channel but the publisher's. */
  ghost predicate Fanned(c: Copy, n: Net, n': Net, stamped: ClipFrame) {
    && n'.inbox == [] && n'.hub.lastClip == Some(stamped) && n'.hub.clients == n.hub.clients
    && c.a in n.desks && n'.desks == n.desks[c.a := n.desks[c.a].(published := n.desks[c.a].published + 1)]
    && n'.hub.outboxes.Keys == n.hub.outboxes.Keys
    && (forall id :: id in n.desks ==>
          id in n.hub.outboxes && n'.hub.outboxes[id] == n.hub.outboxes[id].(clips := if id == c.a then [] else [stamped]))
  }

  lemma HubFans(c: Copy, n: Net)
    requires AtHub(c, n)
    ensures Fanned(c, n, Next(c.codec, n, HubHandles), n.inbox[0].clip.(from := Some(c.a)))
  {
    hide Pending, Carries, Holding, Settled;
    assert forall id :: id in n.desks ==> NothingInbound(n, id);
  }

  lemma FannedReaches(c: Copy, n: Net, n': Net, stamped: ClipFrame, id: Uuid)
    requires AtHub(c, n) && Fanned(c, n, n', stamped) && Carries(c, stamped) && id in n.desks
    ensures n'.hub.outboxes[id].open && Settled(n'.desks[id]) && Reaching(c, n'.hub.outboxes[id], n'.desks[id])
  {
    assert NothingInbound(n, id) && (id != c.a ==> Settled(n.desks[id]));
    hide Pending, Carries, Holding;
  }

  lemma FannedIsPublished(c: Copy, n: Net, n': Net, stamped: ClipFrame)
    requires AtHub(c, n) && Fanned(c, n, n', stamped) && Carries(c, stamped)
    ensures Published(c, n')
  {
    hide Pending, Carries, Holding, Reaching, Settled, NothingInbound;
    forall id | id in n'.desks
      ensures n'.hub.outboxes[id].open && Settled(n'.desks[id]) && Reaching(c, n'.hub.outboxes[id], n'.desks[id])
    {
      FannedReaches(c, n, n', stamped, id);
    }
  }

  lemma HubStage(c: Copy, n: Net)
    requires AtHub(c, n)
    ensures Published(c, Next(c.codec, n, HubHandles))
  {
    var stamped := n.inbox[0].clip.(from := Some(c.a));
    HubFans(c, n);
    StampCarries(c, n.inbox[0].clip, Some(c.a));
    hide Next, Fanned, Published, Carries;
    FannedIsPublished(c, n, Next(c.codec, n, HubHandles), stamped);
  }

  /** A network that differs in one desktop and its channels. */
  function Moved(n: Net, id: Uuid, o: Outbox, d: Desk): Net {
    n.(desks := n.desks[id := d], hub := n.hub.(outboxes := n.hub.outboxes[id := o]))
  }

  lemma SameChannels(n: Net, id: Uuid, d: Desk)
    requires id in n.hub.outboxes
    ensures Moved(n, id, n.hub.outboxes[id], d) == Update(n, id, d)
  {
    assert n.hub.outboxes[id := n.hub.outboxes[id]] == n.hub.outboxes;
  }

  lemma OneReceiverMoved(c: Copy, n: Net, id: Uuid, o: Outbox, d: Desk)
    requires Published(c, n) && id in n.desks
    requires o.open && Settled(d) && Reaching(c, o, d) && (id == c.a ==> d.os == Holding(c.v))
    ensures Published(c, Moved(n, id, o, d))
  {
    hide Carries, Holding, Reaching, Settled;
  }

  lemma ReceiverFacts(c: Copy, n: Net, id: Uuid)
    requires Published(c, n) && id in n.desks
    ensures id in n.hub.outboxes && n.hub.outboxes[id].open
    ensures Settled(n.desks[id]) && Reaching(c, n.hub.outboxes[id], n.desks[id])
    ensures id == c.a ==> n.desks[id].os == Holding(c.v)
    ensures c.v != Files([]) && Faithful(c.v)
  {
    hide Settled, Reaching, Holding, FrameToChange;
    NeverFiles(c.codec, n.hub.lastClip.value);
  }

  function Delivered(o: Outbox, d: Desk): (Outbox, Desk)
    requires |o.clips| > 0
  {
    (o.(clips := o.clips[1..]), d.(downlink := d.downlink + [o.clips[0]]))
  }

  /** The receiver's steps, as moves of one desktop and its channels. */
  lemma ReceiverMoves(c: Copy, n: Net, id: Uuid)
    ensures Enabled(n, Deliver(id)) ==>
      var (o, d) := Delivered(n.hub.outboxes[id], n.desks[id]);
      Next(c.codec, n, Deliver(id)) == Moved(n, id, o, d)
    ensures Enabled(n, TakeFrame(id)) && id in n.hub.outboxes ==>
      Next(c.codec, n, TakeFrame(id)) == Moved(n, id, n.hub.outboxes[id], OnFrame(c.codec, n.desks[id]))
    ensures Enabled(n, ApplyNext(id, true)) && id in n.hub.outboxes ==>
      Next(c.codec, n, ApplyNext(id, true)) == Moved(n, id, n.hub.outboxes[id], OnApply(n.desks[id], true))
  {
    hide FrameToChange, Apply;
    if id in n.hub.outboxes {
      assert n.hub.outboxes[id := n.hub.outboxes[id]] == n.hub.outboxes;
    }
  }

  lemma DeliveredClip(c: Copy, o: Outbox, d: Desk)
    requires Settled(d) && Reaching(c, o, d) && |o.clips| > 0
    ensures var (o', d') := Delivered(o, d);
            Settled(d') && Reaching(c, o', d') && d'.os == d.os && o'.open == o.open
  {
    hide Pending, Carries, Holding;
  }

  lemma DeliveredMoves(c: Copy, n: Net, id: Uuid)
    requires Published(c, n) && id in n.desks && id in n.hub.outboxes && |n.hub.outboxes[id].clips| > 0
    ensures var (o, d) := Delivered(n.hub.outboxes[id], n.desks[id]);
            Published(c, Moved(n, id, o, d))
  {
    ReceiverFacts(c, n, id);
    hide Published, Moved, Settled, Reaching, Holding, Delivered, Faithful;
    DeliveredClip(c, n.hub.outboxes[id], n.desks[id]);
    var (o, d) := Delivered(n.hub.outboxes[id], n.desks[id]);
    OneReceiverMoved(c, n, id, o, d);
  }

  lemma TakenMoves(c: Copy, n: Net, id: Uuid)
    requires Published(c, n) && id in n.desks && |n.desks[id].downlink| > 0
    ensures id in n.hub.outboxes && Published(c, Moved(n, id, n.hub.outboxes[id], OnFrame(c.codec, n.desks[id])))
  {
    ReceiverFacts(c, n, id);
    hide Published, Moved, Settled, Reaching, OnFrame, Holding;
    TakenFrame(c, n.hub.outboxes[id], n.desks[id]);
    OneReceiverMoved(c, n, id, n.hub.outboxes[id], OnFrame(c.codec, n.desks[id]));
  }

  lemma AppliedMoves(c: Copy, n: Net, id: Uuid)
    requires Published(c, n) && id in n.desks && |n.desks[id].apply| > 0
    ensures id in n.hub.outboxes && Published(c, Moved(n, id, n.hub.outboxes[id], OnApply(n.desks[id], true)))
  {
    ReceiverFacts(c, n, id);
    hide Published, Moved, Settled, Reaching, OnApply, Holding, Faithful;
    AppliedChange(c, n.hub.outboxes[id], n.desks[id]);
    OneReceiverMoved(c, n, id, n.hub.outboxes[id], OnApply(n.desks[id], true));
  }

  lemma ReceiverStage(c: Copy, n: Net, step: Step)
    requires Published(c, n) && Enabled(n, step) && Undisturbed(step)
    requires step.Deliver? || step.TakeFrame? || step.ApplyNext?
    ensures Published(c, Next(c.codec, n, step))
  {
    hide Published, Next, Moved, OnFrame, OnApply;
    ReceiverMoves(c, n, step.id);
    match step
    case Deliver(id) => DeliveredMoves(c, n, id);
    case TakeFrame(id) => TakenMoves(c, n, id);
    case ApplyNext(id, _) => AppliedMoves(c, n, id);
  }

  lemma TakenFrame(c: Copy, o: Outbox, d: Desk)
    requires Settled(d) && Reaching(c, o, d) && |d.downlink| > 0
    ensures var d' := OnFrame(c.codec, d);
            Settled(d') && Reaching(c, o, d') && d'.os == d.os
  {
    hide Pending, Holding, FrameToChange;
  }

  lemma AppliedChange(c: Copy, o: Outbox, d: Desk)
    requires Settled(d) && Reaching(c, o, d) && |d.apply| > 0 && c.v != Files([]) && Faithful(c.v)
    ensures var d' := OnApply(d, true);
            Settled(d') && Reaching(c, o, d') && d'.os == Holding(c.v)
  {
    AppliedIsSilentIff(d.os, d.trackers, c.v);
    hide Pending, Carries, Holding, Faithful;
    assert d.apply == [c.v];
  }

  lemma StaysUnderway(c: Copy, n: Net, step: Step)
    requires Travels(c) && Underway(c, n) && Enabled(n, step) && Undisturbed(step)
    ensures Underway(c, Next(c.codec, n, step))
  {
    hide Next, Travels, OnClipboard, AtSupervisor, AtTransport, OnUplink, AtHub, Published;
    match step
    case PollTick(id, faults) => PollStage(c, n, id, faults);
    case TakeEvent(id, frameId, ts) => StageOfQueues(c, n, id); SupervisorStage(c, n, frameId, ts);
    case Send(id, _) => StageOfQueues(c, n, id); SendStage(c, n);
    case HubReads(id) => StageOfQueues(c, n, id); ReadStage(c, n);
    case HubHandles => StageOfQueues(c, n, CopierIsDesk(c, n)); HubStage(c, n);
    case Deliver(id) => StageOfQueues(c, n, id); ReceiverStage(c, n, step);
    case TakeFrame(id) => StageOfQueues(c, n, id); ReceiverStage(c, n, step);
    case ApplyNext(id, _) => StageOfQueues(c, n, id); ReceiverStage(c, n, step);
    case _ =>
  }

  ghost function CopierIsDesk(c: Copy, n: Net): (id: Uuid)
    requires Underway(c, n)
    ensures id in n.desks
  {
    c.a
  }

  lemma {:induction false} AlwaysUnderway(c: Copy, nets: seq<Net>, steps: seq<Step>, i: nat)
    requires Travels(c) && IsRun(c.codec, nets, steps) && i < |nets| && OnClipboard(c, nets[0])
    requires forall k :: 0 <= k < |steps| ==> Undisturbed(steps[k])
    ensures Underway(c, nets[i])
  {
    hide Next, Enabled, OnClipboard, AtSupervisor, AtTransport, OnUplink, AtHub, Published;
    if i > 0 {
      AlwaysUnderway(c, nets, steps, i - 1);
      StaysUnderway(c, nets[i - 1], steps[i - 1]);
    }
  }

  /** Every queue is empty and the copying desktop has nothing pending. */
  ghost predicate Drained(c: Copy, n: Net) {
    && n.inbox == [] && c.a in n.desks && Pending(n.desks[c.a].os, n.desks[c.a].trackers) == []
    && forall id :: id in n.desks ==>
         var d := n.desks[id];
         && d.events == [] && d.outbound == [] && d.uplink == [] && d.downlink == [] && d.apply == []
         && (id in n.hub.outboxes ==> n.hub.outboxes[id].clips == [])
  }

  /** Before the copy: connected desktops with empty queues and nothing pending, and a change that
      the copying desktop's tracker does not hold. */
  ghost predicate Ready(c: Copy, n: Net) {
    && Connected(n) && c.a in n.desks && n.inbox == []
    && (forall id :: id in n.desks ==> NothingInbound(n, id) && Settled(n.desks[id]))
    && Track(n.desks[c.a].trackers, c.v) != n.desks[c.a].trackers
  }

  lemma PendingCopy(t: Trackers, v: ClipChange)
    requires !v.Files? && Track(t, v) != t
    ensures Pending(Holding(v), t) == [v]
  {
    assert FilesOn(Holding(v)) == None;
  }

  lemma CopyStarts(c: Copy, n: Net)
    requires Travels(c) && Ready(c, n)
    ensures OnClipboard(c, Next(c.codec, n, UserCopy(c.a, Holding(c.v))))
  {
    var d := n.desks[c.a];
    PendingCopy(d.trackers, c.v);
    var d' := OnUserCopy(d, Holding(c.v));
    assert d' == d.(os := Holding(c.v), filled := d'.filled);
    assert Settled(d) && NothingInbound(n, c.a);
    assert Next(c.codec, n, UserCopy(c.a, Holding(c.v))) == Update(n, c.a, d');
    hide Pending, Holding, Track, Travels, OnUserCopy, Next;
    CopiedHere(c, n, Update(n, c.a, d'), d');
  }

  lemma CopiedHere(c: Copy, n: Net, n': Net, d: Desk)
    requires Ready(c, n) && n' == Update(n, c.a, d) && d == n.desks[c.a].(os := Holding(c.v), filled := d.filled)
    requires Pending(d.os, d.trackers) == [c.v] && Settled(n.desks[c.a]) && NothingInbound(n, c.a)
    ensures OnClipboard(c, n')
  {
    hide Pending, Holding, Track;
    assert n'.desks.Keys == n.desks.Keys;
    forall id | id in n'.desks ensures NothingInbound(n', id) && (id != c.a ==> Settled(n'.desks[id])) {
      assert NothingInbound(n, id) && Settled(n.desks[id]);
    }
  }

  /** Single-writer propagation. From settled desktops with empty queues, one copy of a text or of an
      encodable image that differs from its tracker, under every interleaving of polls, sends, hub
      steps, deliveries and applies without another copy, leaves every desktop's clipboard holding
      it, nothing pending anywhere, and the hub's cached clip carrying it, whenever the queues have
      drained. */
  lemma SingleWriterPropagation(c: Copy, nets: seq<Net>, steps: seq<Step>)
    requires Travels(c) && IsRun(c.codec, nets, steps) && Ready(c, nets[0])
    requires |steps| > 0 && steps[0] == UserCopy(c.a, Holding(c.v))
    requires forall k :: 1 <= k < |steps| ==> Undisturbed(steps[k])
    requires Drained(c, nets[|steps|])
    ensures var n := nets[|steps|];
            && (forall id :: id in n.desks ==> n.desks[id].os == Holding(c.v))
            && (forall id :: id in n.desks ==> Pending(n.desks[id].os, n.desks[id].trackers) == [])
            && n.hub.lastClip.Some? && FrameToChange(c.codec, n.hub.lastClip.value) == Ok(c.v)
  {
    hide Next, Enabled, Pending, Holding, FrameToChange, Ready, OnClipboard;
    CopyStarts(c, nets[0]);
    assert nets[1] == Next(c.codec, nets[0], steps[0]);
    var later, rest := nets[1..], steps[1..];
    forall i | 0 <= i < |rest|
      ensures Enabled(later[i], rest[i]) && later[i + 1] == Next(c.codec, later[i], rest[i]) && Undisturbed(rest[i])
    {
      assert Enabled(nets[i + 1], steps[i + 1]) && nets[i + 2] == Next(c.codec, nets[i + 1], steps[i + 1]);
    }
    AlwaysUnderway(c, later, rest, |rest|);
    DrainedIsPublished(c, nets[|steps|]);
    PublishedReachesAll(c, nets[|steps|]);
  }

  lemma DrainedIsPublished(c: Copy, n: Net)
    requires Underway(c, n) && Drained(c, n)
    ensures Published(c, n)
  {
    hide Pending, Holding, Carries;
  }

  lemma PublishedReachesAll(c: Copy, n: Net)
    requires Published(c, n) && Drained(c, n)
    ensures forall id :: id in n.desks ==> n.desks[id].os == Holding(c.v)
    ensures forall id :: id in n.desks ==> Pending(n.desks[id].os, n.desks[id].trackers) == []
    ensures FrameToChange(c.codec, n.hub.lastClip.value) == Ok(c.v)
  {
    hide Pending, Holding, FrameToChange;
    forall id | id in n.desks ensures n.desks[id].os == Holding(c.v) && Pending(n.desks[id].os, n.desks[id].trackers) == [] {
      assert Settled(n.desks[id]) && Reaching(c, n.hub.outboxes[id], n.desks[id]);
    }
  }

  /** Until the queues have drained some step moves the copy on: no run gets stuck on the way. */
  lemma NeverStuck(c: Copy, n: Net) returns (step: Step)
    requires Underway(c, n) && !Drained(c, n)
    ensures Undisturbed(step) && Enabled(n, step)
    ensures step.PollTick? ==> |OnPoll(n.desks[c.a], step.faults).events| > |n.desks[c.a].events| && step.id == c.a
  {
    hide Carries, Pending, Holding, Poll, Reaching;
    if OnClipboard(c, n) {
      step := PollTick(c.a, NO_FAULTS);
      PollConsumes(n.desks[c.a].os, n.desks[c.a].trackers, NO_FAULTS);
    } else if AtSupervisor(c, n) {
      step := TakeEvent(c.a, "", 0);
    } else if AtTransport(c, n) {
      step := Send(c.a, true);
    } else if OnUplink(c, n) {
      step := HubReads(c.a);
    } else if AtHub(c, n) {
      step := HubHandles;
    } else {
      step := ReceiverStep(c, n);
    }
  }

  lemma ReceiverStep(c: Copy, n: Net) returns (step: Step)
    requires Published(c, n) && !Drained(c, n)
    ensures Undisturbed(step) && Enabled(n, step) && !step.PollTick?
  {
    hide Carries, Pending, Holding, Reaching;
    assert Settled(n.desks[c.a]);
    var id :| id in n.desks && !(n.desks[id].downlink == [] && n.desks[id].apply == [] && n.hub.outboxes[id].clips == []);
    step := if |n.hub.outboxes[id].clips| > 0 then Deliver(id)
            else if |n.desks[id].downlink| > 0 then TakeFrame(id) else ApplyNext(id, true);
  }
}
