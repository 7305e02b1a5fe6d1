/** How far a single copy still has to travel: every step on its way is counted, so no run goes round
    in circles before the queues have drained. */
module Progress {
  import opened Wrappers
  import opened Protocol
  import opened Clipboard
  import opened ClipFrames
  import opened Hub
  import opened Network
  import opened Propagation

  ghost function InChannel(n: Net): set<Uuid> {
    set id | id in n.desks && id in n.hub.outboxes && n.hub.outboxes[id].clips != []
  }

  ghost function InDownlink(n: Net): set<Uuid> {
    set id | id in n.desks && n.desks[id].downlink != []
  }

  ghost function InApply(n: Net): set<Uuid> {
    set id | id in n.desks && n.desks[id].apply != []
  }

  /** Three steps from a channel to the clipboard, two from a downlink, one from the apply queue. */
  ghost function Receiving(n: Net): nat {
    3 * |InChannel(n)| + 2 * |InDownlink(n)| + |InApply(n)|
  }

  ghost function Left(c: Copy, n: Net): nat
    requires Underway(c, n)
  {
    if Published(c, n) then Receiving(n)
    else 3 * |n.desks| + (if AtHub(c, n) then 1 else if OnUplink(c, n) then 2 else if AtTransport(c, n) then 3
                          else if AtSupervisor(c, n) then 4 else 5)
  }

  /** A copy is in one stage at a time. */
  lemma OneStage(c: Copy, n: Net)
    ensures AtHub(c, n) ==> !Published(c, n)
    ensures OnUplink(c, n) ==> !Published(c, n) && !AtHub(c, n)
    ensures AtTransport(c, n) ==> !Published(c, n) && !AtHub(c, n) && !OnUplink(c, n)
    ensures AtSupervisor(c, n) ==> !Published(c, n) && !AtHub(c, n) && !OnUplink(c, n) && !AtTransport(c, n)
    ensures OnClipboard(c, n) ==>
      !Published(c, n) && !AtHub(c, n) && !OnUplink(c, n) && !AtTransport(c, n) && !AtSupervisor(c, n)
  {
    hide Carries, Holding, Pending, Reaching, Unpublished, Connected;
  }

  lemma OneLess(s: set<Uuid>, t: set<Uuid>, id: Uuid)
    requires id in s && t == s - {id}
    ensures |t| == |s| - 1
  {}

  lemma OneMore(s: set<Uuid>, t: set<Uuid>, id: Uuid)
    requires id !in s && t == s + {id}
    ensures |t| == |s| + 1
  {}

  // One receiver's steps.

  /** The three sets after one desktop and its channels have moved. */
  lemma MovedSets(n: Net, id: Uuid, o: Outbox, d: Desk)
    requires id in n.desks && id in n.hub.outboxes
    ensures var n' := Moved(n, id, o, d);
            && InChannel(n') == (if o.clips != [] then InChannel(n) + {id} else InChannel(n) - {id})
            && InDownlink(n') == (if d.downlink != [] then InDownlink(n) + {id} else InDownlink(n) - {id})
            && InApply(n') == (if d.apply != [] then InApply(n) + {id} else InApply(n) - {id})
  {
    MovedChannel(n, id, o, d);
    hide InChannel;
  }

  lemma MovedChannel(n: Net, id: Uuid, o: Outbox, d: Desk)
    requires id in n.desks && id in n.hub.outboxes
    ensures InChannel(Moved(n, id, o, d)) == if o.clips != [] then InChannel(n) + {id} else InChannel(n) - {id}
  {}

  lemma DeliverCounts(n: Net, id: Uuid, o: Outbox, d: Desk)
    requires id in n.desks && id in n.hub.outboxes
    requires n.hub.outboxes[id].clips != [] && n.desks[id].downlink == [] && n.desks[id].apply == []
    requires o.clips == [] && d.downlink != [] && d.apply == []
    ensures Receiving(Moved(n, id, o, d)) == Receiving(n) - 1
  {
    MovedSets(n, id, o, d);
    OneLess(InChannel(n), InChannel(n) - {id}, id);
    OneMore(InDownlink(n), InDownlink(n) + {id}, id);
    assert InApply(n) - {id} == InApply(n);
  }

  lemma TakeCounts(n: Net, id: Uuid, d: Desk)
    requires id in n.desks && id in n.hub.outboxes
    requires n.hub.outboxes[id].clips == [] && n.desks[id].downlink != [] && n.desks[id].apply == []
    requires d.downlink == [] && d.apply != []
    ensures Receiving(Moved(n, id, n.hub.outboxes[id], d)) == Receiving(n) - 1
  {
    MovedSets(n, id, n.hub.outboxes[id], d);
    OneLess(InDownlink(n), InDownlink(n) - {id}, id);
    OneMore(InApply(n), InApply(n) + {id}, id);
    assert InChannel(n) - {id} == InChannel(n);
  }

  lemma ApplyCounts(n: Net, id: Uuid, d: Desk)
    requires id in n.desks && id in n.hub.outboxes
    requires n.hub.outboxes[id].clips == [] && n.desks[id].downlink == [] && n.desks[id].apply != []
    requires d.downlink == [] && d.apply == []
    ensures Receiving(Moved(n, id, n.hub.outboxes[id], d)) == Receiving(n) - 1
  {
    MovedSets(n, id, n.hub.outboxes[id], d);
    OneLess(InApply(n), InApply(n) - {id}, id);
    assert InChannel(n) - {id} == InChannel(n) && InDownlink(n) - {id} == InDownlink(n);
  }

  lemma ReceiverProgress(c: Copy, n: Net, step: Step)
    requires Published(c, n) && Enabled(n, step) && Undisturbed(step)
    requires step.Deliver? || step.TakeFrame? || step.ApplyNext?
    ensures Receiving(Next(c.codec, n, step)) == Receiving(n) - 1
  {
    var id := step.id;
    ReceiverFacts(c, n, id);
    var o, d := n.hub.outboxes[id], n.desks[id];
    ReceiverMoves(c, n, id);
    hide Published, Next, Moved, OnApply, OnFrame, Delivered, Receiving, Reaching, Settled, Holding, Faithful;
    if step.Deliver? {
      ChannelTaken(c, o, d);
      DeliverCounts(n, id, Delivered(o, d).0, Delivered(o, d).1);
    } else if step.TakeFrame? {
      DownlinkTaken(c, o, d);
      TakeCounts(n, id, OnFrame(c.codec, d));
    } else {
      ChangeApplied(c, o, d);
      ApplyCounts(n, id, OnApply(d, true));
    }
  }

  lemma ChannelTaken(c: Copy, o: Outbox, d: Desk)
    requires Reaching(c, o, d) && |o.clips| > 0
    ensures var (o', d') := Delivered(o, d);
            d.downlink == [] && d.apply == [] && o'.clips == [] && d'.downlink != [] && d'.apply == []
  {}

  lemma DownlinkTaken(c: Copy, o: Outbox, d: Desk)
    requires Reaching(c, o, d) && |d.downlink| > 0
    ensures var d' := OnFrame(c.codec, d);
            o.clips == [] && d.apply == [] && d'.downlink == [] && d'.apply == [c.v]
  {
    hide FrameToChange, Holding;
  }

  lemma ChangeApplied(c: Copy, o: Outbox, d: Desk)
    requires Reaching(c, o, d) && |d.apply| > 0
    ensures var d' := OnApply(d, true);
            o.clips == [] && d.downlink == [] && d'.downlink == [] && d'.apply == []
  {
    hide Apply, Carries, Holding;
  }

  // Every step.

  /** Publishing puts the clip in at most every channel, and in nothing else. */
  lemma HubProgress(c: Copy, n: Net)
    requires AtHub(c, n)
    ensures Receiving(Next(c.codec, n, HubHandles)) <= 3 * |n.desks|
  {
    HubFans(c, n);
    assert Unpublished(c, n);
    hide Next, Carries, Holding, Pending, Settled, AtHub, Connected;
    FannedReceiving(c, n, Next(c.codec, n, HubHandles), n.inbox[0].clip.(from := Some(c.a)));
  }

  lemma FannedReceiving(c: Copy, n: Net, n': Net, stamped: ClipFrame)
    requires Unpublished(c, n) && Fanned(c, n, n', stamped)
    ensures Receiving(n') <= 3 * |n.desks|
  {
    hide Carries, Holding, Pending, Settled, Connected;
    forall id | id in n'.desks ensures n'.desks[id].downlink == [] && n'.desks[id].apply == [] {
      assert NothingInbound(n, id);
    }
    assert InDownlink(n') == {} && InApply(n') == {};
    SubsetSize(InChannel(n'), n.desks.Keys);
    assert |n.desks.Keys| == |n.desks|;
  }

  /** A poll in any stage. */
  lemma PollProgress(c: Copy, n: Net, id: Uuid, faults: Faults)
    requires Underway(c, n) && id in n.desks
    ensures var n' := Next(c.codec, n, PollTick(id, faults));
            && Underway(c, n') && n'.desks.Keys == n.desks.Keys
            && Left(c, n') == Left(c, n) - (if n'.desks[id].events == n.desks[id].events then 0 else 1)
  {
    var n' := Next(c.codec, n, PollTick(id, faults));
    PollStage(c, n, id, faults);
    hide Next, OnClipboard, AtSupervisor, AtTransport, OnUplink, AtHub, Published, Receiving;
    OneStage(c, n);
    OneStage(c, n');
    if n'.desks[id].events == n.desks[id].events {
      SameSets(n, n', id);
    }
    assert |n'.desks| == |n'.desks.Keys| == |n.desks.Keys| == |n.desks|;
  }

  lemma SameSets(n: Net, n': Net, id: Uuid)
    requires id in n.desks && id in n'.desks
    requires n' == Update(n, id, n.desks[id].(trackers := n'.desks[id].trackers))
    ensures Receiving(n') == Receiving(n)
  {
    assert InChannel(n') == InChannel(n) && InDownlink(n') == InDownlink(n) && InApply(n') == InApply(n);
  }

  /** Before the hub: from one stage to the next. */
  lemma StageProgress(c: Copy, n: Net, step: Step)
    requires Travels(c) && Underway(c, n) && Enabled(n, step)
    requires step.TakeEvent? || (step.Send? && step.ok) || step.HubReads?
    ensures var n' := Next(c.codec, n, step);
            Underway(c, n') && n'.desks.Keys == n.desks.Keys && Left(c, n') == Left(c, n) - 1
  {
    var n' := Next(c.codec, n, step);
    KeysKept(c, n, step);
    StageMoves(c, n, step);
    hide Next, OnClipboard, AtSupervisor, AtTransport, OnUplink, AtHub, Published, Receiving;
    OneStage(c, n);
    OneStage(c, n');
    assert |n'.desks| == |n'.desks.Keys| == |n.desks.Keys| == |n.desks|;
  }

  lemma StageMoves(c: Copy, n: Net, step: Step)
    requires Travels(c) && Underway(c, n) && Enabled(n, step)
    requires step.TakeEvent? || (step.Send? && step.ok) || step.HubReads?
    ensures var n' := Next(c.codec, n, step);
            || (AtSupervisor(c, n) && AtTransport(c, n'))
            || (AtTransport(c, n) && OnUplink(c, n'))
            || (OnUplink(c, n) && AtHub(c, n'))
  {
    StageOfQueues(c, n, step.id);
    hide Next, OnClipboard, AtSupervisor, AtTransport, OnUplink, AtHub, Published, Travels;
    match step {
      case TakeEvent(_, frameId, ts) => SupervisorStage(c, n, frameId, ts);
      case Send(_, _) => SendStage(c, n);
      case HubReads(_) => ReadStage(c, n);
    }
  }

  /** Every step but a poll that finds nothing brings the copy at least one step closer. */
  lemma StepProgress(c: Copy, n: Net, step: Step)
    requires Travels(c) && Underway(c, n) && Enabled(n, step) && Undisturbed(step)
    ensures var n' := Next(c.codec, n, step);
            && Underway(c, n') && n'.desks.Keys == n.desks.Keys
            && (if step.PollTick? && n'.desks[step.id].events == n.desks[step.id].events
                then Left(c, n') == Left(c, n) else Left(c, n') < Left(c, n))
  {
    StaysUnderway(c, n, step);
    KeysKept(c, n, step);
    hide Next, Travels, OnClipboard, AtSupervisor, AtTransport, OnUplink, AtHub, Published, Receiving;
    match step
    case PollTick(id, faults) => PollProgress(c, n, id, faults);
    case TakeEvent(_, _, _) => StageProgress(c, n, step);
    case Send(_, _) => StageProgress(c, n, step);
    case HubReads(_) => StageProgress(c, n, step);
    case HubHandles =>
      StageOfQueues(c, n, CopierIsDesk(c, n));
      HubStage(c, n);
      HubProgress(c, n);
      OneStage(c, n);
    case Deliver(id) => ReceiverSteps(c, n, step);
    case TakeFrame(id) => ReceiverSteps(c, n, step);
    case ApplyNext(id, _) => ReceiverSteps(c, n, step);
    case _ =>
  }

  lemma ReceiverSteps(c: Copy, n: Net, step: Step)
    requires Underway(c, n) && Enabled(n, step) && Undisturbed(step)
    requires step.Deliver? || step.TakeFrame? || step.ApplyNext?
    ensures Published(c, n) && Published(c, Next(c.codec, n, step))
    ensures Receiving(Next(c.codec, n, step)) == Receiving(n) - 1
  {
    StageOfQueues(c, n, step.id);
    hide Next, OnClipboard, AtSupervisor, AtTransport, OnUplink, AtHub, Published, Receiving;
    ReceiverStage(c, n, step);
    ReceiverProgress(c, n, step);
  }

  lemma KeysKept(c: Copy, n: Net, step: Step)
    requires Enabled(n, step)
    ensures Next(c.codec, n, step).desks.Keys == n.desks.Keys
  {
    hide Poll, Apply, ChangeToFrame, FrameToChange, Handle;
  }

  /** The steps of a run other than polls that find nothing. */
  ghost function Moves(codec: Codec, nets: seq<Net>, steps: seq<Step>, i: nat): nat
    requires i <= |steps| && |nets| == |steps| + 1
  {
    if i == 0 then 0
    else
      Moves(codec, nets, steps, i - 1)
      + (if steps[i - 1].PollTick? && steps[i - 1].id in nets[i - 1].desks && steps[i - 1].id in nets[i].desks
            && nets[i].desks[steps[i - 1].id].events == nets[i - 1].desks[steps[i - 1].id].events then 0 else 1)
  }

  /** A copy drains: between `N` desktops it takes at most `3 * N + 5` steps besides polls that find
      nothing, in whatever order they come, and as long as it has not drained there is one to take. */
  lemma {:induction false} CopyDrains(c: Copy, nets: seq<Net>, steps: seq<Step>, i: nat)
    requires Travels(c) && IsRun(c.codec, nets, steps) && i < |nets| && OnClipboard(c, nets[0])
    requires forall k :: 0 <= k < |steps| ==> Undisturbed(steps[k])
    ensures Underway(c, nets[i]) && nets[i].desks.Keys == nets[0].desks.Keys
    ensures Moves(c.codec, nets, steps, i) + Left(c, nets[i]) <= 3 * |nets[0].desks| + 5
    ensures Left(c, nets[i]) == 0 <==> Drained(c, nets[i])
  {
    hide Next, Enabled, OnClipboard, AtSupervisor, AtTransport, OnUplink, AtHub, Published, Receiving, Drained, Travels;
    if i == 0 {
      OneStage(c, nets[0]);
    } else {
      CopyDrains(c, nets, steps, i - 1);
      StepProgress(c, nets[i - 1], steps[i - 1]);
      if steps[i - 1].PollTick? {
        PolledDesk(nets[i - 1], steps[i - 1]);
      }
    }
    NothingLeft(c, nets[i]);
  }

  lemma PolledDesk(n: Net, step: Step)
    requires Enabled(n, step) && step.PollTick?
    ensures step.id in n.desks
  {}

  lemma NothingLeft(c: Copy, n: Net)
    requires Underway(c, n)
    ensures Left(c, n) == 0 <==> Drained(c, n)
  {
    hide OnClipboard, AtSupervisor, AtTransport, OnUplink, AtHub, Carries, Holding, Pending, Reaching;
    if Drained(c, n) {
      DrainedIsPublished(c, n);
      assert InChannel(n) == {} && InDownlink(n) == {} && InApply(n) == {};
    } else if Left(c, n) == 0 {
      assert Published(c, n) && InChannel(n) == {} && InDownlink(n) == {} && InApply(n) == {};
      forall id | id in n.desks
        ensures Settled(n.desks[id]) && n.desks[id].downlink == [] && n.desks[id].apply == []
                && id in n.hub.outboxes && n.hub.outboxes[id].clips == []
      {
        assert id !in InChannel(n) && id !in InDownlink(n) && id !in InApply(n);
      }
      assert false;
    }
  }
}
