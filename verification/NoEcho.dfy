/** No echo storm: what a desktop publishes is paid for by its own user's copies. */
module NoEcho {
  import opened Wrappers
  import opened Clipboard
  import opened ClipFrames
  import opened Hub
  import opened Network

  /** Clips of one desktop waiting for the hub. */
  function Waiting(inbox: seq<Message>, id: Uuid): nat {
    if |inbox| == 0 then 0
    else Waiting(inbox[1..], id) + (if inbox[0].Publish? && inbox[0].from == id then 1 else 0)
  }

  lemma {:induction false} WaitingAppend(inbox: seq<Message>, msg: Message, id: Uuid)
    ensures Waiting(inbox + [msg], id) == Waiting(inbox, id) + (if msg.Publish? && msg.from == id then 1 else 0)
  {
    if |inbox| == 0 {
      assert ([msg])[1..] == [];
    } else {
      assert (inbox + [msg])[1..] == inbox[1..] + [msg];
      WaitingAppend(inbox[1..], msg, id);
    }
  }

  /** Announced changes, queued changes and pending slots together never exceed the slots filled. */
  ghost predicate Budget(d: Desk) {
    d.announced + |d.events| + |Pending(d.os, d.trackers)| <= d.filled
  }

  /** Clips published, waiting, in the socket or queued for it never exceed the changes announced. */
  ghost predicate Pipeline(d: Desk, inbox: seq<Message>, id: Uuid) {
    d.published + Waiting(inbox, id) + |d.uplink| + |d.outbound| <= d.announced
  }

  ghost predicate AllFaithful(changes: seq<ClipChange>) {
    forall change :: change in changes ==> Faithful(change)
  }

  ghost predicate DeskOk(n: Net, id: Uuid) {
    id in n.desks && Budget(n.desks[id]) && Pipeline(n.desks[id], n.inbox, id) && AllFaithful(n.desks[id].apply)
  }

  ghost predicate Inv(n: Net) {
    forall id :: id in n.desks ==> DeskOk(n, id)
  }

  /** Where a run may start: whatever is already on a clipboard counts as copied. */
  ghost predicate Starts(n: Net) {
    n.inbox == [] &&
    forall id :: id in n.desks ==>
      var d := n.desks[id];
      && d.events == [] && d.outbound == [] && d.uplink == [] && d.apply == []
      && d.announced == 0 && d.published == 0 && d.filled == |Pending(d.os, d.trackers)|
  }

  lemma CopyKeeps(d: Desk, os: OsClipboard)
    requires Budget(d)
    ensures Budget(OnUserCopy(d, os))
  {
    hide Pending, Filled;
    assert |Pending(os, d.trackers)| <= Filled(os);
  }

  lemma PollKeeps(d: Desk, faults: Faults)
    requires Budget(d)
    ensures Budget(OnPoll(d, faults))
  {
    hide Poll, Pending;
    PollConsumes(d.os, d.trackers, faults);
  }

  /** A change found while the events channel is full is lost for good: it is neither queued nor
      found again, as its tracker has moved. Any other change is queued. */
  lemma FullChannelForgets(d: Desk, faults: Faults)
    ensures var (d', change) := (OnPoll(d, faults), Poll(d.os, d.trackers, faults).1);
            && d'.os == d.os
            && |Pending(d'.os, d'.trackers)| == |Pending(d.os, d.trackers)| - (if change.Some? then 1 else 0)
            && d'.events == d.events + (if change.Some? && |d.events| < EVENT_BUFFER then [change.value] else [])
  {
    hide Poll, Pending;
    PollConsumes(d.os, d.trackers, faults);
    assert d.events + [] == d.events;
  }

  /** A send moves the next frame into the socket, in order; a failed one loses it and all that the
      socket held, and nothing else. */
  lemma SendMoves(d: Desk, ok: bool)
    requires |d.outbound| > 0
    ensures var d' := OnSend(d, ok);
            && (ok ==> d'.uplink + d'.outbound == d.uplink + d.outbound && |d'.uplink| == |d.uplink| + 1)
            && (!ok ==> d'.uplink == [] && d'.outbound == d.outbound[1..])
            && d' == d.(uplink := d'.uplink, outbound := d'.outbound)
  {}

  lemma ApplyKeeps(d: Desk, ok: bool)
    requires Budget(d) && AllFaithful(d.apply) && |d.apply| > 0
    ensures Budget(OnApply(d, ok)) && AllFaithful(OnApply(d, ok).apply)
  {
    hide Apply, Pending, Faithful;
    assert d.apply[0] in d.apply && forall change :: change in d.apply[1..] ==> change in d.apply;
    ApplyAddsNothing(d.os, d.trackers, d.apply[0], ok);
  }

  lemma FrameKeeps(codec: Codec, d: Desk)
    requires AllFaithful(d.apply) && |d.downlink| > 0
    ensures AllFaithful(OnFrame(codec, d).apply)
  {
    hide FrameToChange;
    NeverFiles(codec, d.downlink[0]);
  }

  /** The steps a desktop takes by itself. */
  lemma LocalStepKeeps(codec: Codec, n: Net, step: Step)
    requires Inv(n) && Enabled(n, step)
    requires !step.HubHandles? && !step.HubReads? && !step.Deliver? && !step.Membership?
    ensures Next(codec, n, step).inbox == n.inbox && DeskOk(Next(codec, n, step), step.id)
  {
    hide Pending, Poll, Apply, FrameToChange, ChangeToFrame, Faithful, Filled, Waiting;
    assert DeskOk(n, step.id);
    var d := n.desks[step.id];
    match step
    case UserCopy(_, os) => CopyKeeps(d, os);
    case PollTick(_, faults) => PollKeeps(d, faults);
    case ApplyNext(_, ok) => ApplyKeeps(d, ok);
    case TakeFrame(_) => FrameKeeps(codec, d);
    case _ =>
  }

  lemma HubReadsKeeps(codec: Codec, n: Net, id: Uuid, other: Uuid)
    requires Inv(n) && Enabled(n, HubReads(id)) && other in n.desks
    ensures DeskOk(Next(codec, n, HubReads(id)), other)
  {
    hide Pending, Waiting;
    var d := n.desks[id];
    assert DeskOk(n, id) && DeskOk(n, other);
    if d.uplink[0].Validates() {
      WaitingAppend(n.inbox, Publish(id, d.uplink[0].(from := None)), other);
    }
  }

  lemma HubHandlesKeeps(codec: Codec, n: Net, id: Uuid)
    requires Inv(n) && Enabled(n, HubHandles) && id in n.desks
    ensures DeskOk(Next(codec, n, HubHandles), id)
  {
    hide Pending, Handle;
    assert DeskOk(n, id);
  }

  lemma StepKeeps(codec: Codec, n: Net, step: Step)
    requires Inv(n) && Enabled(n, step)
    ensures Inv(Next(codec, n, step)) && Next(codec, n, step).desks.Keys == n.desks.Keys
  {
    var n' := Next(codec, n, step);
    SameDesks(codec, n, step);
    hide DeskOk, Next, Enabled;
    forall id | id in n'.desks ensures DeskOk(n', id) {
      DeskKeeps(codec, n, step, id);
    }
  }

  lemma SameDesks(codec: Codec, n: Net, step: Step)
    requires Enabled(n, step)
    ensures Next(codec, n, step).desks.Keys == n.desks.Keys
  {
    hide Handle, OnUserCopy, OnPoll, OnEvent, OnSend, OnFrame, OnApply;
  }

  lemma DeskKeeps(codec: Codec, n: Net, step: Step, id: Uuid)
    requires Inv(n) && Enabled(n, step) && id in n.desks
    ensures DeskOk(Next(codec, n, step), id)
  {
    assert DeskOk(n, id);
    hide DeskOk, Inv;
    if step.HubHandles? {
      HubHandlesKeeps(codec, n, id);
    } else if step.HubReads? {
      HubReadsKeeps(codec, n, step.id, id);
    } else if step.Membership? {
      MembershipKeeps(n, Next(codec, n, step), id, step.msg);
    } else if step.Deliver? {
      DeliverKeeps(codec, n, step.id, id);
    } else if id == step.id {
      LocalStepKeeps(codec, n, step);
    } else {
      LocalStepKeeps(codec, n, step);
      OtherDesks(codec, n, step, id);
      hide Next, Enabled;
      ElsewhereKeeps(n, Next(codec, n, step), id);
    }
  }

  lemma OtherDesks(codec: Codec, n: Net, step: Step, id: Uuid)
    requires Enabled(n, step) && id in n.desks
    requires !step.HubHandles? && !step.HubReads? && !step.Deliver? && !step.Membership? && id != step.id
    ensures id in Next(codec, n, step).desks && Next(codec, n, step).desks[id] == n.desks[id]
  {
    hide OnUserCopy, OnPoll, OnEvent, OnSend, OnFrame, OnApply;
  }

  lemma DeliverKeeps(codec: Codec, n: Net, id: Uuid, other: Uuid)
    requires Enabled(n, Deliver(id)) && DeskOk(n, other)
    ensures DeskOk(Next(codec, n, Deliver(id)), other)
  {
    hide Pending, Waiting;
  }

  lemma MembershipKeeps(n: Net, n': Net, id: Uuid, msg: Message)
    requires DeskOk(n, id) && n' == n.(inbox := n.inbox + [msg]) && !msg.Publish?
    ensures DeskOk(n', id)
  {
    hide Waiting, Pending;
    WaitingAppend(n.inbox, msg, id);
  }

  lemma ElsewhereKeeps(n: Net, n': Net, id: Uuid)
    requires DeskOk(n, id) && n'.inbox == n.inbox && id in n'.desks && n'.desks[id] == n.desks[id]
    ensures DeskOk(n', id)
  {}

  lemma {:induction false} InvAlways(codec: Codec, nets: seq<Net>, steps: seq<Step>, i: nat)
    requires IsRun(codec, nets, steps) && Starts(nets[0]) && i < |nets|
    ensures Inv(nets[i]) && nets[i].desks.Keys == nets[0].desks.Keys
  {
    hide Next, Enabled, DeskOk;
    if i == 0 {
      StartsOk(nets[0]);
    } else {
      InvAlways(codec, nets, steps, i - 1);
      StepKeeps(codec, nets[i - 1], steps[i - 1]);
    }
  }

  lemma StartsOk(n: Net)
    requires Starts(n)
    ensures Inv(n)
  {}

  // What the steps of a run say.

  /** The slots that a desktop's user filled. */
  function FilledBy(steps: seq<Step>, id: Uuid): nat {
    if |steps| == 0 then 0
    else
      var last := steps[|steps| - 1];
      FilledBy(steps[..|steps| - 1], id) + (if last.UserCopy? && last.id == id then Filled(last.os) else 0)
  }

  function CopiesBy(steps: seq<Step>, id: Uuid): nat {
    if |steps| == 0 then 0
    else
      var last := steps[|steps| - 1];
      CopiesBy(steps[..|steps| - 1], id) + (if last.UserCopy? && last.id == id then 1 else 0)
  }

  /** A desktop's supervisor takes a change that it passes on: as a transfer, or by a frame it queues. */
  ghost predicate Announces(n: Net, step: Step, n': Net, id: Uuid) {
    && step.TakeEvent? && step.id == id && id in n.desks && id in n'.desks && |n.desks[id].events| > 0
    && (n.desks[id].events[0].Files? || |n'.desks[id].outbound| > |n.desks[id].outbound|)
  }

  ghost predicate Publishes(n: Net, step: Step, id: Uuid) {
    step.HubHandles? && |n.inbox| > 0 && n.inbox[0].Publish? && n.inbox[0].from == id
  }

  ghost function AnnouncedIn(nets: seq<Net>, steps: seq<Step>, id: Uuid, i: nat): nat
    requires |nets| == |steps| + 1 && i <= |steps|
  {
    if i == 0 then 0
    else AnnouncedIn(nets, steps, id, i - 1) + if Announces(nets[i - 1], steps[i - 1], nets[i], id) then 1 else 0
  }

  ghost function PublishedIn(nets: seq<Net>, steps: seq<Step>, id: Uuid, i: nat): nat
    requires |nets| == |steps| + 1 && i <= |steps|
  {
    if i == 0 then 0
    else PublishedIn(nets, steps, id, i - 1) + if Publishes(nets[i - 1], steps[i - 1], id) then 1 else 0
  }

  /** The fields of a desktop count exactly that. */
  lemma StepCounts(codec: Codec, n: Net, step: Step, id: Uuid)
    requires Enabled(n, step) && id in n.desks
    ensures var n' := Next(codec, n, step);
            && id in n'.desks
            && var (d, d') := (n.desks[id], n'.desks[id]);
            && d'.filled == d.filled + (if step.UserCopy? && step.id == id then Filled(step.os) else 0)
            && d'.announced == d.announced + (if Announces(n, step, n', id) then 1 else 0)
            && d'.published == d.published + (if Publishes(n, step, id) then 1 else 0)
  {
    hide Pending, Poll, Apply, QueueLocal, QueueRemote, Filled, Handle;
  }

  lemma {:induction false} RunCounts(codec: Codec, nets: seq<Net>, steps: seq<Step>, i: nat, id: Uuid)
    requires IsRun(codec, nets, steps) && Starts(nets[0]) && i < |nets| && id in nets[0].desks
    ensures id in nets[i].desks
    ensures var d := nets[i].desks[id];
            && d.filled == |Pending(nets[0].desks[id].os, nets[0].desks[id].trackers)| + FilledBy(steps[..i], id)
            && d.announced == AnnouncedIn(nets, steps, id, i)
            && d.published == PublishedIn(nets, steps, id, i)
  {
    hide Next, Enabled, Pending, Filled, Announces, Publishes;
    if i > 0 {
      RunCounts(codec, nets, steps, i - 1, id);
      StepCounts(codec, nets[i - 1], steps[i - 1], id);
      assert steps[..i][..i - 1] == steps[..i - 1];
    }
  }

  /** No echo storm. In every run of the hub with any number of desktops, whatever arrives from
      others, by any route and in any order: the clips the hub publishes for a desktop are at most as
      many as the changes its supervisor passes on, and those, with the changes that wait for it or
      could still be found, at most as many as the slots filled by its own user, those pending at the
      start included; and a successful apply of a remote change leaves nothing to announce. */
  lemma NoEchoStorm(codec: Codec, nets: seq<Net>, steps: seq<Step>, i: nat, id: Uuid)
    requires IsRun(codec, nets, steps) && Starts(nets[0]) && i < |nets| && id in nets[0].desks
    ensures id in nets[i].desks
    ensures var d := nets[i].desks[id];
            var start := |Pending(nets[0].desks[id].os, nets[0].desks[id].trackers)|;
            && PublishedIn(nets, steps, id, i) <= AnnouncedIn(nets, steps, id, i)
            && AnnouncedIn(nets, steps, id, i) + |d.events| + |Pending(d.os, d.trackers)| <= start + FilledBy(steps[..i], id)
            && (|d.apply| > 0 ==> var d' := OnApply(d, true); Pending(d'.os, d'.trackers) == [])
  {
    InvAlways(codec, nets, steps, i);
    RunCounts(codec, nets, steps, i, id);
    hide Pending, Faithful, Apply, IsRun, Starts, FilledBy, AnnouncedIn, PublishedIn;
    var d := nets[i].desks[id];
    assert DeskOk(nets[i], id);
    if |d.apply| > 0 {
      assert d.apply[0] in d.apply;
      FaithfulIsNotEmpty(d.apply[0]);
      AppliedIsSilentIff(d.os, d.trackers, d.apply[0]);
    }
  }

  lemma {:induction false} ThreePerCopy(steps: seq<Step>, id: Uuid)
    ensures FilledBy(steps, id) <= 3 * CopiesBy(steps, id)
  {
    if |steps| > 0 {
      ThreePerCopy(steps[..|steps| - 1], id);
      hide Filled;
    }
  }

  /** Over a whole run the hub publishes for a desktop at most three clips per copy of its user, plus
      one per slot that was pending at the start: nothing for a desktop whose user copies nothing. */
  lemma PublishedPerCopy(codec: Codec, nets: seq<Net>, steps: seq<Step>, i: nat, id: Uuid)
    requires IsRun(codec, nets, steps) && Starts(nets[0]) && i < |nets| && id in nets[0].desks
    ensures PublishedIn(nets, steps, id, i)
            <= |Pending(nets[0].desks[id].os, nets[0].desks[id].trackers)| + 3 * CopiesBy(steps[..i], id)
  {
    NoEchoStorm(codec, nets, steps, i, id);
    ThreePerCopy(steps[..i], id);
    hide IsRun, Starts, Pending, FilledBy, CopiesBy, PublishedIn, AnnouncedIn;
  }
}
