/** Two desktops can end with each other's copies: from every idle network of two there is such a run. */
module SwapRun {
  import opened Wrappers
  import opened Clipboard
  import opened ClipFrames
  import opened Hub
  import opened Network
  import opened Propagation
  import opened TwoCopies

  /** Steps a desktop's own queues are away from empty. */
  function DeskWork(d: Desk, waiting: nat): nat {
    7 * |d.events| + 6 * |d.outbound| + 5 * |d.uplink| + 3 * waiting + 2 * |d.downlink| + |d.apply|
  }

  function Waiting(n: Net, x: Uuid): nat {
    if x in n.hub.outboxes then |n.hub.outboxes[x].clips| else 0
  }

  function WorkAt(n: Net, x: Uuid): nat {
    if x in n.desks then DeskWork(n.desks[x], Waiting(n, x)) else 0
  }

  function Work(p: Pair, n: Net): nat {
    WorkAt(n, p.a) + WorkAt(n, p.b) + 4 * |n.inbox|
  }

  /** Steps that move a clip on. */
  ghost predicate Moves(step: Step) {
    || step.TakeEvent? || (step.Send? && step.ok) || step.HubReads? || step.HubHandles?
    || step.Deliver? || step.TakeFrame? || (step.ApplyNext? && step.ok)
  }

  ghost predicate OnlyTwo(p: Pair, n: Net) {
    n.desks.Keys == {p.a, p.b} && n.hub.clients == {p.a, p.b} && Connected(n) && p.a != p.b
  }

  lemma HubWork(p: Pair, n: Net)
    requires OnlyTwo(p, n) && FromThePair(p, n.inbox) && |n.inbox| > 0
    ensures Enabled(n, HubHandles)
    ensures Work(p, Next(p.codec, n, HubHandles)) < Work(p, n)
  {
    HubFrame(p, n);
    hide Next, Connected, FromThePair;
  }

  /** A step that changes one of the two desktops, its channels and perhaps the inbox. */
  lemma WorkDrops(p: Pair, n: Net, n': Net, id: Uuid)
    requires p.a != p.b && (id == p.a || id == p.b)
    requires id in n.desks && id in n'.desks && n'.desks == n.desks[id := n'.desks[id]]
    requires forall y :: y != id ==> Waiting(n', y) == Waiting(n, y)
    requires WorkAt(n', id) + 4 * |n'.inbox| < WorkAt(n, id) + 4 * |n.inbox|
    ensures Work(p, n') < Work(p, n)
  {
    hide Waiting, DeskWork;
  }

  lemma QueueWork(codec: Codec, d: Desk, waiting: nat)
    ensures |d.events| > 0 ==> forall frameId, ts :: DeskWork(OnEvent(codec, d, frameId, ts), waiting) < DeskWork(d, waiting)
    ensures |d.outbound| > 0 ==> DeskWork(OnSend(d, true), waiting) < DeskWork(d, waiting)
    ensures |d.downlink| > 0 ==> DeskWork(OnFrame(codec, d), waiting) < DeskWork(d, waiting)
    ensures |d.apply| > 0 ==> DeskWork(OnApply(d, true), waiting) < DeskWork(d, waiting)
  {
    hide ChangeToFrame, FrameToChange, Apply;
  }

  lemma LocalWork(p: Pair, n: Net, step: Step)
    requires OnlyTwo(p, n) && Enabled(n, step) && Moves(step) && !step.HubHandles?
    ensures Work(p, Next(p.codec, n, step)) < Work(p, n)
  {
    var id, n' := step.id, Next(p.codec, n, step);
    assert id == p.a || id == p.b;
    hide Next, Enabled, Work, Connected, WorkAt, Waiting;
    if step.Deliver? || step.HubReads? {
      TransferWork(p.codec, n, step);
    } else {
      OwnWork(p.codec, n, step);
    }
    WorkDrops(p, n, n', id);
  }

  lemma OwnWork(codec: Codec, n: Net, step: Step)
    requires Enabled(n, step) && Moves(step) && !step.HubHandles? && !step.Deliver? && !step.HubReads?
    ensures var n', id := Next(codec, n, step), step.id;
            && id in n.desks && id in n'.desks && n'.desks == n.desks[id := n'.desks[id]]
            && (forall y :: y != id ==> Waiting(n', y) == Waiting(n, y))
            && WorkAt(n', id) + 4 * |n'.inbox| < WorkAt(n, id) + 4 * |n.inbox|
  {
    QueueWork(codec, n.desks[step.id], Waiting(n, step.id));
    hide DeskWork, OnEvent, OnSend, OnFrame, OnApply;
  }

  lemma TransferWork(codec: Codec, n: Net, step: Step)
    requires Enabled(n, step) && (step.Deliver? || step.HubReads?)
    ensures var n', id := Next(codec, n, step), step.id;
            && id in n.desks && id in n'.desks && n'.desks == n.desks[id := n'.desks[id]]
            && (forall y :: y != id ==> Waiting(n', y) == Waiting(n, y))
            && WorkAt(n', id) + 4 * |n'.inbox| < WorkAt(n, id) + 4 * |n.inbox|
  {}

  /** While anything is queued, some step moves it. */
  lemma SomethingMoves(p: Pair, n: Net) returns (step: Step)
    requires OnlyTwo(p, n) && Work(p, n) > 0
    ensures Moves(step) && Enabled(n, step)
  {
    if |n.inbox| > 0 {
      step := HubHandles;
    } else {
      var x := if WorkAt(n, p.a) > 0 then p.a else p.b;
      var d := n.desks[x];
      step := if |d.events| > 0 then TakeEvent(x, "", 0)
              else if |d.outbound| > 0 then Send(x, true)
              else if |d.uplink| > 0 then HubReads(x)
              else if Waiting(n, x) > 0 then Deliver(x)
              else if |d.downlink| > 0 then TakeFrame(x)
              else ApplyNext(x, true);
    }
  }

  lemma PollFinds(d: Desk, v: ClipChange)
    requires Pending(d.os, d.trackers) == [v] && d.events == []
    ensures OnPoll(d, NO_FAULTS).events != d.events
  {
    hide Pending, Poll;
    PollConsumes(d.os, d.trackers, NO_FAULTS);
  }

  lemma Extend(codec: Codec, nets: seq<Net>, steps: seq<Step>, step: Step)
    requires IsRun(codec, nets, steps) && Enabled(nets[|steps|], step)
    ensures IsRun(codec, nets + [Next(codec, nets[|steps|], step)], steps + [step])
  {
    hide Enabled, Next;
  }

  /** Both copies are made and then found, and nothing else has happened. */
  ghost predicate Opening(p: Pair, nets: seq<Net>, steps: seq<Step>) {
    && |nets| == |steps| + 1 && |steps| >= 4
    && steps[0] == UserCopy(p.a, Holding(p.va)) && steps[1] == UserCopy(p.b, Holding(p.vb))
    && steps[2].PollTick? && steps[3].PollTick?
    && FindsCopy(nets, steps, p.a, 2) && FindsCopy(nets, steps, p.b, 3)
  }

  ghost predicate Startable(p: Pair, n: Net) {
    && Idle(p, n) && n.desks.Keys == {p.a, p.b}
    && Track(n.desks[p.a].trackers, p.va) != n.desks[p.a].trackers
    && Track(n.desks[p.b].trackers, p.vb) != n.desks[p.b].trackers
  }

  lemma FourSteps(codec: Codec, nets: seq<Net>, steps: seq<Step>)
    requires |nets| == 5 && |steps| == 4
    requires Enabled(nets[0], steps[0]) && nets[1] == Next(codec, nets[0], steps[0])
    requires Enabled(nets[1], steps[1]) && nets[2] == Next(codec, nets[1], steps[1])
    requires Enabled(nets[2], steps[2]) && nets[3] == Next(codec, nets[2], steps[2])
    requires Enabled(nets[3], steps[3]) && nets[4] == Next(codec, nets[3], steps[3])
    ensures IsRun(codec, nets, steps)
  {
    hide Enabled, Next;
    forall i | 0 <= i < |steps| ensures Enabled(nets[i], steps[i]) && nets[i + 1] == Next(codec, nets[i], steps[i]) {
      assert i == 0 || i == 1 || i == 2 || i == 3;
    }
  }

  lemma CopyFrame(codec: Codec, n: Net, id: Uuid, os: OsClipboard)
    requires id in n.desks
    ensures Enabled(n, UserCopy(id, os)) && Next(codec, n, UserCopy(id, os)) == Update(n, id, OnUserCopy(n.desks[id], os))
  {}

  lemma TickFrame(codec: Codec, n: Net, id: Uuid)
    requires id in n.desks
    ensures Enabled(n, PollTick(id, NO_FAULTS))
    ensures Next(codec, n, PollTick(id, NO_FAULTS)) == Update(n, id, OnPoll(n.desks[id], NO_FAULTS))
  {
    hide OnPoll;
  }

  lemma CopiedDesk(d: Desk, v: ClipChange)
    requires Settled(d) && !v.Files? && Track(d.trackers, v) != d.trackers
    ensures var d' := OnUserCopy(d, Holding(v)); OnPoll(d', NO_FAULTS).events != d'.events
  {
    PendingCopy(d.trackers, v);
    var d' := OnUserCopy(d, Holding(v));
    assert Pending(d'.os, d'.trackers) == [v] && d'.events == [] by { hide Holding, Pending, Filled; }
    hide Holding, Pending, OnPoll, OnUserCopy;
    PollFinds(d', v);
  }

  /** The four opening states, as updates of the two desktops. */
  lemma Open(p: Pair, n: Net) returns (nets: seq<Net>, steps: seq<Step>)
    requires Fit(p) && Startable(p, n)
    ensures |steps| == 4 && IsRun(p.codec, nets, steps) && nets[0] == n && Opening(p, nets, steps)
    ensures p.b in nets[1].desks && nets[1].desks[p.b] == n.desks[p.b]
  {
    assert Settled(n.desks[p.a]) && Settled(n.desks[p.b]);
    CopiedDesk(n.desks[p.a], p.va);
    CopiedDesk(n.desks[p.b], p.vb);
    hide Settled, Holding, Idle, Track, Travels, OnPoll, OnUserCopy, IsRun, Enabled, Next;
    var da, db := OnUserCopy(n.desks[p.a], Holding(p.va)), OnUserCopy(n.desks[p.b], Holding(p.vb));
    var n1 := Update(n, p.a, da);
    var n2 := Update(n1, p.b, db);
    var n3 := Update(n2, p.a, OnPoll(da, NO_FAULTS));
    var n4 := Update(n3, p.b, OnPoll(db, NO_FAULTS));
    CopyFrame(p.codec, n, p.a, Holding(p.va));
    CopyFrame(p.codec, n1, p.b, Holding(p.vb));
    TickFrame(p.codec, n2, p.a);
    TickFrame(p.codec, n3, p.b);
    nets := [n, n1, n2, n3, n4];
    steps := [UserCopy(p.a, Holding(p.va)), UserCopy(p.b, Holding(p.vb)), PollTick(p.a, NO_FAULTS), PollTick(p.b, NO_FAULTS)];
    FourSteps(p.codec, nets, steps);
  }

  /** Once both copies are found, no apply comes too early. */
  lemma NotOvertaken(p: Pair, nets: seq<Net>, steps: seq<Step>, x: Uuid)
    requires Opening(p, nets, steps) && (x == p.a || x == p.b)
    ensures !Overtaken(nets, steps, x)
  {
    hide FindsCopy;
    var l := if x == p.a then 2 else 3;
    assert FindsCopy(nets, steps, x, l);
    forall k | 0 <= k < |steps| ensures !AppliesEarly(nets, steps, x, k) {}
  }

  ghost predicate Story(p: Pair, n: Net, nets: seq<Net>, steps: seq<Step>) {
    && TwoCopyRun(p, nets, steps, 0, 1) && nets[0] == n && Opening(p, nets, steps)
  }

  lemma OpeningIsStory(p: Pair, n: Net) returns (nets: seq<Net>, steps: seq<Step>)
    requires Fit(p) && Startable(p, n)
    ensures Story(p, n, nets, steps)
  {
    nets, steps := Open(p, n);
    hide IsRun, Idle, Holding, Track, FindsCopy, Fit;
  }

  lemma StoryGrows(p: Pair, n: Net, nets: seq<Net>, steps: seq<Step>, step: Step)
    requires Story(p, n, nets, steps) && Enabled(nets[|steps|], step) && Moves(step)
    ensures Story(p, n, nets + [Next(p.codec, nets[|steps|], step)], steps + [step])
  {
    Extend(p.codec, nets, steps, step);
    assert Undisturbed(step);
    var nets', steps' := nets + [Next(p.codec, nets[|steps|], step)], steps + [step];
    hide Next, Enabled, Moves;
    RunGrows(p, nets, steps, nets', steps', step);
    OpeningGrows(p, nets, steps, nets', steps');
  }

  lemma RunGrows(p: Pair, nets: seq<Net>, steps: seq<Step>, nets': seq<Net>, steps': seq<Step>, step: Step)
    requires TwoCopyRun(p, nets, steps, 0, 1) && IsRun(p.codec, nets', steps') && Undisturbed(step)
    requires |nets| == |steps| + 1 && nets <= nets' && steps' == steps + [step]
    ensures TwoCopyRun(p, nets', steps', 0, 1) && nets'[0] == nets[0]
  {
    hide IsRun, Idle, Holding, Track, Undisturbed;
    assert nets'[0] == nets[0] && nets'[1] == nets[1];
    assert forall k :: 0 <= k < |steps| ==> steps'[k] == steps[k];
  }

  lemma OpeningGrows(p: Pair, nets: seq<Net>, steps: seq<Step>, nets': seq<Net>, steps': seq<Step>)
    requires Opening(p, nets, steps) && nets <= nets' && steps <= steps' && |nets'| == |steps'| + 1
    ensures Opening(p, nets', steps')
  {
    hide Holding, Found;
    assert forall k :: 0 <= k < |steps| ==> steps'[k] == steps[k];
    assert forall k :: 0 <= k < |nets| ==> nets'[k] == nets[k];
  }

  /** Both copies have been found by the time a story has reached its state. */
  lemma BothPolled(p: Pair, nets: seq<Net>, steps: seq<Step>)
    requires Opening(p, nets, steps) && p.a in nets[0].desks && p.b in nets[0].desks
    ensures var pasts := PastsOf(nets, steps, |steps|); pasts[p.a].polled && pasts[p.b].polled
  {
    PastIs(nets, steps, p.a, |steps|);
    PastIs(nets, steps, p.b, |steps|);
    hide FindsCopy, PastOf;
    assert FindsCopy(nets, steps, p.a, 2) && FindsCopy(nets, steps, p.b, 3);
  }

  lemma InvIsTwo(p: Pair, log: seq<Uuid>, pasts: map<Uuid, Past>, m: Net)
    requires p.a != p.b && Inv(p, log, pasts, m) && pasts.Keys == {p.a, p.b}
    ensures OnlyTwo(p, m) && FromThePair(p, m.inbox)
  {
    hide DeskAt, LogOk, CachedOk, FromThePair;
  }

  lemma NoWorkLeft(p: Pair, m: Net)
    requires OnlyTwo(p, m) && Work(p, m) == 0
    requires Pending(m.desks[p.a].os, m.desks[p.a].trackers) == [] && Pending(m.desks[p.b].os, m.desks[p.b].trackers) == []
    ensures Drained(One(p, p.a), m) && Drained(One(p, p.b), m)
  {
    hide Pending, Connected;
    assert WorkAt(m, p.a) == 0 && WorkAt(m, p.b) == 0;
  }

  lemma SettledAt(p: Pair, log: seq<Uuid>, pasts: map<Uuid, Past>, m: Net, x: Uuid)
    requires Inv(p, log, pasts, m) && x in m.desks && x in pasts && pasts[x].polled
    ensures Pending(m.desks[x].os, m.desks[x].trackers) == []
  {
    hide DeskOk, Inv, Mail, Pending;
    AtDesk(p, log, pasts, m, x);
    PolledIsSettled(p, log, pasts[x], x, m.hub.outboxes[x], m.desks[x], Mail(p.codec, m.inbox, x));
  }

  lemma StateOf(p: Pair, log: seq<Uuid>, pasts: map<Uuid, Past>, m: Net)
    requires p.a != p.b && Inv(p, log, pasts, m) && pasts.Keys == {p.a, p.b} && pasts[p.a].polled && pasts[p.b].polled
    ensures OnlyTwo(p, m) && FromThePair(p, m.inbox)
    ensures Work(p, m) == 0 ==> Drained(One(p, p.a), m) && Drained(One(p, p.b), m)
  {
    InvIsTwo(p, log, pasts, m);
    hide Inv, Pending, Work, Drained, FromThePair, Connected;
    SettledAt(p, log, pasts, m, p.a);
    SettledAt(p, log, pasts, m, p.b);
    if Work(p, m) == 0 {
      NoWorkLeft(p, m);
    }
  }

  /** Everything known of the state a story has reached. */
  lemma StoryState(p: Pair, n: Net, nets: seq<Net>, steps: seq<Step>)
    requires Fit(p) && Startable(p, n) && Story(p, n, nets, steps)
    ensures var m := nets[|steps|];
            && OnlyTwo(p, m) && FromThePair(p, m.inbox)
            && (Work(p, m) == 0 ==> Drained(One(p, p.a), m) && Drained(One(p, p.b), m))
  {
    hide IsRun, Holding, Track, Idle, Inv, FindsCopy, Undisturbed, Travels, Work, OnlyTwo, Drained, FromThePair, PastOf;
    var log := StoryOf(p, nets, steps, 0, 1, |steps|);
    BothPolled(p, nets, steps);
    StateOf(p, log, PastsOf(nets, steps, |steps|), nets[|steps|]);
  }

  lemma PolledIsSettled(p: Pair, log: seq<Uuid>, past: Past, x: Uuid, o: Outbox, d: Desk, mail: seq<ClipChange>)
    requires DeskOk(p, log, past, x, o, d, mail) && past.polled
    ensures Pending(d.os, d.trackers) == []
  {
    hide Pending, Up, Flow, Due, Holding;
  }

  lemma StepWork(p: Pair, n: Net, step: Step)
    requires OnlyTwo(p, n) && FromThePair(p, n.inbox) && Enabled(n, step) && Moves(step)
    ensures Work(p, Next(p.codec, n, step)) < Work(p, n)
  {
    hide Next, Work, OnlyTwo, FromThePair;
    if step.HubHandles? {
      HubWork(p, n);
    } else {
      LocalWork(p, n, step);
    }
  }

  /** From every idle network of two desktops, two copies that the trackers do not hold can end up
      swapped: some run makes them, drains every queue, and leaves each desktop with the other's. */
  lemma SwapHappens(p: Pair, n: Net) returns (nets: seq<Net>, steps: seq<Step>)
    requires Fit(p) && Startable(p, n)
    ensures TwoCopyRun(p, nets, steps, 0, 1) && nets[0] == n
    ensures var m := nets[|steps|];
            && Drained(One(p, p.a), m) && Drained(One(p, p.b), m)
            && p.a in m.desks && p.b in m.desks
            && m.desks[p.a].os == Holding(p.vb) && m.desks[p.b].os == Holding(p.va)
  {
    nets, steps := OpeningIsStory(p, n);
    hide TwoCopyRun, Opening, Startable, Fit, OnlyTwo, Moves, Enabled, Next, Work, Drained, Holding, FromThePair;
    StoryState(p, n, nets, steps);
    while Work(p, nets[|steps|]) > 0
      invariant Story(p, n, nets, steps) && |nets| == |steps| + 1
      invariant OnlyTwo(p, nets[|steps|]) && FromThePair(p, nets[|steps|].inbox)
      decreases Work(p, nets[|steps|])
    {
      var step := SomethingMoves(p, nets[|steps|]);
      StepWork(p, nets[|steps|], step);
      StoryGrows(p, n, nets, steps, step);
      nets, steps := nets + [Next(p.codec, nets[|steps|], step)], steps + [step];
      StoryState(p, n, nets, steps);
    }
    StoryState(p, n, nets, steps);
    NotOvertaken(p, nets, steps, p.a);
    NotOvertaken(p, nets, steps, p.b);
    CopiesSwapIff(p, nets, steps, 0, 1);
  }
}
