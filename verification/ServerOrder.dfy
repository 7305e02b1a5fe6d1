/** The writer task's priorities: no file chunk overtakes a clip that waits. */
module ServerOrder {
  import opened Wrappers
  import opened Protocol
  import opened Hub
  import opened Server
  import opened ServerCapacity
  import opened ServerStream

  /** How often a client's writer has taken a clip. */
  function ClipWrites(steps: seq<Step>, id: Uuid): nat {
    if |steps| == 0 then 0
    else ClipWrites(steps[..|steps| - 1], id) + Taken(steps[|steps| - 1], id)
  }

  function Taken(step: Step, id: Uuid): nat {
    if step.WriteClip? && step.id == id then 1 else 0
  }

  /** At least so many clips wait for this client. */
  ghost predicate Waits(s: Server, id: Uuid, n: int) {
    id in s.views && id in s.hub.outboxes && |s.hub.outboxes[id].clips| >= n
  }

  lemma HubWaits(s: Server, id: Uuid, n: int)
    requires CapacityInv(s) && DeliveryInv(s) && Enabled(s, HubHandles) && Waits(s, id, n)
    ensures Waits(Next(s, HubHandles), id, n)
  {
    assert ConnOk(s, id);
    if s.inbox[0].Register? {
      HeadWaits(s);
      hide Counted, DeliveryInv, CapacityInv;
    } else if s.inbox[0].Deregister? {
      hide Counted, DeliveryInv, CapacityInv;
    } else {
      PostFrame(s);
      hide Next, DeliveryInv, CapacityInv, SeenBy;
    }
  }

  lemma WriterWaits(s: Server, step: Step, n: int)
    requires Enabled(s, step) && (step.WriteInternal? || step.WriteClip? || step.WriteFile?)
    requires Waits(s, step.id, n)
    ensures Waits(Next(s, step), step.id, n - Taken(step, step.id))
  {
    var id := step.id;
    hide WriteOut;
    match step
    case WriteInternal(_, ok) =>
      var c := s.conns[id];
      WriteOutIs(WithConn(s, id, c.(internal := c.internal[1..])), id, c.internal[0], ok);
    case WriteClip(_, ok) =>
      var o := s.hub.outboxes[id];
      WriteOutIs(WithOutbox(s, id, o.(clips := o.clips[1..])), id, Clip(o.clips[0]), ok);
    case WriteFile(_, ok) =>
      var o := s.hub.outboxes[id];
      WriteOutIs(WithOutbox(s, id, o.(files := o.files[1..])), id, FileChunk(o.files[0]), ok);
  }

  lemma StepWaits(s: Server, step: Step, id: Uuid, n: int)
    requires CapacityInv(s) && DeliveryInv(s) && Enabled(s, step) && Waits(s, id, n)
    ensures Waits(Next(s, step), id, n - Taken(step, id))
  {
    assert ConnOk(s, id) && id in s.conns;
    if step.HubHandles? {
      HubWaits(s, id, n);
    } else if step.id != id {
      ElsewhereFrame(s, step, id);
      hide Next, Enabled, CapacityInv, DeliveryInv;
    } else if step.WriteInternal? || step.WriteClip? || step.WriteFile? {
      WriterWaits(s, step, n);
    } else {
      hide CapacityInv, DeliveryInv, ConnOk;
    }
  }

  /** Clips leave a client's channel through its writer alone. */
  lemma {:induction false} WaitingClips(states: seq<Server>, steps: seq<Step>, maxConns: nat, counting: bool, i: nat, j: nat, id: Uuid)
    requires IsRun(states, steps, maxConns, counting) && i <= j < |states| && maxConns < USIZE_COUNT
    requires id in states[i].views && id in states[i].hub.outboxes
    ensures Waits(states[j], id, |states[i].hub.outboxes[id].clips| - ClipWrites(steps[i..j], id))
  {
    hide Next, Enabled, CapacityInv, DeliveryInv, StreamInv;
    if i < j {
      WaitingClips(states, steps, maxConns, counting, i, j - 1, id);
      CapacityRun(states, steps, maxConns, counting, j - 1);
      HistoryRun(states, steps, maxConns, counting, j - 1);
      assert steps[i..j][..j - 1 - i] == steps[i..j - 1];
      StepWaits(states[j - 1], steps[j - 1], id, |states[i].hub.outboxes[id].clips| - ClipWrites(steps[i..j - 1], id));
    }
  }

  /** In every run, whatever is published in between: a client's writer takes no file chunk before it
      has taken every clip that waits for the client now. */
  lemma ClipsGoFirst(states: seq<Server>, steps: seq<Step>, maxConns: nat, counting: bool, i: nat, j: nat, id: Uuid, ok: bool)
    requires IsRun(states, steps, maxConns, counting) && i <= j < |steps| && maxConns < USIZE_COUNT
    requires id in states[i].views && id in states[i].hub.outboxes
    requires steps[j] == WriteFile(id, ok)
    ensures ClipWrites(steps[i..j], id) >= |states[i].hub.outboxes[id].clips|
  {
    WaitingClips(states, steps, maxConns, counting, i, j, id);
    assert Enabled(states[j], steps[j]);
    hide Next;
  }
}
