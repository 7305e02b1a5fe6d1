/** The reader and the writer task of a connection: how long each runs, and when an error goes out. */
module ServerTasks {
  import opened Wrappers
  import opened Protocol
  import opened Hub
  import opened Server
  import opened ServerCapacity
  import opened ServerStream
  import opened ServerIntake

  // What the steps of a run say.

  /** A read that passes nothing on. */
  predicate BadRead(step: Step, id: Uuid) {
    step.Read? && step.id == id && Passed(step.frame) == []
  }

  /** Has the connection started, with nothing since that ends its reader? */
  function ReaderRuns(steps: seq<Step>, id: Uuid): bool {
    |steps| > 0 &&
    var last := steps[|steps| - 1];
    || last == StartServing(id)
    || (ReaderRuns(steps[..|steps| - 1], id) && last != ReaderStops(id) && !BadRead(last, id))
  }

  /** Has it started, with no stop of its writer and no failed write since? */
  function WriterRuns(steps: seq<Step>, id: Uuid): bool {
    |steps| > 0 &&
    var last := steps[|steps| - 1];
    || last == StartServing(id)
    || (WriterRuns(steps[..|steps| - 1], id) && last != WriterStops(id)
        && last != WriteInternal(id, false) && last != WriteClip(id, false) && last != WriteFile(id, false))
  }

  /** Did a bad read meet a writer that could say so? */
  ghost function Rejected(states: seq<Server>, steps: seq<Step>, id: Uuid, i: nat): bool
    requires |states| == |steps| + 1 && i <= |steps|
  {
    i > 0 &&
    (Rejected(states, steps, id, i - 1)
     || (BadRead(steps[i - 1], id) && id in states[i - 1].conns && states[i - 1].conns[id].writer))
  }

  predicate HasError(frames: seq<Frame>) {
    exists k :: 0 <= k < |frames| && frames[k].Error?
  }

  // What the states hold.

  predicate Started(phase: Phase) {
    phase.Serving? || phase.Leaving? || phase.Gone?
  }

  ghost predicate TasksOk(c: Conn, reader: bool, writer: bool, rejected: bool) {
    && (c.reader <==> reader)
    && (c.writer <==> writer && !HasError(c.sent))
    && (c.writer ==> (rejected <==> HasError(c.internal)))
    && (HasError(c.sent) ==> rejected)
    && (!Started(c.phase) ==> !reader && !writer && !rejected && c.sent == [])
  }

  lemma ErrorAppend(frames: seq<Frame>, f: Frame)
    ensures HasError(frames + [f]) <==> HasError(frames) || f.Error?
    ensures |frames| > 0 ==> (HasError(frames) <==> frames[0].Error? || HasError(frames[1..]))
  {
    assert (frames + [f])[|frames|] == f;
    if k :| 0 <= k < |frames| && frames[k].Error? {
      assert (frames + [f])[k] == frames[k];
      assert k > 0 ==> frames[1..][k - 1] == frames[k];
    }
    assert forall k :: 0 <= k < |frames| ==> (frames + [f])[k] == frames[k];
  }

  lemma WroteTasks(c: Conn, o: Outbox, frame: Frame, ok: bool, reader: bool, writer: bool, rejected: bool)
    requires TasksOk(c.(internal := [frame] + c.internal), reader, writer, rejected) && c.writer && Started(c.phase)
    ensures TasksOk(Wrote(c, o, frame, ok).0, reader, writer && ok, rejected)
  {
    ErrorAppend(c.sent, frame);
    ErrorAppend([frame] + c.internal, frame);
    assert ([frame] + c.internal)[1..] == c.internal;
    hide HasError;
  }

  /** A write of a clip or a chunk, which no error waits before. */
  lemma RelayTasks(c: Conn, o: Outbox, frame: Frame, ok: bool, reader: bool, writer: bool, rejected: bool)
    requires TasksOk(c, reader, writer, rejected) && c.writer && Started(c.phase) && c.internal == [] && !frame.Error?
    ensures TasksOk(Wrote(c, o, frame, ok).0, reader, writer && ok, rejected)
  {
    ErrorAppend(c.sent, frame);
    assert !HasError([]);
    hide HasError;
  }

  lemma WriterTasks(s: Server, step: Step, reader: bool, writer: bool, rejected: bool)
    requires DeliveryInv(s) && Enabled(s, step) && (step.WriteInternal? || step.WriteClip? || step.WriteFile?)
    requires TasksOk(s.conns[step.id], reader, writer, rejected)
    ensures step.id in Next(s, step).conns
    ensures TasksOk(Next(s, step).conns[step.id], reader, writer && step.ok, rejected)
  {
    var id := step.id;
    assert ConnOk(s, id) && id in s.views && id in s.hub.outboxes && Started(s.conns[id].phase);
    var c, o := s.conns[id], s.hub.outboxes[id];
    hide WriteOut, TasksOk, Wrote, DeliveryInv, ConnOk, Started;
    match step
    case WriteInternal(_, ok) =>
      assert [c.internal[0]] + c.internal[1..] == c.internal;
      WroteTasks(c.(internal := c.internal[1..]), o, c.internal[0], ok, reader, writer, rejected);
      WriteOutIs(WithConn(s, id, c.(internal := c.internal[1..])), id, c.internal[0], ok);
    case WriteClip(_, ok) =>
      RelayTasks(c, o.(clips := o.clips[1..]), Clip(o.clips[0]), ok, reader, writer, rejected);
      WriteOutIs(WithOutbox(s, id, o.(clips := o.clips[1..])), id, Clip(o.clips[0]), ok);
    case WriteFile(_, ok) =>
      RelayTasks(c, o.(files := o.files[1..]), FileChunk(o.files[0]), ok, reader, writer, rejected);
      WriteOutIs(WithOutbox(s, id, o.(files := o.files[1..])), id, FileChunk(o.files[0]), ok);
  }

  /** What a connection's own other steps do to it. */
  ghost predicate Moved(c: Conn, c': Conn, step: Step) {
    match step
    case StartServing(id) =>
      c.phase.Acked? && c'.phase == Serving && c'.reader && c'.writer && c'.sent == c.sent
      && |c'.internal| == 1 && c'.internal[0].Welcome?
    case Read(_, frame) => c.reader && c' == if Passed(frame) == [] then RejectInput(c) else c
    case ReaderStops(_) => c' == c.(reader := false)
    case WriterStops(_) => c' == c.(writer := false)
    case _ => c' == c.(phase := c'.phase) && (Started(c.phase) ==> Started(c'.phase)) && (!Started(c.phase) ==> !c'.phase.Serving?)
  }

  lemma ConnFrame(s: Server, step: Step)
    requires Enabled(s, step) && !step.HubHandles? && !step.WriteInternal? && !step.WriteClip? && !step.WriteFile?
    ensures step.id in Next(s, step).conns
    ensures step.Accept? <==> step.id !in s.conns
    ensures step.Accept? ==> Next(s, step).conns[step.id] == Conn(Admitted, [], false, false, [])
    ensures step.id in s.conns ==> Moved(s.conns[step.id], Next(s, step).conns[step.id], step)
  {}

  lemma NoErrors()
    ensures !HasError([]) && forall id, clip :: !HasError([Welcome(id, clip)])
  {}

  lemma ConnTasks(c: Conn, c': Conn, step: Step, id: Uuid, reader: bool, writer: bool, rejected: bool)
    requires TasksOk(c, reader, writer, rejected) && step.Read? && step.id == id && c.reader
    requires c' == if Passed(step.frame) == [] then RejectInput(c) else c
    ensures TasksOk(c', reader && !BadRead(step, id), writer, rejected || (BadRead(step, id) && c.writer))
  {
    ErrorAppend(c.internal, Error(BadFrame));
    hide HasError, Passed;
  }

  /** The flags after one more step. */
  function ReaderNext(reader: bool, step: Step, id: Uuid): bool {
    step == StartServing(id) || (reader && step != ReaderStops(id) && !BadRead(step, id))
  }

  function WriterNext(writer: bool, step: Step, id: Uuid): bool {
    step == StartServing(id)
    || (writer && step != WriterStops(id)
        && step != WriteInternal(id, false) && step != WriteClip(id, false) && step != WriteFile(id, false))
  }

  ghost function RejectedNext(rejected: bool, s: Server, step: Step, id: Uuid): bool {
    rejected || (BadRead(step, id) && id in s.conns && s.conns[id].writer)
  }

  lemma PlainTasks(c: Conn, c': Conn, step: Step, reader: bool, writer: bool, rejected: bool)
    requires TasksOk(c, reader, writer, rejected) && Moved(c, c', step)
    requires !step.HubHandles? && !step.WriteInternal? && !step.WriteClip? && !step.WriteFile?
    ensures TasksOk(c', ReaderNext(reader, step, step.id), WriterNext(writer, step, step.id),
                    rejected || (BadRead(step, step.id) && c.writer))
  {
    NoErrors();
    hide HasError, Passed, RejectInput;
    if step.Read? {
      ConnTasks(c, c', step, step.id, reader, writer, rejected);
    } else if step.StartServing? {
      assert c'.internal == [c'.internal[0]];
    }
  }

  lemma OwnStepTasks(s: Server, step: Step, reader: bool, writer: bool, rejected: bool)
    requires DeliveryInv(s) && Enabled(s, step) && !step.HubHandles? && step.id in s.conns
    requires TasksOk(s.conns[step.id], reader, writer, rejected)
    ensures step.id in Next(s, step).conns
    ensures TasksOk(Next(s, step).conns[step.id], ReaderNext(reader, step, step.id), WriterNext(writer, step, step.id),
                    RejectedNext(rejected, s, step, step.id))
  {
    hide Next, Enabled, DeliveryInv, TasksOk, Moved;
    if step.WriteInternal? || step.WriteClip? || step.WriteFile? {
      WriterTasks(s, step, reader, writer, rejected);
    } else {
      ConnFrame(s, step);
      PlainTasks(s.conns[step.id], Next(s, step).conns[step.id], step, reader, writer, rejected);
    }
  }

  lemma HubTasks(s: Server, id: Uuid)
    requires CapacityInv(s) && Enabled(s, HubHandles) && id in s.conns
    ensures id in Next(s, HubHandles).conns
    ensures var c, c' := s.conns[id], Next(s, HubHandles).conns[id];
            c' == c.(phase := c'.phase) && (c'.phase == c.phase || (!Started(c.phase) && !Started(c'.phase)))
  {
    if s.inbox[0].Register? {
      HeadWaits(s);
      HeadIsAccepted(s);
      hide Counted;
    } else if s.inbox[0].Deregister? {
      hide Counted;
    } else {
      PostFrame(s);
      hide Next;
    }
  }

  ghost predicate TasksAt(s: Server, id: Uuid, reader: bool, writer: bool, rejected: bool) {
    if id in s.conns then TasksOk(s.conns[id], reader, writer, rejected) else !reader && !writer && !rejected
  }

  /** A hub step, or a step of another connection. */
  lemma ElsewhereTasks(s: Server, step: Step, id: Uuid, reader: bool, writer: bool, rejected: bool)
    requires CapacityInv(s) && Enabled(s, step) && TasksAt(s, id, reader, writer, rejected)
    requires step.HubHandles? || step.id != id
    ensures TasksAt(Next(s, step), id, reader, writer, rejected)
  {
    if id !in s.conns {
      if id in Next(s, step).conns {
        NewConns(s, step, id);
      }
    } else if step.HubHandles? {
      HubTasks(s, id);
      hide Next, HasError;
    } else {
      ElsewhereFrame(s, step, id);
      hide Next, HasError;
    }
  }

  lemma AcceptTasks(s: Server, step: Step)
    requires Enabled(s, step) && !step.HubHandles? && step.id !in s.conns
    ensures step.Accept? && TasksAt(Next(s, step), step.id, false, false, false)
  {
    NoErrors();
  }

  lemma StepTasks(s: Server, step: Step, id: Uuid, reader: bool, writer: bool, rejected: bool)
    requires CapacityInv(s) && DeliveryInv(s) && Enabled(s, step) && TasksAt(s, id, reader, writer, rejected)
    ensures TasksAt(Next(s, step), id, ReaderNext(reader, step, id), WriterNext(writer, step, id), RejectedNext(rejected, s, step, id))
  {
    hide Next, Enabled, CapacityInv, DeliveryInv, TasksOk;
    if step.HubHandles? || step.id != id {
      ElsewhereTasks(s, step, id, reader, writer, rejected);
    } else if id in s.conns {
      OwnStepTasks(s, step, reader, writer, rejected);
    } else {
      AcceptTasks(s, step);
    }
  }

  /** How long the tasks run, in every run: the reader from the start of the connection to the first
      stop or bad read, the writer to its stop, its first failed write or the error it sends; and a bad
      read is answered: the error waits for as long as the writer lives, and no error is sent without one. */
  lemma TasksRun(states: seq<Server>, steps: seq<Step>, maxConns: nat, counting: bool, i: nat, id: Uuid)
    requires IsRun(states, steps, maxConns, counting) && i < |states| && maxConns < USIZE_COUNT
    requires id in states[i].conns
    ensures var c := states[i].conns[id];
            && (c.reader <==> ReaderRuns(steps[..i], id))
            && (c.writer <==> WriterRuns(steps[..i], id) && !HasError(c.sent))
            && (c.writer ==> (Rejected(states, steps, id, i) <==> HasError(c.internal)))
            && (HasError(c.sent) ==> Rejected(states, steps, id, i))
  {
    TasksAlways(states, steps, maxConns, counting, i, id);
    hide IsRun, HasError, ReaderRuns, WriterRuns, Rejected;
  }

  lemma {:induction false} TasksAlways(states: seq<Server>, steps: seq<Step>, maxConns: nat, counting: bool, i: nat, id: Uuid)
    requires IsRun(states, steps, maxConns, counting) && i < |states| && maxConns < USIZE_COUNT
    ensures TasksAt(states[i], id, ReaderRuns(steps[..i], id), WriterRuns(steps[..i], id), Rejected(states, steps, id, i))
  {
    hide Next, Enabled, TasksOk, BadRead, DeliveryInv, StreamInv, CapacityInv;
    if i > 0 {
      TasksAlways(states, steps, maxConns, counting, i - 1, id);
      CapacityRun(states, steps, maxConns, counting, i - 1);
      HistoryRun(states, steps, maxConns, counting, i - 1);
      assert steps[..i][..i - 1] == steps[..i - 1];
      StepTasks(states[i - 1], steps[i - 1], id, ReaderRuns(steps[..i - 1], id), WriterRuns(steps[..i - 1], id),
                Rejected(states, steps, id, i - 1));
    }
  }
}
