/** Two copies at two desktops, in every interleaving: what the desktops end up holding. */
module TwoCopies {
  import opened Wrappers
  import opened Protocol
  import opened Clipboard
  import opened ClipFrames
  import opened Hub
  import opened Network
  import opened Propagation

  /** Desktop `a` copies `va` and desktop `b` copies `vb`. */
  datatype Pair = Pair(codec: Codec, a: Uuid, b: Uuid, va: ClipChange, vb: ClipChange)

  function Value(p: Pair, x: Uuid): ClipChange {
    if x == p.a then p.va else p.vb
  }

  function One(p: Pair, x: Uuid): Copy {
    Copy(p.codec, x, Value(p, x))
  }

  ghost predicate Fit(p: Pair) {
    p.a != p.b && Travels(One(p, p.a)) && Travels(One(p, p.b))
  }

  // The pipeline as sequences of changes.

  /** The change a frame carries; no frame carries a file list, so an empty one marks a bad frame. */
  function Read(codec: Codec, f: ClipFrame): ClipChange {
    if f.Validates() && FrameToChange(codec, f).Ok? then FrameToChange(codec, f).value else Files([])
  }

  function ReadAll(codec: Codec, frames: seq<ClipFrame>): seq<ClipChange> {
    seq(|frames|, i requires 0 <= i < |frames| => Read(codec, frames[i]))
  }

  /** A desktop's clips waiting for the hub. */
  function Mail(codec: Codec, inbox: seq<Message>, x: Uuid): seq<ClipChange> {
    if |inbox| == 0 then []
    else (if inbox[0].Publish? && inbox[0].from == x then [Read(codec, inbox[0].clip)] else []) + Mail(codec, inbox[1..], x)
  }

  /** From the hub's channel to the clipboard thread, next change first. */
  function Flow(codec: Codec, o: Outbox, d: Desk): seq<ClipChange> {
    d.apply + ReadAll(codec, d.downlink) + ReadAll(codec, o.clips)
  }

  /** From the clipboard thread to the hub, next change first. */
  function Up(codec: Codec, mail: seq<ClipChange>, d: Desk): seq<ClipChange> {
    mail + ReadAll(codec, d.uplink) + ReadAll(codec, d.outbound) + d.events
  }

  lemma ReadIgnoresOrigin(codec: Codec, f: ClipFrame, from: Option<Uuid>)
    ensures Read(codec, f.(from := from)) == Read(codec, f)
  {}

  lemma CarriedReads(c: Copy, f: ClipFrame)
    ensures Carries(c, f) ==> Read(c.codec, f) == c.v
    ensures !c.v.Files? ==> (Carries(c, f) <==> Read(c.codec, f) == c.v)
  {}

  lemma {:induction false} MailAppend(codec: Codec, inbox: seq<Message>, msg: Message, x: Uuid)
    ensures Mail(codec, inbox + [msg], x)
         == Mail(codec, inbox, x) + (if msg.Publish? && msg.from == x then [Read(codec, msg.clip)] else [])
  {
    hide Read;
    if |inbox| == 0 {
      assert ([msg])[1..] == [];
    } else {
      assert (inbox + [msg])[1..] == inbox[1..] + [msg];
      MailAppend(codec, inbox[1..], msg, x);
    }
  }

  // The story so far.

  /** `log` is the order in which the hub published the two; what it owes a desktop are the others'. */
  function Due(p: Pair, log: seq<Uuid>, x: Uuid): seq<ClipChange> {
    if |log| == 0 then []
    else Due(p, log[..|log| - 1], x) + (if log[|log| - 1] == x then [] else [Value(p, log[|log| - 1])])
  }

  ghost predicate LogOk(p: Pair, log: seq<Uuid>) {
    && |log| <= 2 && (forall i :: 0 <= i < |log| ==> log[i] == p.a || log[i] == p.b)
    && (|log| == 2 ==> log[0] != log[1])
  }

  /** `copied`: the desktop's user has copied. `polled`: a poll has found that copy. `overtaken`: some
      clip was applied before any poll had. */
  datatype Past = Past(copied: bool, polled: bool, overtaken: bool)

  /** The copy has been announced: it is on its way or published, and the clipboard holds it until the
      other's clip is applied, unless that one came first. */
  ghost predicate PolledOk(v: ClipChange, published: bool, first: bool, overtaken: bool, due: seq<ClipChange>,
                           os: OsClipboard, up: seq<ClipChange>, flow: seq<ClipChange>) {
    && up == (if published then [] else [v])
    && (overtaken ==> flow == [] && |due| > 0 && !first)
    && os == Holding(if |flow| < |due| && !overtaken then due[|due| - 1] else v)
  }

  /** There is no copy, or it was overwritten before a poll could find it. */
  ghost predicate Still(copied: bool, due: seq<ClipChange>, os: OsClipboard, flow: seq<ClipChange>) {
    && (flow == [] && |due| > 0 ==> os == Holding(due[|due| - 1]))
    && (copied ==> flow == [] && |due| > 0)
  }

  /** One desktop, as far as the two copies go. */
  ghost predicate FateOk(p: Pair, log: seq<Uuid>, past: Past, x: Uuid, os: OsClipboard, pending: seq<ClipChange>,
                         up: seq<ClipChange>, flow: seq<ClipChange>) {
    var due, v := Due(p, log, x), Value(p, x);
    && |flow| <= |due| && flow == due[|due| - |flow|..]
    && (past.polled ==> past.copied) && (past.copied ==> x == p.a || x == p.b)
    && (if past.polled then
          pending == [] && PolledOk(v, x in log, |log| > 0 && log[0] == x, past.overtaken, due, os, up, flow)
        else
          && up == [] && x !in log && (past.overtaken <==> |flow| < |due|)
          && ((past.copied && pending == [v] && os == Holding(v)) || (pending == [] && Still(past.copied, due, os, flow))))
  }

  ghost predicate DeskOk(p: Pair, log: seq<Uuid>, past: Past, x: Uuid, o: Outbox, d: Desk, mail: seq<ClipChange>) {
    o.open && FateOk(p, log, past, x, d.os, Pending(d.os, d.trackers), Up(p.codec, mail, d), Flow(p.codec, o, d))
  }

  ghost predicate FromThePair(p: Pair, inbox: seq<Message>) {
    forall m :: m in inbox ==> m.Publish? && (m.from == p.a || m.from == p.b)
  }

  ghost predicate CachedOk(p: Pair, log: seq<Uuid>, lastClip: Option<ClipFrame>) {
    |log| > 0 ==> lastClip.Some? && Read(p.codec, lastClip.value) == Value(p, log[|log| - 1])
  }

  ghost predicate DeskAt(p: Pair, log: seq<Uuid>, pasts: map<Uuid, Past>, n: Net, x: Uuid) {
    && x in n.desks && x in pasts && x in n.hub.outboxes
    && DeskOk(p, log, pasts[x], x, n.hub.outboxes[x], n.desks[x], Mail(p.codec, n.inbox, x))
  }

  ghost predicate Inv(p: Pair, log: seq<Uuid>, pasts: map<Uuid, Past>, n: Net) {
    && Connected(n) && p.a in n.desks && p.b in n.desks && pasts.Keys == n.desks.Keys
    && LogOk(p, log) && FromThePair(p, n.inbox) && CachedOk(p, log, n.hub.lastClip)
    && forall x :: x in n.desks ==> DeskAt(p, log, pasts, n, x)
  }

  lemma DueSnoc(p: Pair, log: seq<Uuid>, y: Uuid, x: Uuid)
    ensures Due(p, log + [y], x) == Due(p, log, x) + (if y == x then [] else [Value(p, y)])
  {
    assert (log + [y])[..|log|] == log;
  }

  lemma DueOne(p: Pair, y: Uuid, x: Uuid)
    ensures Due(p, [], x) == [] && Due(p, [y], x) == if y == x then [] else [Value(p, y)]
  {
    DueSnoc(p, [], y, x);
    assert [] + [y] == [y];
  }

  lemma DueTwo(p: Pair, y: Uuid, z: Uuid, x: Uuid)
    ensures Due(p, [y, z], x) == Due(p, [y], x) + Due(p, [z], x)
  {
    DueSnoc(p, [y], z, x);
    DueOne(p, z, x);
    assert [y] + [z] == [y, z];
  }

  /** Everything the hub can owe, case by case. */
  lemma DueFacts(p: Pair, log: seq<Uuid>, x: Uuid)
    requires LogOk(p, log) && p.a != p.b
    ensures |Due(p, log, x)| <= |log|
    ensures x == p.a ==> Due(p, log, x) == if p.b in log then [p.vb] else []
    ensures x == p.b ==> Due(p, log, x) == if p.a in log then [p.va] else []
    ensures |log| > 0 && log[|log| - 1] != x ==>
      |Due(p, log, x)| > 0 && Due(p, log, x)[|Due(p, log, x)| - 1] == Value(p, log[|log| - 1])
    ensures forall v :: v in Due(p, log, x) ==> v == p.va || v == p.vb
  {
    hide Due;
    if |log| == 0 {
      assert log == [];
      DueOne(p, p.a, x);
    } else if |log| == 1 {
      assert log == [log[0]];
      DueOne(p, log[0], x);
    } else {
      assert log == [log[0], log[1]];
      DueTwo(p, log[0], log[1], x);
      DueOne(p, log[0], x);
      DueOne(p, log[1], x);
    }
  }

  // What each step does to a desktop's fate.

  lemma FateFound(p: Pair, log: seq<Uuid>, past: Past, x: Uuid, os: OsClipboard, up: seq<ClipChange>, flow: seq<ClipChange>)
    requires Fit(p) && LogOk(p, log) && FateOk(p, log, past, x, os, [Value(p, x)], up, flow)
    ensures up == [] && FateOk(p, log, past.(polled := true), x, os, [], [Value(p, x)], flow)
  {
    DueFacts(p, log, x);
    hide Holding, Due, Fit, LogOk;
    assert |log| > 0 ==> log[0] in log;
  }

  lemma FatePending(p: Pair, log: seq<Uuid>, past: Past, x: Uuid, os: OsClipboard, pending: seq<ClipChange>,
                    up: seq<ClipChange>, flow: seq<ClipChange>)
    requires FateOk(p, log, past, x, os, pending, up, flow) && pending != []
    ensures pending == [Value(p, x)] && up == []
  {
    hide Holding, Due;
  }

  lemma FateUp(p: Pair, log: seq<Uuid>, past: Past, x: Uuid, os: OsClipboard, pending: seq<ClipChange>,
               up: seq<ClipChange>, flow: seq<ClipChange>)
    requires FateOk(p, log, past, x, os, pending, up, flow) && |up| > 0
    ensures past.polled && (x == p.a || x == p.b) && x !in log && up == [Value(p, x)]
  {
    hide Holding, Due;
  }

  lemma FateFlow(p: Pair, log: seq<Uuid>, past: Past, x: Uuid, os: OsClipboard, pending: seq<ClipChange>,
                 up: seq<ClipChange>, flow: seq<ClipChange>)
    requires Fit(p) && LogOk(p, log) && FateOk(p, log, past, x, os, pending, up, flow)
    ensures |flow| <= 2 && forall v :: v in flow ==> v == p.va || v == p.vb
  {
    DueFacts(p, log, x);
    hide Due, PolledOk, Still, Fit, Value;
    SuffixMembers(Due(p, log, x), flow);
  }

  lemma SuffixMembers(due: seq<ClipChange>, flow: seq<ClipChange>)
    requires |flow| <= |due| && flow == due[|due| - |flow|..]
    ensures forall v :: v in flow ==> v in due
  {}

  lemma FateApplied(p: Pair, log: seq<Uuid>, past: Past, x: Uuid, os: OsClipboard, pending: seq<ClipChange>,
                    up: seq<ClipChange>, flow: seq<ClipChange>)
    requires Fit(p) && LogOk(p, log) && FateOk(p, log, past, x, os, pending, up, flow) && |flow| > 0
    ensures FateOk(p, log, if past.polled then past else past.(overtaken := true), x, Holding(flow[0]), [], up, flow[1..])
  {
    DueFacts(p, log, x);
    hide Holding, Due, Fit, LogOk;
    var due := Due(p, log, x);
    assert flow[0] == due[|due| - |flow|];
    assert flow[1..] == due[|due| - (|flow| - 1)..];
  }

  lemma FateCopied(p: Pair, log: seq<Uuid>, past: Past, x: Uuid, os: OsClipboard, pending: seq<ClipChange>,
                   up: seq<ClipChange>, flow: seq<ClipChange>)
    requires FateOk(p, log, past, x, os, pending, up, flow) && !past.copied && (x == p.a || x == p.b)
    ensures FateOk(p, log, past.(copied := true), x, Holding(Value(p, x)), [Value(p, x)], up, flow)
  {
    hide Holding, Due;
  }

  lemma LogGrows(p: Pair, log: seq<Uuid>, x: Uuid)
    requires LogOk(p, log) && (x == p.a || x == p.b) && x !in log
    ensures LogOk(p, log + [x]) && |log| <= 1
  {}

  lemma FatePublished(p: Pair, log: seq<Uuid>, past: Past, x: Uuid, os: OsClipboard, pending: seq<ClipChange>,
                      up: seq<ClipChange>, flow: seq<ClipChange>)
    requires FateOk(p, log, past, x, os, pending, up, flow) && |up| > 0
    ensures FateOk(p, log + [x], past, x, os, pending, [], flow)
  {
    DueSnoc(p, log, x, x);
    hide Holding, Due;
    assert Due(p, log, x) + [] == Due(p, log, x);
    assert x in log + [x] && (|log| > 0 ==> (log + [x])[0] == log[0]);
    assert past.overtaken ==> |log| > 0 by { DueOfNothing(p, x); }
  }

  lemma DueOfNothing(p: Pair, x: Uuid)
    ensures Due(p, [], x) == []
  {}

  lemma FateReceived(p: Pair, log: seq<Uuid>, past: Past, x: Uuid, y: Uuid, os: OsClipboard, pending: seq<ClipChange>,
                     up: seq<ClipChange>, flow: seq<ClipChange>)
    requires p.a != p.b && LogOk(p, log) && FateOk(p, log, past, y, os, pending, up, flow)
    requires (x == p.a || x == p.b) && x !in log && y != x
    ensures FateOk(p, log + [x], past, y, os, pending, up, flow + [Value(p, x)])
  {
    DueFacts(p, log, y);
    DueSnoc(p, log, x, y);
    assert y == p.a || y == p.b ==> Due(p, log, y) == [];
    hide Holding, Due, LogOk, Value;
    assert y in log + [x] <==> y in log;
    if past.copied {
      CopierReceives(p, log, past, x, y, os, pending, up, flow);
    } else {
      OtherReceives(p, log, past, x, y, os, pending, up, flow);
    }
  }

  lemma CopierReceives(p: Pair, log: seq<Uuid>, past: Past, x: Uuid, y: Uuid, os: OsClipboard, pending: seq<ClipChange>,
                       up: seq<ClipChange>, flow: seq<ClipChange>)
    requires FateOk(p, log, past, y, os, pending, up, flow) && past.copied
    requires Due(p, log, y) == [] && Due(p, log + [x], y) == [] + [Value(p, x)] && (y in log + [x] <==> y in log)
    ensures FateOk(p, log + [x], past, y, os, pending, up, flow + [Value(p, x)])
  {
    hide Holding, Due, Value;
    assert flow == [] && flow + [Value(p, x)] == [Value(p, x)] == [] + [Value(p, x)];
  }

  lemma OtherReceives(p: Pair, log: seq<Uuid>, past: Past, x: Uuid, y: Uuid, os: OsClipboard, pending: seq<ClipChange>,
                      up: seq<ClipChange>, flow: seq<ClipChange>)
    requires FateOk(p, log, past, y, os, pending, up, flow) && !past.copied
    requires Due(p, log + [x], y) == Due(p, log, y) + [Value(p, x)] && (y in log + [x] <==> y in log)
    ensures FateOk(p, log + [x], past, y, os, pending, up, flow + [Value(p, x)])
  {
    hide Holding, Due, Value;
    var due := Due(p, log, y);
    assert (due + [Value(p, x)])[|due| - |flow|..] == due[|due| - |flow|..] + [Value(p, x)];
  }

  // One desktop's own steps.

  lemma PollOk(p: Pair, log: seq<Uuid>, past: Past, x: Uuid, o: Outbox, d: Desk, mail: seq<ClipChange>, faults: Faults)
    requires Fit(p) && LogOk(p, log) && DeskOk(p, log, past, x, o, d, mail)
    ensures var d' := OnPoll(d, faults); DeskOk(p, log, AfterPoll(past, d, d'), x, o, d', mail)
  {
    hide Pending, Poll, Holding, FateOk, ReadAll, OnPoll, Fit, LogOk;
    var pending := Pending(d.os, d.trackers);
    if pending == [] {
      SettledPollIsSilent(d, faults);
    } else {
      FatePending(p, log, past, x, d.os, pending, Up(p.codec, mail, d), Flow(p.codec, o, d));
      PollOfCopy(p, log, past, x, o, d, mail, faults);
    }
  }

  lemma PollOfCopy(p: Pair, log: seq<Uuid>, past: Past, x: Uuid, o: Outbox, d: Desk, mail: seq<ClipChange>, faults: Faults)
    requires Fit(p) && LogOk(p, log) && DeskOk(p, log, past, x, o, d, mail)
    requires Pending(d.os, d.trackers) == [Value(p, x)] && Up(p.codec, mail, d) == []
    ensures var d' := OnPoll(d, faults); DeskOk(p, log, AfterPoll(past, d, d'), x, o, d', mail)
  {
    UpLength(p.codec, mail, d);
    hide Pending, Poll, Holding, FateOk, ReadAll, OnPoll, Fit, LogOk;
    FateFound(p, log, past, x, d.os, Up(p.codec, mail, d), Flow(p.codec, o, d));
    CopiedPoll(d, Value(p, x), faults);
    var d' := OnPoll(d, faults);
    assert Up(p.codec, mail, d') == Up(p.codec, mail, d) + d'.events == d'.events;
    assert Flow(p.codec, o, d') == Flow(p.codec, o, d);
  }

  lemma UpLength(codec: Codec, mail: seq<ClipChange>, d: Desk)
    ensures |Up(codec, mail, d)| == |mail| + |d.uplink| + |d.outbound| + |d.events|
    ensures |mail| > 0 ==> Up(codec, mail, d)[0] == mail[0]
    ensures |mail| == 0 && |d.uplink| > 0 ==> Up(codec, mail, d)[0] == Read(codec, d.uplink[0])
    ensures |mail| == 0 && |d.uplink| == 0 && |d.outbound| > 0 ==> Up(codec, mail, d)[0] == Read(codec, d.outbound[0])
    ensures |mail| == 0 && |d.uplink| == 0 && |d.outbound| == 0 && |d.events| > 0 ==> Up(codec, mail, d)[0] == d.events[0]
  {
    hide Read;
  }

  /** Only the desktop that has polled its copy has anything on the way up, and that is the copy. */
  lemma OnTheWayUp(p: Pair, log: seq<Uuid>, past: Past, x: Uuid, o: Outbox, d: Desk, mail: seq<ClipChange>)
    requires DeskOk(p, log, past, x, o, d, mail)
    requires |mail| > 0 || |d.uplink| > 0 || |d.outbound| > 0 || |d.events| > 0
    ensures past.polled && (x == p.a || x == p.b) && x !in log && Up(p.codec, mail, d) == [Value(p, x)]
    ensures |mail| + |d.uplink| + |d.outbound| + |d.events| == 1
    ensures |mail| > 0 ==> mail[0] == Value(p, x)
    ensures |d.uplink| > 0 ==> Read(p.codec, d.uplink[0]) == Value(p, x)
    ensures |d.outbound| > 0 ==> Read(p.codec, d.outbound[0]) == Value(p, x)
    ensures |d.events| > 0 ==> d.events[0] == Value(p, x)
  {
    UpLength(p.codec, mail, d);
    hide Pending, Up, Flow, FateOk, Read;
    FateUp(p, log, past, x, d.os, Pending(d.os, d.trackers), Up(p.codec, mail, d), Flow(p.codec, o, d));
  }

  /** Moving the copy along its way up. */
  lemma UpOk(p: Pair, log: seq<Uuid>, past: Past, x: Uuid, o: Outbox, d: Desk, mail: seq<ClipChange>, d': Desk, mail': seq<ClipChange>)
    requires DeskOk(p, log, past, x, o, d, mail)
    requires d' == d.(events := d'.events, outbound := d'.outbound, uplink := d'.uplink,
                      announced := d'.announced, published := d'.published)
    requires Up(p.codec, mail', d') == Up(p.codec, mail, d)
    ensures DeskOk(p, log, past, x, o, d', mail')
  {
    hide Pending, Up, FateOk, ReadAll;
  }

  lemma OneUp(codec: Codec, mail: seq<ClipChange>, d: Desk, v: ClipChange)
    requires |mail| + |d.uplink| + |d.outbound| + |d.events| == 1
    requires |mail| > 0 ==> mail[0] == v
    requires |d.uplink| > 0 ==> Read(codec, d.uplink[0]) == v
    requires |d.outbound| > 0 ==> Read(codec, d.outbound[0]) == v
    requires |d.events| > 0 ==> d.events[0] == v
    ensures Up(codec, mail, d) == [v]
  {
    UpLength(codec, mail, d);
    hide Up, Read;
  }

  lemma EventOk(p: Pair, log: seq<Uuid>, past: Past, x: Uuid, o: Outbox, d: Desk, mail: seq<ClipChange>, frameId: Uuid, ts: int)
    requires Fit(p) && DeskOk(p, log, past, x, o, d, mail) && |d.events| > 0
    ensures DeskOk(p, log, past, x, o, OnEvent(p.codec, d, frameId, ts), mail)
  {
    OnTheWayUp(p, log, past, x, o, d, mail);
    EncodesOk(One(p, x), frameId, ts);
    var frame := ChangeToFrame(p.codec, Value(p, x), frameId, ts).value;
    CarriedReads(One(p, x), frame);
    hide DeskOk, Read, ChangeToFrame, FrameToChange, Up;
    var d' := OnEvent(p.codec, d, frameId, ts);
    assert d'.outbound == [frame] && d'.events == [];
    OneUp(p.codec, mail, d', Value(p, x));
    UpOk(p, log, past, x, o, d, mail, d', mail);
  }

  lemma SendOk(p: Pair, log: seq<Uuid>, past: Past, x: Uuid, o: Outbox, d: Desk, mail: seq<ClipChange>)
    requires DeskOk(p, log, past, x, o, d, mail) && |d.outbound| > 0
    ensures DeskOk(p, log, past, x, o, OnSend(d, true), mail)
  {
    OnTheWayUp(p, log, past, x, o, d, mail);
    hide DeskOk, Read, Up;
    var d' := OnSend(d, true);
    assert d'.uplink == [d.outbound[0]];
    OneUp(p.codec, mail, d', Value(p, x));
    UpOk(p, log, past, x, o, d, mail, d', mail);
  }

  lemma ReadOk(p: Pair, log: seq<Uuid>, past: Past, x: Uuid, o: Outbox, d: Desk, mail: seq<ClipChange>)
    requires Fit(p) && DeskOk(p, log, past, x, o, d, mail) && |d.uplink| > 0
    ensures d.uplink[0].Validates() && (x == p.a || x == p.b)
    ensures DeskOk(p, log, past, x, o, d.(uplink := d.uplink[1..]), mail + [Read(p.codec, d.uplink[0].(from := None))])
  {
    OnTheWayUp(p, log, past, x, o, d, mail);
    ReadIgnoresOrigin(p.codec, d.uplink[0], None);
    assert d.uplink[0].Validates();
    hide DeskOk, Read, Up;
    var d', mail' := d.(uplink := d.uplink[1..]), mail + [Read(p.codec, d.uplink[0].(from := None))];
    OneUp(p.codec, mail', d', Value(p, x));
    UpOk(p, log, past, x, o, d, mail, d', mail');
  }

  /** Moving clips along their way down. */
  lemma DownOk(p: Pair, log: seq<Uuid>, past: Past, x: Uuid, o: Outbox, d: Desk, mail: seq<ClipChange>, o': Outbox, d': Desk)
    requires DeskOk(p, log, past, x, o, d, mail)
    requires d' == d.(downlink := d'.downlink, apply := d'.apply) && o'.open
    requires Flow(p.codec, o', d') == Flow(p.codec, o, d)
    ensures DeskOk(p, log, past, x, o', d', mail)
  {
    hide Pending, FateOk, Flow, ReadAll;
  }

  lemma ReadAllSplits(codec: Codec, frames: seq<ClipFrame>, f: ClipFrame)
    ensures ReadAll(codec, frames + [f]) == ReadAll(codec, frames) + [Read(codec, f)]
    ensures |frames| > 0 ==> ReadAll(codec, frames) == [Read(codec, frames[0])] + ReadAll(codec, frames[1..])
  {
    hide Read;
  }

  lemma DeliverOk(p: Pair, log: seq<Uuid>, past: Past, x: Uuid, o: Outbox, d: Desk, mail: seq<ClipChange>)
    requires DeskOk(p, log, past, x, o, d, mail) && |o.clips| > 0
    ensures var (o', d') := Delivered(o, d); DeskOk(p, log, past, x, o', d', mail)
  {
    var (o', d') := Delivered(o, d);
    ReadAllSplits(p.codec, d.downlink, o.clips[0]);
    ReadAllSplits(p.codec, o.clips, o.clips[0]);
    assert o.open;
    hide ReadAll, Read, DeskOk;
    Regroup(d.apply, ReadAll(p.codec, d.downlink), Read(p.codec, o.clips[0]), ReadAll(p.codec, o.clips[1..]));
    DownOk(p, log, past, x, o, d, mail, o', d');
  }

  lemma Regroup(a: seq<ClipChange>, b: seq<ClipChange>, v: ClipChange, c: seq<ClipChange>)
    ensures a + b + ([v] + c) == a + (b + [v]) + c
    ensures a + ([v] + b) + c == (a + [v]) + b + c
  {}

  lemma Readable(p: Pair, log: seq<Uuid>, past: Past, x: Uuid, o: Outbox, d: Desk, mail: seq<ClipChange>)
    requires Fit(p) && LogOk(p, log) && DeskOk(p, log, past, x, o, d, mail)
    ensures |Flow(p.codec, o, d)| <= 2
    ensures forall v :: v in Flow(p.codec, o, d) ==> !v.Files? && Faithful(v)
  {
    hide Pending, Up, Flow, FateOk, LogOk;
    FateFlow(p, log, past, x, d.os, Pending(d.os, d.trackers), Up(p.codec, mail, d), Flow(p.codec, o, d));
  }

  lemma FrameOk(p: Pair, log: seq<Uuid>, past: Past, x: Uuid, o: Outbox, d: Desk, mail: seq<ClipChange>)
    requires Fit(p) && LogOk(p, log) && DeskOk(p, log, past, x, o, d, mail) && |d.downlink| > 0
    ensures DeskOk(p, log, past, x, o, OnFrame(p.codec, d), mail)
  {
    Readable(p, log, past, x, o, d, mail);
    ReadAllSplits(p.codec, d.downlink, d.downlink[0]);
    var v := Read(p.codec, d.downlink[0]);
    var d' := OnFrame(p.codec, d);
    assert o.open;
    hide DeskOk, ReadAll, LogOk, Fit, Faithful;
    Regroup(d.apply, ReadAll(p.codec, d.downlink[1..]), v, ReadAll(p.codec, o.clips));
    assert Flow(p.codec, o, d)[|d.apply|] == v;
    assert d'.apply == d.apply + [v];
    hide Read, FrameToChange;
    DownOk(p, log, past, x, o, d, mail, o, d');
  }

  lemma FlowApplied(codec: Codec, o: Outbox, d: Desk, d': Desk)
    requires |d.apply| > 0 && d'.apply == d.apply[1..] && d'.downlink == d.downlink
    ensures |Flow(codec, o, d)| > 0 && Flow(codec, o, d)[0] == d.apply[0]
    ensures Flow(codec, o, d') == Flow(codec, o, d)[1..]
  {
    hide ReadAll;
  }

  lemma ApplyOk(p: Pair, log: seq<Uuid>, past: Past, x: Uuid, o: Outbox, d: Desk, mail: seq<ClipChange>)
    requires Fit(p) && LogOk(p, log) && DeskOk(p, log, past, x, o, d, mail) && |d.apply| > 0
    ensures DeskOk(p, log, AfterApply(past), x, o, OnApply(d, true), mail)
  {
    Readable(p, log, past, x, o, d, mail);
    var v, d' := d.apply[0], OnApply(d, true);
    FlowApplied(p.codec, o, d, d');
    assert v in Flow(p.codec, o, d);
    AppliedIsSilentIff(d.os, d.trackers, v);
    assert d'.os == Holding(v) && Pending(d'.os, d'.trackers) == [] by { hide Pending, Holding, Faithful, Flow; }
    assert Up(p.codec, mail, d') == Up(p.codec, mail, d) by { hide ReadAll, OnApply, DeskOk; SameUp(p.codec, mail, d, d'); }
    hide Pending, Holding, FateOk, Up, Flow, Faithful, Fit, LogOk, OnApply;
    FateApplied(p, log, past, x, d.os, Pending(d.os, d.trackers), Up(p.codec, mail, d), Flow(p.codec, o, d));
  }

  lemma SameUp(codec: Codec, mail: seq<ClipChange>, d: Desk, d': Desk)
    requires d'.uplink == d.uplink && d'.outbound == d.outbound && d'.events == d.events
    ensures Up(codec, mail, d') == Up(codec, mail, d)
  {}

  lemma CopyOk(p: Pair, log: seq<Uuid>, past: Past, x: Uuid, o: Outbox, d: Desk, mail: seq<ClipChange>)
    requires Fit(p) && DeskOk(p, log, past, x, o, d, mail) && !past.copied && (x == p.a || x == p.b)
    requires Track(d.trackers, Value(p, x)) != d.trackers
    ensures DeskOk(p, log, past.(copied := true), x, o, OnUserCopy(d, Holding(Value(p, x))), mail)
  {
    PendingCopy(d.trackers, Value(p, x));
    FateCopied(p, log, past, x, d.os, Pending(d.os, d.trackers), Up(p.codec, mail, d), Flow(p.codec, o, d));
    hide Pending, Holding, FateOk, Track, Filled, ReadAll;
  }

  // The hub's step.

  lemma PublisherOk(p: Pair, log: seq<Uuid>, past: Past, x: Uuid, o: Outbox, d: Desk, mail: seq<ClipChange>, d': Desk)
    requires DeskOk(p, log, past, x, o, d, mail) && |mail| > 0
    requires d' == d.(published := d'.published)
    ensures mail[0] == Value(p, x) && x !in log && (x == p.a || x == p.b)
    ensures DeskOk(p, log + [x], past, x, o, d', mail[1..])
  {
    OnTheWayUp(p, log, past, x, o, d, mail);
    FatePublished(p, log, past, x, d.os, Pending(d.os, d.trackers), Up(p.codec, mail, d), Flow(p.codec, o, d));
    UpLength(p.codec, mail[1..], d');
    hide Pending, FateOk, Up, ReadAll;
    assert Up(p.codec, mail[1..], d') == [];
  }

  lemma ReceiverOk(p: Pair, log: seq<Uuid>, past: Past, x: Uuid, y: Uuid, o: Outbox, d: Desk, mail: seq<ClipChange>, clip: ClipFrame)
    requires Fit(p) && LogOk(p, log) && DeskOk(p, log, past, y, o, d, mail)
    requires (x == p.a || x == p.b) && x !in log && y != x && Read(p.codec, clip) == Value(p, x)
    ensures DeskOk(p, log + [x], past, y, OfferClip(o, clip), d, mail)
  {
    FateReceived(p, log, past, x, y, d.os, Pending(d.os, d.trackers), Up(p.codec, mail, d), Flow(p.codec, o, d));
    Readable(p, log, past, y, o, d, mail);
    ReadAllSplits(p.codec, o.clips, clip);
    assert o.open && |o.clips| <= |Flow(p.codec, o, d)|;
    hide Pending, FateOk, Up, ReadAll, Read, LogOk, Fit, Faithful;
    assert d.apply + ReadAll(p.codec, d.downlink) + (ReadAll(p.codec, o.clips) + [Value(p, x)])
        == Flow(p.codec, o, d) + [Value(p, x)];
  }

  // Whole networks.

  ghost predicate Found(n: Net, n': Net, x: Uuid) {
    x in n.desks && x in n'.desks && n'.desks[x].events != n.desks[x].events
  }

  ghost function Later(past: Past, n: Net, step: Step, n': Net, x: Uuid): Past {
    if step.UserCopy? && step.id == x then past.(copied := true)
    else if step.PollTick? && step.id == x && Found(n, n', x) then past.(polled := true)
    else if step.ApplyNext? && step.id == x && !past.polled then past.(overtaken := true)
    else past
  }

  ghost function AllLater(pasts: map<Uuid, Past>, n: Net, step: Step, n': Net): map<Uuid, Past> {
    map x | x in pasts :: Later(pasts[x], n, step, n', x)
  }

  lemma ConnectedKept(n: Net, n': Net, id: Uuid, o: Outbox)
    requires Connected(n) && id in n.desks && id in n'.desks && o.open
    requires n' == n.(inbox := n'.inbox, desks := n.desks[id := n'.desks[id]],
                      hub := n.hub.(outboxes := n.hub.outboxes[id := o]))
    ensures Connected(n') && n'.desks.Keys == n.desks.Keys && id in n.hub.outboxes
  {
    assert n'.desks.Keys == n.desks.Keys && n'.hub.outboxes.Keys == n.hub.outboxes.Keys;
  }

  lemma OtherAt(p: Pair, log: seq<Uuid>, pasts: map<Uuid, Past>, pasts': map<Uuid, Past>, n: Net, n': Net, x: Uuid)
    requires DeskAt(p, log, pasts, n, x) && x in n'.desks && x in n'.hub.outboxes && x in pasts'
    requires n'.desks[x] == n.desks[x] && n'.hub.outboxes[x] == n.hub.outboxes[x] && pasts'[x] == pasts[x]
    requires Mail(p.codec, n'.inbox, x) == Mail(p.codec, n.inbox, x)
    ensures DeskAt(p, log, pasts', n', x)
  {
    hide DeskOk, Mail;
  }

  /** A step of one desktop, with its channels and its mail. */
  lemma LocalStep(p: Pair, log: seq<Uuid>, pasts: map<Uuid, Past>, pasts': map<Uuid, Past>, n: Net, n': Net, id: Uuid, o: Outbox)
    requires Inv(p, log, pasts, n) && id in n.desks && id in n'.desks
    requires n' == n.(inbox := n'.inbox, desks := n.desks[id := n'.desks[id]],
                      hub := n.hub.(outboxes := n.hub.outboxes[id := o]))
    requires FromThePair(p, n'.inbox)
    requires forall y :: y != id ==> Mail(p.codec, n'.inbox, y) == Mail(p.codec, n.inbox, y)
    requires pasts'.Keys == pasts.Keys && forall y :: y in pasts && y != id ==> pasts'[y] == pasts[y]
    requires id in pasts' && DeskOk(p, log, pasts'[id], id, o, n'.desks[id], Mail(p.codec, n'.inbox, id))
    ensures Inv(p, log, pasts', n')
  {
    assert o.open;
    ConnectedKept(n, n', id, o);
    assert DeskAt(p, log, pasts', n', id);
    hide Mail, LogOk, FromThePair, CachedOk, DeskOk, Connected, DeskAt;
    forall x | x in n'.desks ensures DeskAt(p, log, pasts', n', x) {
      if x != id {
        assert DeskAt(p, log, pasts, n, x);
        HasChannels(n, x);
        OtherAt(p, log, pasts, pasts', n, n', x);
      }
    }
  }

  lemma HasChannels(n: Net, x: Uuid)
    requires Connected(n) && x in n.desks
    ensures x in n.hub.outboxes
  {}

  lemma LaterElsewhere(pasts: map<Uuid, Past>, n: Net, step: Step, n': Net, id: Uuid)
    requires id in pasts && !step.HubHandles? && !step.Membership? && step.id == id
    ensures AllLater(pasts, n, step, n').Keys == pasts.Keys
    ensures forall y :: y in pasts && y != id ==> AllLater(pasts, n, step, n')[y] == pasts[y]
    ensures AllLater(pasts, n, step, n')[id] == Later(pasts[id], n, step, n', id)
  {}

  lemma SameOutbox(n: Net, id: Uuid)
    requires id in n.hub.outboxes
    ensures n.hub.(outboxes := n.hub.outboxes[id := n.hub.outboxes[id]]) == n.hub
  {
    assert n.hub.outboxes[id := n.hub.outboxes[id]] == n.hub.outboxes;
  }

  /** A copy that the desktop's tracker does not hold, the first at that desktop. */
  ghost predicate IsCopy(p: Pair, pasts: map<Uuid, Past>, n: Net, step: Step) {
    && step.UserCopy? && (step.id == p.a || step.id == p.b) && step.os == Holding(Value(p, step.id))
    && step.id in n.desks && step.id in pasts && !pasts[step.id].copied
    && Track(n.desks[step.id].trackers, Value(p, step.id)) != n.desks[step.id].trackers
  }

  /** A step that touches nothing but its desktop. */
  lemma FinishLocal(p: Pair, log: seq<Uuid>, pasts: map<Uuid, Past>, n: Net, step: Step, past: Past, d: Desk)
    requires Inv(p, log, pasts, n) && Enabled(n, step) && !step.HubHandles? && !step.Membership? && step.id in n.desks
    requires Next(p.codec, n, step) == Update(n, step.id, d)
    requires step.id in pasts && step.id in n.hub.outboxes
    requires Later(pasts[step.id], n, step, Next(p.codec, n, step), step.id) == past
    requires DeskOk(p, log, past, step.id, n.hub.outboxes[step.id], d, Mail(p.codec, n.inbox, step.id))
    ensures var n' := Next(p.codec, n, step); Inv(p, log, AllLater(pasts, n, step, n'), n')
  {
    var id, n' := step.id, Next(p.codec, n, step);
    hide Next, Enabled, DeskOk, Mail, LogOk, CachedOk, Connected, Later;
    LaterElsewhere(pasts, n, step, n', id);
    SameOutbox(n, id);
    hide AllLater;
    LocalStep(p, log, pasts, AllLater(pasts, n, step, n'), n, n', id, n.hub.outboxes[id]);
  }

  lemma AtDesk(p: Pair, log: seq<Uuid>, pasts: map<Uuid, Past>, n: Net, id: Uuid)
    requires Inv(p, log, pasts, n) && id in n.desks
    ensures id in pasts && id in n.hub.outboxes && LogOk(p, log)
    ensures DeskOk(p, log, pasts[id], id, n.hub.outboxes[id], n.desks[id], Mail(p.codec, n.inbox, id))
  {
    hide DeskOk, Connected, LogOk, FromThePair, CachedOk, Mail;
    assert DeskAt(p, log, pasts, n, id);
  }

  lemma CopyInv(p: Pair, log: seq<Uuid>, pasts: map<Uuid, Past>, n: Net, step: Step)
    requires Fit(p) && Inv(p, log, pasts, n) && Enabled(n, step) && IsCopy(p, pasts, n, step)
    ensures var n' := Next(p.codec, n, step); Inv(p, log, AllLater(pasts, n, step, n'), n')
  {
    var id, d := step.id, n.desks[step.id];
    AtDesk(p, log, pasts, n, id);
    CopyOk(p, log, pasts[id], id, n.hub.outboxes[id], d, Mail(p.codec, n.inbox, id));
    hide Inv, DeskOk, Mail, Holding, Track, Fit, OnUserCopy, AllLater;
    FinishLocal(p, log, pasts, n, step, pasts[id].(copied := true), OnUserCopy(d, step.os));
  }

  function AfterPoll(past: Past, d: Desk, d': Desk): Past {
    if d'.events == d.events then past else past.(polled := true)
  }

  lemma PollFrame(codec: Codec, n: Net, step: Step, past: Past)
    requires Enabled(n, step) && step.PollTick?
    ensures step.id in n.desks
    ensures var d := n.desks[step.id];
            var n' := Next(codec, n, step);
            && n' == Update(n, step.id, OnPoll(d, step.faults))
            && Later(past, n, step, n', step.id) == AfterPoll(past, d, OnPoll(d, step.faults))
  {
    hide OnPoll;
  }

  lemma PollInv(p: Pair, log: seq<Uuid>, pasts: map<Uuid, Past>, n: Net, step: Step)
    requires Fit(p) && Inv(p, log, pasts, n) && Enabled(n, step) && step.PollTick?
    ensures var n' := Next(p.codec, n, step); Inv(p, log, AllLater(pasts, n, step, n'), n')
  {
    var id := step.id;
    AtDesk(p, log, pasts, n, id);
    PollFrame(p.codec, n, step, pasts[id]);
    var d := n.desks[id];
    PollOk(p, log, pasts[id], id, n.hub.outboxes[id], d, Mail(p.codec, n.inbox, id), step.faults);
    hide Inv, DeskOk, Mail, Fit, OnPoll, AllLater, LogOk, Next, Later, Enabled;
    FinishLocal(p, log, pasts, n, step, AfterPoll(pasts[id], d, OnPoll(d, step.faults)), OnPoll(d, step.faults));
  }

  function AfterApply(past: Past): Past {
    if past.polled then past else past.(overtaken := true)
  }

  lemma ApplyFrame(codec: Codec, n: Net, step: Step, past: Past)
    requires Enabled(n, step) && step.ApplyNext? && step.ok
    ensures step.id in n.desks && |n.desks[step.id].apply| > 0
    ensures var n' := Next(codec, n, step);
            n' == Update(n, step.id, OnApply(n.desks[step.id], true)) && Later(past, n, step, n', step.id) == AfterApply(past)
  {
    hide OnApply;
  }

  lemma ApplyInv(p: Pair, log: seq<Uuid>, pasts: map<Uuid, Past>, n: Net, step: Step)
    requires Fit(p) && Inv(p, log, pasts, n) && Enabled(n, step) && step.ApplyNext? && step.ok
    ensures var n' := Next(p.codec, n, step); Inv(p, log, AllLater(pasts, n, step, n'), n')
  {
    var id := step.id;
    AtDesk(p, log, pasts, n, id);
    ApplyFrame(p.codec, n, step, pasts[id]);
    ApplyOk(p, log, pasts[id], id, n.hub.outboxes[id], n.desks[id], Mail(p.codec, n.inbox, id));
    hide Inv, DeskOk, Mail, Fit, OnApply, AllLater, LogOk, Next, Later, Enabled;
    FinishLocal(p, log, pasts, n, step, AfterApply(pasts[id]), OnApply(n.desks[id], true));
  }

  lemma MoveInv(p: Pair, log: seq<Uuid>, pasts: map<Uuid, Past>, n: Net, step: Step)
    requires Fit(p) && Inv(p, log, pasts, n) && Enabled(n, step)
    requires step.TakeEvent? || (step.Send? && step.ok) || step.TakeFrame?
    ensures var n' := Next(p.codec, n, step); Inv(p, log, AllLater(pasts, n, step, n'), n')
  {
    var id, d := step.id, n.desks[step.id];
    AtDesk(p, log, pasts, n, id);
    var past, o, mail := pasts[id], n.hub.outboxes[id], Mail(p.codec, n.inbox, id);
    hide Inv, DeskOk, Mail, Fit, OnEvent, OnSend, OnFrame, AllLater, LogOk;
    if step.TakeEvent? {
      EventOk(p, log, past, id, o, d, mail, step.frameId, step.ts);
      FinishLocal(p, log, pasts, n, step, past, OnEvent(p.codec, d, step.frameId, step.ts));
    } else if step.Send? {
      SendOk(p, log, past, id, o, d, mail);
      FinishLocal(p, log, pasts, n, step, past, OnSend(d, true));
    } else {
      FrameOk(p, log, past, id, o, d, mail);
      FinishLocal(p, log, pasts, n, step, past, OnFrame(p.codec, d));
    }
  }

  lemma DeliverInv(p: Pair, log: seq<Uuid>, pasts: map<Uuid, Past>, n: Net, id: Uuid)
    requires Inv(p, log, pasts, n) && Enabled(n, Deliver(id))
    ensures var n' := Next(p.codec, n, Deliver(id)); Inv(p, log, AllLater(pasts, n, Deliver(id), n'), n')
  {
    ReceiverMoves(One(p, id), n, id);
    hide Next, DeskOk, Mail, LogOk, FromThePair, CachedOk, Connected;
    assert DeskAt(p, log, pasts, n, id);
    var n', o, d := Next(p.codec, n, Deliver(id)), n.hub.outboxes[id], n.desks[id];
    DeliverOk(p, log, pasts[id], id, o, d, Mail(p.codec, n.inbox, id));
    LaterElsewhere(pasts, n, Deliver(id), n', id);
    hide AllLater, Enabled;
    LocalStep(p, log, pasts, AllLater(pasts, n, Deliver(id), n'), n, n', id, Delivered(o, d).0);
  }

  lemma ReadsFrame(codec: Codec, n: Net, id: Uuid)
    requires Enabled(n, HubReads(id)) && n.desks[id].uplink[0].Validates()
    ensures var d := n.desks[id];
            Next(codec, n, HubReads(id)) ==
              n.(inbox := n.inbox + [Publish(id, d.uplink[0].(from := None))],
                 desks := n.desks[id := d.(uplink := d.uplink[1..])])
  {}

  lemma PairGrows(p: Pair, inbox: seq<Message>, msg: Message)
    requires FromThePair(p, inbox) && msg.Publish? && (msg.from == p.a || msg.from == p.b)
    ensures FromThePair(p, inbox + [msg])
  {}

  lemma ReadsInv(p: Pair, log: seq<Uuid>, pasts: map<Uuid, Past>, n: Net, id: Uuid)
    requires Fit(p) && Inv(p, log, pasts, n) && Enabled(n, HubReads(id))
    ensures var n' := Next(p.codec, n, HubReads(id)); Inv(p, log, AllLater(pasts, n, HubReads(id), n'), n')
  {
    hide Next, DeskOk, Mail, LogOk, FromThePair, CachedOk, Connected, Fit, Read;
    assert DeskAt(p, log, pasts, n, id);
    var n', o, d := Next(p.codec, n, HubReads(id)), n.hub.outboxes[id], n.desks[id];
    ReadOk(p, log, pasts[id], id, o, d, Mail(p.codec, n.inbox, id));
    ReadsFrame(p.codec, n, id);
    var msg := Publish(id, d.uplink[0].(from := None));
    PairGrows(p, n.inbox, msg);
    forall y ensures Mail(p.codec, n'.inbox, y) == Mail(p.codec, n.inbox, y) + (if y == id then [Read(p.codec, msg.clip)] else []) {
      MailAppend(p.codec, n.inbox, msg, y);
    }
    SameOutbox(n, id);
    LaterElsewhere(pasts, n, HubReads(id), n', id);
    hide AllLater, Enabled;
    LocalStep(p, log, pasts, AllLater(pasts, n, HubReads(id), n'), n, n', id, o);
  }

  /** What the hub's step does when desktop `x` publishes. */
  ghost predicate HubMoved(n: Net, n': Net, x: Uuid, stamped: ClipFrame) {
    && Connected(n') && |n.inbox| > 0 && n'.inbox == n.inbox[1..] && n'.desks.Keys == n.desks.Keys
    && n'.hub.lastClip == Some(stamped)
    && forall y :: y in n.desks ==>
         && y in n.hub.outboxes && y in n'.hub.outboxes
         && n'.desks[y] == n.desks[y].(published := n'.desks[y].published)
         && (y != x ==> n'.desks[y] == n.desks[y])
         && n'.hub.outboxes[y] == if y == x then n.hub.outboxes[y] else OfferClip(n.hub.outboxes[y], stamped)
  }

  lemma HubFrame(p: Pair, n: Net)
    requires Connected(n) && FromThePair(p, n.inbox) && |n.inbox| > 0 && p.a in n.desks && p.b in n.desks
    ensures n.inbox[0].Publish? && (n.inbox[0].from == p.a || n.inbox[0].from == p.b) && Enabled(n, HubHandles)
    ensures HubMoved(n, Next(p.codec, n, HubHandles), n.inbox[0].from, Stamped(n.inbox[0].clip, Some(n.inbox[0].from)))
  {
    assert n.inbox[0] in n.inbox;
  }

  lemma MailHead(p: Pair, inbox: seq<Message>, y: Uuid)
    requires |inbox| > 0 && inbox[0].Publish?
    ensures y != inbox[0].from ==> Mail(p.codec, inbox, y) == Mail(p.codec, inbox[1..], y)
    ensures y == inbox[0].from ==>
      Mail(p.codec, inbox, y) == [Read(p.codec, inbox[0].clip)] + Mail(p.codec, inbox[1..], y)
  {
    hide Read;
  }

  lemma PairShrinks(p: Pair, inbox: seq<Message>)
    requires FromThePair(p, inbox) && |inbox| > 0
    ensures FromThePair(p, inbox[1..])
  {}

  lemma HubKeepsPasts(pasts: map<Uuid, Past>, n: Net, n': Net)
    ensures AllLater(pasts, n, HubHandles, n') == pasts
  {}

  lemma CacheMoves(p: Pair, log: seq<Uuid>, x: Uuid, clip: ClipFrame)
    requires Read(p.codec, clip) == Value(p, x)
    ensures CachedOk(p, log + [x], Some(clip))
  {}

  /** The head of the inbox is its sender's copy, not published yet. */
  lemma HeadIsCopy(p: Pair, log: seq<Uuid>, pasts: map<Uuid, Past>, n: Net)
    requires |n.inbox| > 0 && n.inbox[0].Publish? && DeskAt(p, log, pasts, n, n.inbox[0].from)
    ensures n.inbox[0].from !in log && Read(p.codec, n.inbox[0].clip) == Value(p, n.inbox[0].from)
  {
    hide DeskOk, Mail, Read;
    var x := n.inbox[0].from;
    MailHead(p, n.inbox, x);
    OnTheWayUp(p, log, pasts[x], x, n.hub.outboxes[x], n.desks[x], Mail(p.codec, n.inbox, x));
  }

  lemma HubInv(p: Pair, log: seq<Uuid>, pasts: map<Uuid, Past>, n: Net)
    requires Fit(p) && Inv(p, log, pasts, n) && |n.inbox| > 0
    ensures n.inbox[0].Publish? && Enabled(n, HubHandles)
    ensures var n' := Next(p.codec, n, HubHandles); Inv(p, log + [n.inbox[0].from], AllLater(pasts, n, HubHandles, n'), n')
  {
    HubFrame(p, n);
    var n', msg := Next(p.codec, n, HubHandles), n.inbox[0];
    hide Next, Enabled, Fit, Inv, AllLater, HubMoved;
    HubKeepsPasts(pasts, n, n');
    HubDesks(p, log, pasts, n, n', msg.from);
  }

  lemma HubDesks(p: Pair, log: seq<Uuid>, pasts: map<Uuid, Past>, n: Net, n': Net, x: Uuid)
    requires Fit(p) && Inv(p, log, pasts, n) && |n.inbox| > 0 && n.inbox[0].Publish?
    requires n.inbox[0].from == x && (x == p.a || x == p.b) && HubMoved(n, n', x, Stamped(n.inbox[0].clip, Some(x)))
    ensures Inv(p, log + [x], pasts, n')
  {
    hide Read, OfferClip, Fit, LogOk, FromThePair, DeskAt, CachedOk, Connected;
    var stamped := Stamped(n.inbox[0].clip, Some(x));
    assert DeskAt(p, log, pasts, n, x);
    HeadIsCopy(p, log, pasts, n);
    ReadIgnoresOrigin(p.codec, n.inbox[0].clip, Some(x));
    LogGrows(p, log, x);
    PairShrinks(p, n.inbox);
    CacheMoves(p, log, x, stamped);
    forall y | y in n'.desks ensures DeskAt(p, log + [x], pasts, n', y) {
      assert DeskAt(p, log, pasts, n, y);
      DeskAfterHub(p, log, pasts, n, n', x, y, stamped);
    }
  }

  lemma DeskAfterHub(p: Pair, log: seq<Uuid>, pasts: map<Uuid, Past>, n: Net, n': Net, x: Uuid, y: Uuid, stamped: ClipFrame)
    requires Fit(p) && LogOk(p, log) && DeskAt(p, log, pasts, n, y)
    requires |n.inbox| > 0 && n.inbox[0].Publish? && n.inbox[0].from == x && n'.inbox == n.inbox[1..]
    requires (x == p.a || x == p.b) && x !in log && Read(p.codec, stamped) == Value(p, x)
    requires y in n'.desks && y in n'.hub.outboxes && n'.desks[y] == n.desks[y].(published := n'.desks[y].published)
    requires n'.hub.outboxes[y] == if y == x then n.hub.outboxes[y] else OfferClip(n.hub.outboxes[y], stamped)
    requires y != x ==> n'.desks[y] == n.desks[y]
    ensures DeskAt(p, log + [x], pasts, n', y)
  {
    MailHead(p, n.inbox, y);
    hide Read, Mail, OfferClip, Fit, LogOk, DeskOk;
    if y == x {
      PublisherOk(p, log, pasts[x], x, n.hub.outboxes[x], n.desks[x], Mail(p.codec, n.inbox, x), n'.desks[x]);
      assert Mail(p.codec, n.inbox, x)[1..] == Mail(p.codec, n'.inbox, x);
    } else {
      ReceiverOk(p, log, pasts[y], x, y, n.hub.outboxes[y], n.desks[y], Mail(p.codec, n.inbox, y), stamped);
    }
  }

  lemma StepInv(p: Pair, log: seq<Uuid>, pasts: map<Uuid, Past>, n: Net, step: Step) returns (log': seq<Uuid>)
    requires Fit(p) && Inv(p, log, pasts, n) && Enabled(n, step)
    requires Undisturbed(step) || IsCopy(p, pasts, n, step)
    ensures var n' := Next(p.codec, n, step); Inv(p, log', AllLater(pasts, n, step, n'), n')
  {
    log' := log;
    assert step.HubHandles? ==> |n.inbox| > 0;
    hide Next, Enabled, Inv, Fit, AllLater, Track, Holding;
    if step.HubHandles? {
      HubInv(p, log, pasts, n);
      log' := log + [n.inbox[0].from];
    } else if step.HubReads? {
      ReadsInv(p, log, pasts, n, step.id);
    } else if step.Deliver? {
      DeliverInv(p, log, pasts, n, step.id);
    } else if step.UserCopy? {
      CopyInv(p, log, pasts, n, step);
    } else if step.PollTick? {
      PollInv(p, log, pasts, n, step);
    } else if step.ApplyNext? {
      ApplyInv(p, log, pasts, n, step);
    } else {
      MoveInv(p, log, pasts, n, step);
    }
  }

  // Whole runs.

  /** Before the copies: connected desktops with empty queues and nothing pending. */
  ghost predicate Idle(p: Pair, n: Net) {
    && Connected(n) && p.a in n.desks && p.b in n.desks && n.inbox == []
    && forall id :: id in n.desks ==> NothingInbound(n, id) && Settled(n.desks[id])
  }

  /** A run in which steps `i` and `j` are the two copies, each of something its desktop's tracker does
      not hold, and nothing else disturbs. */
  ghost predicate TwoCopyRun(p: Pair, nets: seq<Net>, steps: seq<Step>, i: nat, j: nat) {
    && IsRun(p.codec, nets, steps) && Idle(p, nets[0]) && i < |steps| && j < |steps| && i != j
    && steps[i] == UserCopy(p.a, Holding(p.va)) && steps[j] == UserCopy(p.b, Holding(p.vb))
    && (forall k :: 0 <= k < |steps| && k != i && k != j ==> Undisturbed(steps[k]))
    && p.a in nets[i].desks && Track(nets[i].desks[p.a].trackers, p.va) != nets[i].desks[p.a].trackers
    && p.b in nets[j].desks && Track(nets[j].desks[p.b].trackers, p.vb) != nets[j].desks[p.b].trackers
  }

  /** A poll of this desktop, at this step, finds a change. */
  ghost predicate FindsCopy(nets: seq<Net>, steps: seq<Step>, x: Uuid, k: nat)
    requires |nets| == |steps| + 1 && k < |steps|
  {
    steps[k].PollTick? && steps[k].id == x && Found(nets[k], nets[k + 1], x)
  }

  /** This step applies a clip at this desktop before any poll of it has found a change. */
  ghost predicate AppliesEarly(nets: seq<Net>, steps: seq<Step>, x: Uuid, k: nat)
    requires |nets| == |steps| + 1 && k < |steps|
  {
    steps[k].ApplyNext? && steps[k].id == x && forall l :: 0 <= l < k ==> !FindsCopy(nets, steps, x, l)
  }

  ghost predicate Overtaken(nets: seq<Net>, steps: seq<Step>, x: Uuid)
    requires |nets| == |steps| + 1
  {
    exists k :: 0 <= k < |steps| && AppliesEarly(nets, steps, x, k)
  }

  ghost function PastOf(nets: seq<Net>, steps: seq<Step>, x: Uuid, i: nat): Past
    requires |nets| == |steps| + 1 && i <= |steps|
  {
    if i == 0 then Past(false, false, false)
    else Later(PastOf(nets, steps, x, i - 1), nets[i - 1], steps[i - 1], nets[i], x)
  }

  ghost function PastsOf(nets: seq<Net>, steps: seq<Step>, i: nat): map<Uuid, Past>
    requires |nets| == |steps| + 1 && i <= |steps|
  {
    map x | x in nets[0].desks :: PastOf(nets, steps, x, i)
  }

  ghost predicate CopiesAt(steps: seq<Step>, x: Uuid, k: nat)
    requires k < |steps|
  {
    steps[k].UserCopy? && steps[k].id == x
  }

  /** The record kept along a run says what happened in it. */
  lemma {:induction false} PastIs(nets: seq<Net>, steps: seq<Step>, x: Uuid, i: nat)
    requires |nets| == |steps| + 1 && i <= |steps|
    ensures var past := PastOf(nets, steps, x, i);
            && (past.polled <==> exists k :: 0 <= k < i && FindsCopy(nets, steps, x, k))
            && (past.overtaken <==> exists k :: 0 <= k < i && AppliesEarly(nets, steps, x, k))
            && (past.copied <==> exists k :: 0 <= k < i && CopiesAt(steps, x, k))
  {
    if i > 0 {
      PastIs(nets, steps, x, i - 1);
      PastStep(nets, steps, x, i);
      hide PastOf, FindsCopy, AppliesEarly, CopiesAt;
    }
  }

  lemma PastStep(nets: seq<Net>, steps: seq<Step>, x: Uuid, i: nat)
    requires |nets| == |steps| + 1 && 0 < i <= |steps|
    requires PastOf(nets, steps, x, i - 1).polled <==> exists k :: 0 <= k < i - 1 && FindsCopy(nets, steps, x, k)
    ensures var before, past := PastOf(nets, steps, x, i - 1), PastOf(nets, steps, x, i);
            && (past.polled <==> before.polled || FindsCopy(nets, steps, x, i - 1))
            && (past.overtaken <==> before.overtaken || AppliesEarly(nets, steps, x, i - 1))
            && (past.copied <==> before.copied || CopiesAt(steps, x, i - 1))
  {
    hide Found;
  }

  lemma IdleInv(p: Pair, n: Net)
    requires Fit(p) && Idle(p, n)
    ensures Inv(p, [], map x | x in n.desks :: Past(false, false, false), n)
  {
    var pasts := map x | x in n.desks :: Past(false, false, false);
    hide Pending, Holding, DeskOk, Fit;
    forall x | x in n.desks ensures DeskAt(p, [], pasts, n, x) {
      assert NothingInbound(n, x) && Settled(n.desks[x]);
      IdleDesk(p, x, n.hub.outboxes[x], n.desks[x], Mail(p.codec, n.inbox, x));
    }
  }

  lemma IdleDesk(p: Pair, x: Uuid, o: Outbox, d: Desk, mail: seq<ClipChange>)
    requires o.open && o.clips == [] && d.downlink == [] && d.apply == [] && Settled(d) && mail == []
    ensures DeskOk(p, [], Past(false, false, false), x, o, d, mail)
  {
    UpLength(p.codec, mail, d);
    assert Flow(p.codec, o, d) == [];
    hide Pending, Holding, Read, Up, Flow;
  }

  lemma {:induction false} StoryOf(p: Pair, nets: seq<Net>, steps: seq<Step>, i: nat, j: nat, k: nat) returns (log: seq<Uuid>)
    requires Fit(p) && TwoCopyRun(p, nets, steps, i, j) && k <= |steps|
    ensures nets[k].desks.Keys == nets[0].desks.Keys
    ensures Inv(p, log, PastsOf(nets, steps, k), nets[k])
  {
    hide Next, Enabled, Inv, Undisturbed, Holding, Track, Idle;
    if k == 0 {
      IdleInv(p, nets[0]);
      log := [];
      assert PastsOf(nets, steps, 0) == map x | x in nets[0].desks :: Past(false, false, false);
    } else {
      log := StoryOf(p, nets, steps, i, j, k - 1);
      var n, step := nets[k - 1], steps[k - 1];
      var pasts := PastsOf(nets, steps, k - 1);
      if k - 1 == i || k - 1 == j {
        PastIs(nets, steps, step.id, k - 1);
        assert IsCopy(p, pasts, n, step) by { OneCopyEach(p, nets, steps, i, j, k - 1); }
      }
      log := StepInv(p, log, pasts, n, step);
      assert PastsOf(nets, steps, k) == AllLater(pasts, n, step, nets[k]);
      assert nets[k].desks.Keys == PastsOf(nets, steps, k).Keys by { InvKeys(p, log, PastsOf(nets, steps, k), nets[k]); }
    }
  }

  lemma InvKeys(p: Pair, log: seq<Uuid>, pasts: map<Uuid, Past>, n: Net)
    requires Inv(p, log, pasts, n)
    ensures pasts.Keys == n.desks.Keys
  {}

  lemma OneCopyEach(p: Pair, nets: seq<Net>, steps: seq<Step>, i: nat, j: nat, k: nat)
    requires Fit(p) && TwoCopyRun(p, nets, steps, i, j) && (k == i || k == j)
    ensures steps[k].UserCopy? && forall l :: 0 <= l < k ==> !CopiesAt(steps, steps[k].id, l)
  {
    forall l | 0 <= l < k ensures !CopiesAt(steps, steps[k].id, l) {
      assert l != i && l != j ==> Undisturbed(steps[l]);
    }
  }

  // The end.

  lemma HoldingInjective(v: ClipChange, w: ClipChange)
    requires !v.Files? && !w.Files? && Holding(v) == Holding(w)
    ensures v == w
  {}

  /** What a desktop with empty queues holds. */
  lemma DrainedFate(p: Pair, log: seq<Uuid>, past: Past, x: Uuid, os: OsClipboard)
    requires FateOk(p, log, past, x, os, [], [], [])
    ensures var due := Due(p, log, x);
            && (past.polled <==> x in log)
            && (x in log && past.overtaken ==> log[0] != x && os == Holding(Value(p, x)))
            && (|due| > 0 && !(x in log && past.overtaken) ==> os == Holding(due[|due| - 1]))
            && (past.copied && !past.polled ==> past.overtaken)
            && (past.overtaken ==> |due| > 0)
  {
    hide Holding, Due;
  }

  lemma DrainedDesk(p: Pair, log: seq<Uuid>, pasts: map<Uuid, Past>, n: Net, x: Uuid)
    requires Fit(p) && Inv(p, log, pasts, n) && Drained(One(p, p.a), n) && Drained(One(p, p.b), n) && x in n.desks
    ensures x in pasts && FateOk(p, log, pasts[x], x, n.desks[x].os, [], [], [])
  {
    hide Holding, Read, Due, Pending, Fit, Connected, LogOk, CachedOk;
    assert DeskAt(p, log, pasts, n, x);
    var d, o := n.desks[x], n.hub.outboxes[x];
    assert Mail(p.codec, n.inbox, x) == [];
    assert Up(p.codec, [], d) == [] && Flow(p.codec, o, d) == [];
    if x != p.a && x != p.b {
      Bystander(p, log, pasts[x], x, d.os, Pending(d.os, d.trackers));
    }
  }

  lemma Bystander(p: Pair, log: seq<Uuid>, past: Past, x: Uuid, os: OsClipboard, pending: seq<ClipChange>)
    requires FateOk(p, log, past, x, os, pending, [], []) && x != p.a && x != p.b
    ensures pending == []
  {
    hide Holding, Due;
  }

  /** What everybody holds in the end, from the two desktops' pasts. */
  lemma Outcome(p: Pair, log: seq<Uuid>, pa: Past, pb: Past, osA: OsClipboard, osB: OsClipboard)
    requires Fit(p) && LogOk(p, log) && pa.copied && pb.copied
    requires FateOk(p, log, pa, p.a, osA, [], [], []) && FateOk(p, log, pb, p.b, osB, [], [], [])
    ensures |log| > 0 && !(pa.overtaken && pb.overtaken)
    ensures !pa.overtaken && !pb.overtaken ==> osA == Holding(p.vb) && osB == Holding(p.va)
    ensures pa.overtaken || pb.overtaken ==> osA == osB == Holding(Value(p, log[|log| - 1]))
  {
    DrainedFate(p, log, pa, p.a, osA);
    DrainedFate(p, log, pb, p.b, osB);
    DueFacts(p, log, p.a);
    DueFacts(p, log, p.b);
    LogShapes(p, log);
    hide Holding, FateOk, Due, Travels, LogOk;
  }

  lemma LogShapes(p: Pair, log: seq<Uuid>)
    requires LogOk(p, log) && p.a != p.b
    ensures |log| == 0 <==> p.a !in log && p.b !in log
    ensures |log| > 0 ==> (log[0] == p.a <==> log[0] != p.b)
    ensures |log| > 0 ==> (log[|log| - 1] == p.a <==> log[|log| - 1] != p.b)
    ensures |log| > 0 ==> (log[0] == p.a ==> p.a in log) && (log[0] == p.b ==> p.b in log)
    ensures |log| > 0 ==> (log[|log| - 1] == p.a <==> p.a in log && (p.b !in log || log[0] == p.b))
  {
    assert |log| == 1 ==> log == [log[0]];
    assert |log| == 2 ==> log == [log[0], log[1]];
  }

  lemma BystanderOutcome(p: Pair, log: seq<Uuid>, past: Past, x: Uuid, os: OsClipboard)
    requires Fit(p) && LogOk(p, log) && |log| > 0 && x != p.a && x != p.b
    requires FateOk(p, log, past, x, os, [], [], [])
    ensures os == Holding(Value(p, log[|log| - 1]))
  {
    DrainedFate(p, log, past, x, os);
    DueFacts(p, log, x);
    hide Holding, FateOk, Due, Travels;
    assert log[|log| - 1] in log;
  }

  /** Two copies. Over every interleaving of polls, sends, hub steps, deliveries and applies, once the
      queues have drained: the two desktops hold each other's copies exactly when each desktop's copy
      was polled before the other's clip was applied there; otherwise all desktops hold one of the two
      copies. In both cases every other desktop, and the hub's cached clip, have the one that was
      published last. */
  lemma CopiesSwapIff(p: Pair, nets: seq<Net>, steps: seq<Step>, i: nat, j: nat)
    requires Fit(p) && TwoCopyRun(p, nets, steps, i, j)
    requires Drained(One(p, p.a), nets[|steps|]) && Drained(One(p, p.b), nets[|steps|])
    ensures var n := nets[|steps|];
            var swap := !Overtaken(nets, steps, p.a) && !Overtaken(nets, steps, p.b);
            && n.hub.lastClip.Some? && p.a in n.desks && p.b in n.desks
            && var last := FrameToChange(p.codec, n.hub.lastClip.value);
            && (last == Ok(p.va) || last == Ok(p.vb))
            && (forall x :: x in n.desks && x != p.a && x != p.b ==> n.desks[x].os == Holding(last.value))
            && (swap ==> n.desks[p.a].os == Holding(p.vb) && n.desks[p.b].os == Holding(p.va))
            && (!swap ==> n.desks[p.a].os == n.desks[p.b].os == Holding(last.value))
            && (p.va != p.vb ==>
                  (swap <==> n.desks[p.a].os == Holding(p.vb) && n.desks[p.b].os == Holding(p.va)))
  {
    var k := |steps|;
    var log := StoryOf(p, nets, steps, i, j, k);
    BothCopied(p, nets, steps, i, j);
    PastIs(nets, steps, p.a, k);
    PastIs(nets, steps, p.b, k);
    EndsSo(p, log, PastsOf(nets, steps, k), nets[k]);
    if p.va != p.vb && Holding(p.va) == Holding(p.vb) {
      HoldingInjective(p.va, p.vb);
    }
  }

  lemma BothCopied(p: Pair, nets: seq<Net>, steps: seq<Step>, i: nat, j: nat)
    requires Fit(p) && TwoCopyRun(p, nets, steps, i, j)
    ensures PastOf(nets, steps, p.a, |steps|).copied && PastOf(nets, steps, p.b, |steps|).copied
    ensures p.a in nets[0].desks && p.b in nets[0].desks
    ensures !p.va.Files? && !p.vb.Files?
  {
    PastIs(nets, steps, p.a, |steps|);
    PastIs(nets, steps, p.b, |steps|);
    assert CopiesAt(steps, p.a, i) && CopiesAt(steps, p.b, j);
  }

  lemma EndsSo(p: Pair, log: seq<Uuid>, pasts: map<Uuid, Past>, n: Net)
    requires Fit(p) && Inv(p, log, pasts, n) && Drained(One(p, p.a), n) && Drained(One(p, p.b), n)
    requires p.a in pasts && p.b in pasts && pasts[p.a].copied && pasts[p.b].copied
    ensures var swap := !pasts[p.a].overtaken && !pasts[p.b].overtaken;
            && n.hub.lastClip.Some? && p.a in n.desks && p.b in n.desks
            && var last := FrameToChange(p.codec, n.hub.lastClip.value);
            && (last == Ok(p.va) || last == Ok(p.vb))
            && (forall x :: x in n.desks && x != p.a && x != p.b ==> n.desks[x].os == Holding(last.value))
            && (swap ==> n.desks[p.a].os == Holding(p.vb) && n.desks[p.b].os == Holding(p.va))
            && (!swap ==> n.desks[p.a].os == n.desks[p.b].os == Holding(last.value))
  {
    DrainedDesk(p, log, pasts, n, p.a);
    DrainedDesk(p, log, pasts, n, p.b);
    Outcome(p, log, pasts[p.a], pasts[p.b], n.desks[p.a].os, n.desks[p.b].os);
    LastIsRead(p, log, n);
    hide Holding, FrameToChange, FateOk, DeskAt, Drained, LogOk, Read, Connected, Fit;
    forall x | x in n.desks && x != p.a && x != p.b ensures n.desks[x].os == Holding(Value(p, log[|log| - 1])) {
      DrainedDesk(p, log, pasts, n, x);
      BystanderOutcome(p, log, pasts[x], x, n.desks[x].os);
    }
  }

  lemma LastIsRead(p: Pair, log: seq<Uuid>, n: Net)
    requires Fit(p) && |log| > 0 && CachedOk(p, log, n.hub.lastClip)
    ensures n.hub.lastClip.Some?
    ensures FrameToChange(p.codec, n.hub.lastClip.value) == Ok(Value(p, log[|log| - 1]))
    ensures Value(p, log[|log| - 1]) == p.va || Value(p, log[|log| - 1]) == p.vb
  {}
}
