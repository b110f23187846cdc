/** What a crash does to the messages in flight, when the handler is honest: it reports a
    pickup or a done only for a message it has read from its stdin. */
module CrashSplit {
  import opened Sections
  import opened Lifecycle
  import opened Invariants
  import opened Evolution
  import opened Disposition
  import opened Reach
  import opened Stdin

  ghost predicate Honest(s: State, t: Step) {
    t.Read? && (t.read.Pickup? || t.read.Done?) && s.sup.Reading? && s.sup.g < |s.procs| ==>
      DeliverNote(t.read.id) in s.procs[s.sup.g].stdin
  }

  ghost predicate HonestRun(c: Config, tr: seq<Step>) {
    forall k :: 0 <= k < |tr| && Exec(c, tr[..k]).Some? ==> Honest(Exec(c, tr[..k]).value, tr[k])
  }

  lemma HonestBefore(c: Config, tr: seq<Step>)
    requires HonestRun(c, tr) && tr != []
    ensures HonestRun(c, tr[..|tr| - 1])
  {
    var before := tr[..|tr| - 1];
    forall k | 0 <= k < |before| && Exec(c, before[..k]).Some?
      ensures Honest(Exec(c, before[..k]).value, before[k])
    {
      assert before[..k] == tr[..k];
    }
  }

  ghost predicate QueuedFor(s: State, g: nat, id: int) {
    g < |s.procs| && DeliverNote(id) in s.procs[g].queued
  }

  ghost predicate WrittenTo(s: State, g: nat, id: int) {
    g < |s.procs| && DeliverNote(id) in s.procs[g].stdin
  }

  /** A deliver is queued once, by a Dispatch that then returns, for the process it was
      registered against; a reclaimed message is never queued; and while its process is
      being served a requeued message was a reclaimed one. */
  ghost predicate Sending(s: State, id: int) {
    && (forall g :: QueuedFor(s, g, id) ==>
          id in s.born && s.born[id].g == g && id !in s.flights && id !in s.requeueing)
    && (id in s.requeueing ==> id !in s.flights)
    && (id in s.born && s.sup.Installing? ==> s.born[id].g < s.sup.g)
    && (id in s.born && s.sh.cur == Some(s.born[id].g) && s.called.requeues[s.born[id].tok] > 0 ==>
          id !in s.flights && !QueuedFor(s, s.born[id].g, id))
  }

  /** The mark says exactly that a pickup was read, and the handler had the deliver. */
  ghost predicate Marking(s: State, id: int) {
    && (id in s.pickups ==>
          && id in s.born && WrittenTo(s, s.born[id].g, id) && QueuedFor(s, s.born[id].g, id)
          && s.called.requeues[s.born[id].tok] == 0)
    && (id in s.sh.msgs ==> (s.sh.msgs[id].picked <==> id in s.pickups))
    && (DeathHolds(s, id) ==> (s.sup.stale[id].picked <==> id in s.pickups))
  }

  /** Notes already queued or written stay so, and a new deliver comes from its Dispatch. */
  lemma ProcQueues(c: Config, s: State, t: Step, g: nat, q: Proc, id: int)
    requires g < |s.procs| && Evolves(c, s, t, g, q)
    ensures DeliverNote(id) in s.procs[g].queued ==> DeliverNote(id) in q.queued
    ensures DeliverNote(id) in s.procs[g].stdin ==> DeliverNote(id) in q.stdin
    ensures DeliverNote(id) in q.queued ==>
              DeliverNote(id) in s.procs[g].queued || (Delivers(s, t, g) && t.call.id == id)
  {
  }

  lemma Queues(c: Config, s: State, t: Step, u: State, g: nat, id: int)
    requires Frame(c, s, t, u)
    ensures QueuedFor(s, g, id) ==> QueuedFor(u, g, id)
    ensures WrittenTo(s, g, id) ==> WrittenTo(u, g, id)
    ensures QueuedFor(u, g, id) ==>
              QueuedFor(s, g, id) || (g < |s.procs| && Delivers(s, t, g) && t.call.id == id)
  {
    if g < |s.procs| { ProcQueues(c, s, t, g, u.procs[g], id); }
  }

  lemma SupSends(c: Config, s: State, t: SupStep, id: int)
    requires Global(c, s) && Message(s, id) && Sending(s, id) && SupEnabled(s, t)
    requires t.BuryOne? ==> Message(s, t.id)
    requires Frame(c, s, Supervise(t), SupNext(s, t))
    ensures Sending(SupNext(s, t), id)
  {
    var u := SupNext(s, t);
    forall g ensures QueuedFor(u, g, id) ==> QueuedFor(s, g, id) { Queues(c, s, Supervise(t), u, g, id); }
    if id in s.born { Queues(c, s, Supervise(t), u, s.born[id].g, id); }
    match t
    case BuryOne(x) => match DeathKind(s.sup.stale[x]) { case _ => }
    case _ =>
  }

  lemma SupMarks(c: Config, s: State, t: SupStep, id: int)
    requires Global(c, s) && Message(s, id) && Sending(s, id) && Marking(s, id) && SupEnabled(s, t)
    requires t.BuryOne? ==> Message(s, t.id)
    requires Frame(c, s, Supervise(t), SupNext(s, t))
    ensures Marking(SupNext(s, t), id)
  {
    if id in s.born { Queues(c, s, Supervise(t), SupNext(s, t), s.born[id].g, id); }
    match t
    case BuryOne(x) => match DeathKind(s.sup.stale[x]) { case _ => }
    case _ =>
  }

  lemma ReadSends(c: Config, s: State, t: ReadStep, id: int)
    requires Global(c, s) && Message(s, id) && Sending(s, id) && ReadEnabled(s, t)
    requires t.Settle? ==> Message(s, s.sup.rd.id)
    requires Frame(c, s, Read(t), ReadNext(c, s, t))
    ensures Sending(ReadNext(c, s, t), id)
  {
    var u := ReadNext(c, s, t);
    forall g ensures QueuedFor(u, g, id) ==> QueuedFor(s, g, id) { Queues(c, s, Read(t), u, g, id); }
    if id in s.born { Queues(c, s, Read(t), u, s.born[id].g, id); }
    match t
    case Pickup(x) => if x in s.sh.msgs {}
    case Done(x, _) => if x in s.sh.msgs {}
    case Settle => if s.sup.rd.ok {}
    case _ =>
  }

  lemma PickupMarks(c: Config, s: State, x: int, id: int)
    requires Global(c, s) && Message(s, id) && Sending(s, id) && Marking(s, id) && ReadEnabled(s, Pickup(x))
    requires Honest(s, Read(Pickup(x))) && (forall p :: p in s.procs ==> Flow(c, p))
    ensures Marking(ReadNext(c, s, Pickup(x)), id)
  {
    if x == id {
      var p := s.procs[s.sup.g];
      assert p in s.procs;
      SubsequenceMember(p.stdin, Finished(p), DeliverNote(id));
      assert p.queued == Finished(p) + Held(p) + p.out;
      assert QueuedFor(s, s.sup.g, id);
    }
    if x in s.sh.msgs {}
  }

  lemma ReadMarks(c: Config, s: State, t: ReadStep, id: int)
    requires Global(c, s) && Message(s, id) && Sending(s, id) && Marking(s, id) && ReadEnabled(s, t)
    requires t.Settle? ==> Message(s, s.sup.rd.id)
    requires Honest(s, Read(t)) && (forall p :: p in s.procs ==> Flow(c, p))
    requires Frame(c, s, Read(t), ReadNext(c, s, t))
    ensures Marking(ReadNext(c, s, t), id)
  {
    if t.Pickup? {
      PickupMarks(c, s, t.id, id);
    } else {
      OtherReadsMark(c, s, t, id);
    }
  }

  lemma OtherReadsMark(c: Config, s: State, t: ReadStep, id: int)
    requires Global(c, s) && Message(s, id) && Marking(s, id) && ReadEnabled(s, t) && !t.Pickup?
    requires t.Settle? ==> Message(s, s.sup.rd.id)
    requires Frame(c, s, Read(t), ReadNext(c, s, t))
    ensures Marking(ReadNext(c, s, t), id)
  {
    if id in s.born { Queues(c, s, Read(t), ReadNext(c, s, t), s.born[id].g, id); }
    match t
    case Done(x, _) => if x in s.sh.msgs {}
    case Settle => if s.sup.rd.ok {}
    case _ =>
  }

  lemma SendOkSends(c: Config, s: State, t: CallStep, id: int)
    requires Global(c, s) && Message(s, id) && Sending(s, id) && CallEnabled(c, s, t) && t.SendOk?
    requires Frame(c, s, Dispatch(t), CallNext(c, s, t))
    ensures Sending(CallNext(c, s, t), id)
  {
    var u := CallNext(c, s, t);
    forall g ensures QueuedFor(u, g, id) ==> QueuedFor(s, g, id) || (Delivers(s, Dispatch(t), g) && t.id == id) {
      Queues(c, s, Dispatch(t), u, g, id);
    }
    if id in s.born { Queues(c, s, Dispatch(t), u, s.born[id].g, id); }
    if t.id == id {}
  }

  lemma RegisterSends(c: Config, s: State, t: CallStep, id: int)
    requires Global(c, s) && Message(s, id) && Sending(s, id) && CallEnabled(c, s, t) && t.Register?
    requires Delivery(s, t.tok)
    requires Frame(c, s, Dispatch(t), CallNext(c, s, t))
    ensures Sending(CallNext(c, s, t), id)
  {
    var u := CallNext(c, s, t);
    forall g ensures QueuedFor(u, g, id) ==> QueuedFor(s, g, id) {
      Queues(c, s, Dispatch(t), u, g, id);
    }
    if id in s.born { Queues(c, s, Dispatch(t), u, s.born[id].g, id); }
    if t.id == id {}
  }

  lemma SameQueues(s: State, u: State, id: int)
    requires u.procs == s.procs
    ensures forall g :: QueuedFor(u, g, id) <==> QueuedFor(s, g, id)
  {
  }

  lemma ReclaimSends(c: Config, s: State, x: int, id: int)
    requires Message(s, id) && Sending(s, id) && CallEnabled(c, s, Reclaim(x))
    ensures Sending(CallNext(c, s, Reclaim(x)), id)
  {
    SameQueues(s, CallNext(c, s, Reclaim(x)), id);
    if x in s.sh.msgs && x == id {}
  }

  lemma RequeuedSends(c: Config, s: State, x: int, id: int)
    requires Global(c, s) && Message(s, id) && Sending(s, id) && CallEnabled(c, s, Requeued(x)) && Message(s, x)
    ensures Sending(CallNext(c, s, Requeued(x)), id)
  {
    SameQueues(s, CallNext(c, s, Requeued(x)), id);
    if x == id {}
  }

  lemma OtherCallsSend(c: Config, s: State, t: CallStep, id: int)
    requires Sending(s, id) && CallEnabled(c, s, t) && (t.Offer? || t.Refuse? || t.SendFail?)
    ensures Sending(CallNext(c, s, t), id)
  {
    SameQueues(s, CallNext(c, s, t), id);
  }

  lemma CallSends(c: Config, s: State, t: CallStep, id: int)
    requires Global(c, s) && Message(s, id) && Sending(s, id) && CallEnabled(c, s, t)
    requires t.Register? ==> Delivery(s, t.tok)
    requires t.Requeued? ==> Message(s, t.id)
    requires Frame(c, s, Dispatch(t), CallNext(c, s, t))
    ensures Sending(CallNext(c, s, t), id)
  {
    match t
    case SendOk(_) => SendOkSends(c, s, t, id);
    case Register(_, _, _) => RegisterSends(c, s, t, id);
    case Reclaim(x) => ReclaimSends(c, s, x, id);
    case Requeued(x) => RequeuedSends(c, s, x, id);
    case _ => OtherCallsSend(c, s, t, id);
  }

  lemma CallMarks(c: Config, s: State, t: CallStep, id: int)
    requires Global(c, s) && Message(s, id) && Sending(s, id) && Marking(s, id) && CallEnabled(c, s, t)
    requires t.Requeued? ==> Message(s, t.id)
    requires Frame(c, s, Dispatch(t), CallNext(c, s, t))
    ensures Marking(CallNext(c, s, t), id)
  {
    if id in s.born { Queues(c, s, Dispatch(t), CallNext(c, s, t), s.born[id].g, id); }
    match t
    case Register(tok, x, chain) => if x == id {}
    case Reclaim(x) => if x in s.sh.msgs && x == id {}
    case Requeued(x) => if x == id {}
    case _ =>
  }

  lemma TimerSends(c: Config, s: State, t: TimerStep, id: int)
    requires Global(c, s) && Message(s, id) && Sending(s, id) && TimerEnabled(s, t)
    requires t.Nacked? ==> Message(s, t.id)
    requires Frame(c, s, Time(t), TimerNext(s, t))
    ensures Sending(TimerNext(s, t), id)
  {
    var u := TimerNext(s, t);
    forall g ensures QueuedFor(u, g, id) ==> QueuedFor(s, g, id) { Queues(c, s, Time(t), u, g, id); }
    if id in s.born { Queues(c, s, Time(t), u, s.born[id].g, id); }
    match t
    case Section(x) => if x in s.sh.msgs {}
    case _ =>
  }

  lemma TimerMarks(c: Config, s: State, t: TimerStep, id: int)
    requires Global(c, s) && Message(s, id) && Sending(s, id) && Marking(s, id) && TimerEnabled(s, t)
    requires t.Nacked? ==> Message(s, t.id)
    requires Frame(c, s, Time(t), TimerNext(s, t))
    ensures Marking(TimerNext(s, t), id)
  {
    if id in s.born { Queues(c, s, Time(t), TimerNext(s, t), s.born[id].g, id); }
    match t
    case Section(x) => if x in s.sh.msgs {}
    case _ =>
  }

  lemma CloseSends(c: Config, s: State, t: CloseStep, id: int)
    requires Global(c, s) && Message(s, id) && Sending(s, id) && CloseEnabled(s, t)
    requires Frame(c, s, Close(t), CloseNext(s, t))
    ensures Sending(CloseNext(s, t), id)
  {
    var u := CloseNext(s, t);
    forall g ensures QueuedFor(u, g, id) ==> QueuedFor(s, g, id) { Queues(c, s, Close(t), u, g, id); }
    if id in s.born { Queues(c, s, Close(t), u, s.born[id].g, id); }
  }

  lemma CloseMarks(c: Config, s: State, t: CloseStep, id: int)
    requires Global(c, s) && Message(s, id) && Sending(s, id) && Marking(s, id) && CloseEnabled(s, t)
    requires Frame(c, s, Close(t), CloseNext(s, t))
    ensures Marking(CloseNext(s, t), id)
  {
    if id in s.born { Queues(c, s, Close(t), CloseNext(s, t), s.born[id].g, id); }
  }

  lemma WriterKeepsSplit(c: Config, s: State, t: Step, id: int)
    requires Enabled(c, s, t) && t.Write?
    requires Frame(c, s, t, Next(c, s, t))
    requires Sending(s, id)
    ensures Sending(Next(c, s, t), id)
    ensures Marking(s, id) ==> Marking(Next(c, s, t), id)
  {
    var u := Next(c, s, t);
    forall g ensures QueuedFor(u, g, id) ==> QueuedFor(s, g, id) { Queues(c, s, t, u, g, id); }
    if id in s.born { Queues(c, s, t, u, s.born[id].g, id); }
  }

  lemma StepSends(c: Config, s: State, t: Step, id: int)
    requires Inv(c, s) && Sending(s, id) && Enabled(c, s, t)
    ensures Sending(Next(c, s, t), id)
  {
    StepEvolves(c, s, t);
    assert Message(s, id);
    match t
    case Supervise(u) =>
      assert u.BuryOne? ==> Message(s, u.id);
      SupSends(c, s, u, id);
    case Read(u) =>
      assert u.Settle? ==> Message(s, s.sup.rd.id);
      ReadSends(c, s, u, id);
    case Dispatch(u) =>
      assert u.Register? ==> Delivery(s, u.tok);
      assert u.Requeued? ==> Message(s, u.id);
      CallSends(c, s, u, id);
    case Time(u) =>
      assert u.Nacked? ==> Message(s, u.id);
      TimerSends(c, s, u, id);
    case Close(u) => CloseSends(c, s, u, id);
    case Write(g, u) => WriterKeepsSplit(c, s, t, id);
  }

  lemma StepMarks(c: Config, s: State, t: Step, id: int)
    requires Inv(c, s) && Sending(s, id) && Marking(s, id) && Enabled(c, s, t)
    requires Honest(s, t) && (forall p :: p in s.procs ==> Flow(c, p))
    ensures Marking(Next(c, s, t), id)
  {
    StepEvolves(c, s, t);
    assert Message(s, id);
    match t
    case Supervise(u) =>
      assert u.BuryOne? ==> Message(s, u.id);
      SupMarks(c, s, u, id);
    case Read(u) =>
      assert u.Settle? ==> Message(s, s.sup.rd.id);
      ReadMarks(c, s, u, id);
    case Dispatch(u) =>
      assert u.Requeued? ==> Message(s, u.id);
      CallMarks(c, s, u, id);
    case Time(u) =>
      assert u.Nacked? ==> Message(s, u.id);
      TimerMarks(c, s, u, id);
    case Close(u) => CloseMarks(c, s, u, id);
    case Write(g, u) => WriterKeepsSplit(c, s, t, id);
  }

  /** Honest or not. */
  lemma {:induction false} RunSends(c: Config, tr: seq<Step>, id: int)
    requires Exec(c, tr).Some?
    ensures Sending(Exec(c, tr).value, id)
  {
    if tr != [] {
      var before := tr[..|tr| - 1];
      RunSends(c, before, id);
      Reachable(c, before);
      StepSends(c, Exec(c, before).value, tr[|tr| - 1], id);
    }
  }

  lemma {:induction false} HonestRunsMark(c: Config, tr: seq<Step>, id: int)
    requires Exec(c, tr).Some? && HonestRun(c, tr)
    ensures Sending(Exec(c, tr).value, id) && Marking(Exec(c, tr).value, id)
  {
    if tr != [] {
      var before := tr[..|tr| - 1];
      HonestBefore(c, tr);
      HonestRunsMark(c, before, id);
      Reachable(c, before);
      FlowAlways(c, before);
      StepSends(c, Exec(c, before).value, tr[|tr| - 1], id);
      StepMarks(c, Exec(c, before).value, tr[|tr| - 1], id);
    }
  }

  lemma {:induction false} PickupsAreRead(c: Config, tr: seq<Step>, id: int)
    requires Exec(c, tr).Some?
    ensures id in Exec(c, tr).value.pickups <==> Read(Pickup(id)) in tr
  {
    if tr != [] {
      var before, t := tr[..|tr| - 1], tr[|tr| - 1];
      PickupsAreRead(c, before, id);
      assert tr == before + [t];
      StepEvolves(c, Exec(c, before).value, t);
    }
  }

  /** With an honest handler: a message whose pickup was read is never requeued, by
      anyone; the death path drops exactly the messages whose pickup was read; and so a
      message whose deliver never reached stdin is not one of those it drops. */
  lemma {:induction false} CrashSplitIsRight(c: Config, tr: seq<Step>, id: int)
    requires Exec(c, tr).Some? && HonestRun(c, tr)
    ensures var s := Exec(c, tr).value;
      && (Read(Pickup(id)) in tr && id in s.born ==>
            Times(s.called, s.born[id].tok, Requeue) == 0 && !Pending(s, id, Requeue))
      && (DeathHolds(s, id) ==> (DeathKind(s.sup.stale[id]) == Nack <==> Read(Pickup(id)) in tr))
      && (DeathHolds(s, id) && id in s.born && !WrittenTo(s, s.born[id].g, id) ==>
            DeathKind(s.sup.stale[id]) == Requeue)
  {
    HonestRunsMark(c, tr, id);
    PickupsAreRead(c, tr, id);
  }

  /** A Dispatch that registered and has not sent, while its process is being read. */
  const REGISTERING: seq<Step> :=
    [Supervise(SpawnOk)] + [Supervise(Install)] + [Dispatch(Offer(0, []))] + [Dispatch(Register(0, 1, []))]

  function Registered1(c: Config): State {
    INIT.(sup := Reading(0, Idle), procs := [NEW_PROC],
          sh := Shared(Some(0), map[1 := Entry(0, [], c.timed, false)], 2, false),
          calls := map[0 := Taken(1)], flights := map[1 := Flight(0, 0, false)],
          armed := if c.timed then {1} else {}, born := map[1 := Birth(0, 0, [])])
  }

  lemma RegisteringRuns(c: Config)
    requires c.cap >= 1
    ensures Exec(c, REGISTERING) == Some(Registered1(c))
  {
    var s1 := INIT.(sup := Installing(0), procs := [NEW_PROC]);
    var s2 := s1.(sup := Reading(0, Idle), sh := Shared(Some(0), map[], 1, false));
    var s3 := s2.(calls := map[0 := Waiting([])]);
    OneMoreTo(c, [], INIT, Supervise(SpawnOk), s1);
    OneMoreTo(c, [] + [Supervise(SpawnOk)], s1, Supervise(Install), s2);
    OneMoreTo(c, [Supervise(SpawnOk)] + [Supervise(Install)], s2, Dispatch(Offer(0, [])), s3);
    OneMoreTo(c, [Supervise(SpawnOk)] + [Supervise(Install)] + [Dispatch(Offer(0, []))], s3,
              Dispatch(Register(0, 1, [])), Registered1(c));
  }

  /** The handler reports a pickup before it was sent the message, and the send fails. */
  const EAGER_PICKUP: seq<Step> :=
    REGISTERING + [Read(Pickup(1))] + [Close(CancelCall(0))] + [Dispatch(SendFail(1))]

  function Unsent1(c: Config): State {
    Registered1(c).(sh := Shared(Some(0), map[1 := Entry(0, [], c.timed, true)], 2, false), pickups := {1},
                    cancelled := {0}, flights := map[1 := Flight(0, 0, true)])
  }

  function PickedUp1(c: Config): State {
    Registered1(c).(sh := Unsent1(c).sh, pickups := {1})
  }

  lemma EagerPickupReads(c: Config, r: seq<Step>)
    requires Exec(c, r) == Some(Registered1(c))
    ensures Exec(c, r + [Read(Pickup(1))]) == Some(PickedUp1(c))
  {
    OneMoreTo(c, r, Registered1(c), Read(Pickup(1)), PickedUp1(c));
  }

  lemma EagerPickupFails(c: Config, r: seq<Step>)
    requires Exec(c, r) == Some(PickedUp1(c))
    ensures Exec(c, r + [Close(CancelCall(0))] + [Dispatch(SendFail(1))]) == Some(Unsent1(c))
  {
    var s := PickedUp1(c).(cancelled := {0});
    OneMoreTo(c, r, PickedUp1(c), Close(CancelCall(0)), s);
    OneMoreTo(c, r + [Close(CancelCall(0))], s, Dispatch(SendFail(1)), Unsent1(c));
  }

  /** Honesty is needed: such a message is requeued although its pickup was read. */
  lemma EagerPickupIsRequeued(c: Config)
    requires c.cap >= 1
    ensures var tr := EAGER_PICKUP + [Dispatch(Reclaim(1))] + [Dispatch(Requeued(1))];
      Read(Pickup(1)) in tr && Exec(c, tr).Some? && Times(Exec(c, tr).value.called, 0, Requeue) == 1
  {
    RegisteringRuns(c);
    EagerPickupReads(c, REGISTERING);
    EagerPickupFails(c, REGISTERING + [Read(Pickup(1))]);
    var e, s3 := EAGER_PICKUP, Unsent1(c);
    var s4 := s3.(sh := Claimed(s3.sh, 1), armed := s3.armed - {1}, flights := map[],
                  requeueing := map[1 := Flight(0, 0, true)]);
    OneMoreTo(c, e, s3, Dispatch(Reclaim(1)), s4);
    OneMore(c, e + [Dispatch(Reclaim(1))], Dispatch(Requeued(1)));
    assert (e + [Dispatch(Reclaim(1))] + [Dispatch(Requeued(1))])[4] == Read(Pickup(1));
  }

  /** The worker of that Dispatch is closed and killed, and its process exits. */
  const KILLED: seq<Step> :=
    REGISTERING + [Close(BeginClose)] + [Close(Kill)] + [Supervise(ReadEnd)] + [Supervise(StopAfterExit)]

  function Killed1(c: Config): State {
    Registered1(c).(sup := Reaping(0), procs := [Stop(NEW_PROC)], stopReqs := {0},
                    sh := Sections.Closing(Registered1(c).sh))
  }

  lemma KilledRuns(c: Config)
    requires c.cap >= 1
    ensures Exec(c, KILLED) == Some(Killed1(c))
    ensures FoundBy(c, KILLED, Kill, 0)
  {
    RegisteringRuns(c);
    var r := REGISTERING;
    KilledAfter(c, r);
    var i := |r| + 1;
    assert KILLED[i] == Close(Kill) && KILLED[..i] == r + [Close(BeginClose)];
    StaysFound(c, KILLED, i, Kill, 0);
  }

  lemma KilledAfter(c: Config, r: seq<Step>)
    requires Exec(c, r) == Some(Registered1(c))
    ensures var closed := Registered1(c).(sh := Sections.Closing(Registered1(c).sh), stopReqs := {0});
      Exec(c, r + [Close(BeginClose)]) == Some(closed)
    ensures Exec(c, r + [Close(BeginClose)] + [Close(Kill)] + [Supervise(ReadEnd)] + [Supervise(StopAfterExit)])
            == Some(Killed1(c))
  {
    var s1 := Registered1(c).(sh := Sections.Closing(Registered1(c).sh), stopReqs := {0});
    var s2 := s1.(sup := Exited(0));
    OneMoreTo(c, r, Registered1(c), Close(BeginClose), s1);
    OneMoreTo(c, r + [Close(BeginClose)], s1, Close(Kill), s1);
    OneMoreTo(c, r + [Close(BeginClose)] + [Close(Kill)], s1, Supervise(ReadEnd), s2);
    OneMoreTo(c, r + [Close(BeginClose)] + [Close(Kill)] + [Supervise(ReadEnd)], s2, Supervise(StopAfterExit),
              Killed1(c));
  }

  /** Not every message of a killed worker is dropped: one that was not picked up goes back to
      the broker. */
  lemma KilledMessageIsRequeued(c: Config)
    requires c.cap >= 1
    ensures FoundBy(c, KILLED, Kill, 0)
    ensures var run := KILLED + [Supervise(Reap)] + [Supervise(BuryOne(1))];
      && Exec(c, run).Some?
      && Times(Exec(c, run).value.called, 0, Requeue) == 1 && Times(Exec(c, run).value.called, 0, Nack) == 0
  {
    KilledRuns(c);
    var k := Killed1(c);
    var s := k.(sup := Burying(k.sh.msgs, true), sh := Reaped(k.sh));
    OneMoreTo(c, KILLED, k, Supervise(Reap), s);
    OneMore(c, KILLED + [Supervise(Reap)], Supervise(BuryOne(1)));
  }
}
