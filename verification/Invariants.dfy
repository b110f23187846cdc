/** What every reachable state of a worker satisfies. All of it but a handful of global
    facts is said of one message or of one delivery at a time, and kept one at a time. */
module Invariants {
  import opened Sections
  import opened Lifecycle

  /** The map belongs to the process being served and is never over capacity. */
  ghost predicate Global(c: Config, s: State) {
    && ServedBy(s.sup) == s.sh.cur
    && (s.sh.cur.Some? ==> s.sh.cur.value + 1 == |s.procs|)
    && (s.sup.Installing? ==> s.sup.g + 1 == |s.procs|)
    && |s.sh.msgs| <= c.cap
    && 1 <= s.sh.nextID
  }

  // ------------------------------------------------- who holds the right to settle

  function One(b: bool): nat {
    if b then 1 else 0
  }

  predicate ReaderHolds(s: State, id: int) {
    s.sup.Reading? && s.sup.rd.Settling? && s.sup.rd.id == id
  }

  predicate DeathHolds(s: State, id: int) {
    s.sup.Burying? && id in s.sup.stale
  }

  /** How many callbacks of a delivery have been made, of any kind. */
  function Called(s: State, tok: nat): nat {
    s.called.acks[tok] + s.called.nacks[tok] + s.called.requeues[tok]
  }

  /** How many places hold a registered message: the map, each of the four parties that
      can have claimed it with the callback still to make, and each callback made. */
  function Holdings(s: State, id: int): nat
    requires id in s.born
  {
    One(id in s.sh.msgs) + One(ReaderHolds(s, id)) + One(DeathHolds(s, id)) + One(id in s.nacking)
    + One(id in s.requeueing) + Called(s, s.born[id].tok)
  }

  // ------------------------------------------------------------- per message

  /** The entry is the one that was registered under this id. */
  ghost predicate Matches(s: State, id: int, m: Entry) {
    id in s.born && m.tok == s.born[id].tok && m.chain == s.born[id].chain
  }

  ghost predicate FlightMatches(s: State, id: int, f: Flight) {
    id in s.born && f.tok == s.born[id].tok && f.g == s.born[id].g
  }

  /** Ids are consecutive and never reused, and an entry belongs to the process now being
      served and to the delivery registered under its id. */
  ghost predicate Registration(s: State, id: int) {
    && (id in s.born <==> 1 <= id < s.sh.nextID)
    && (id in s.born ==>
          s.born[id].g < |s.procs| && s.born[id].tok in s.calls && s.calls[s.born[id].tok] == Taken(id))
    && (id in s.sh.msgs ==> Matches(s, id, s.sh.msgs[id]) && s.sh.cur == Some(s.born[id].g))
    && (id in s.armed || id in s.fired ==> id in s.born)
  }

  /** Every party that remembers the id remembers the delivery registered under it. */
  ghost predicate Parties(s: State, id: int) {
    && (ReaderHolds(s, id) ==> Matches(s, id, s.sup.rd.m))
    && (DeathHolds(s, id) ==> Matches(s, id, s.sup.stale[id]))
    && (id in s.nacking ==> Matches(s, id, s.nacking[id]))
    && (id in s.flights ==> FlightMatches(s, id, s.flights[id]))
    && (id in s.requeueing ==> FlightMatches(s, id, s.requeueing[id]))
  }

  /** Once registered, a message is held in exactly one place. */
  ghost predicate HeldOnce(s: State, id: int) {
    id in s.born ==> Holdings(s, id) == 1
  }

  ghost predicate Message(s: State, id: int) {
    Registration(s, id) && Parties(s, id) && HeldOnce(s, id)
  }

  /** A call that registered knows its id, and a delivery that no call registered has had
      no callback. */
  ghost predicate Delivery(s: State, tok: nat) {
    if tok in s.calls && s.calls[tok].Taken? then
      s.calls[tok].id in s.born && s.born[s.calls[tok].id].tok == tok
    else
      Called(s, tok) == 0
  }

  ghost predicate Inv(c: Config, s: State) {
    && Global(c, s)
    && (forall id :: Message(s, id))
    && (forall tok :: Delivery(s, tok))
  }

  // ------------------------------------------------------------ preservation

  lemma ClaimFreesASlot(sh: Shared, id: int)
    requires id in sh.msgs
    ensures |Claimed(sh, id).msgs| == |sh.msgs| - 1
  {
    assert Claimed(sh, id).msgs.Keys == sh.msgs.Keys - {id};
  }

  lemma PickupKeepsSize(sh: Shared, id: int)
    ensures |PickedUp(sh, id).msgs| == |sh.msgs|
  {
    assert PickedUp(sh, id).msgs.Keys == sh.msgs.Keys;
  }

  lemma RegisterTakesASlot(sh: Shared, m: Entry)
    requires sh.nextID !in sh.msgs
    ensures |Registered(sh, m).msgs| == |sh.msgs| + 1
  {
    assert Registered(sh, m).msgs.Keys == sh.msgs.Keys + {sh.nextID};
  }

  // ---- the supervisor

  lemma SupKeepsGlobal(c: Config, s: State, t: SupStep)
    requires Global(c, s) && SupEnabled(s, t)
    ensures Global(c, SupNext(s, t))
    ensures |SupNext(s, t).sh.msgs| <= |s.sh.msgs|
  {
  }

  lemma SupKeepsRegistration(c: Config, s: State, t: SupStep, id: int)
    requires Global(c, s) && Message(s, id) && SupEnabled(s, t)
    requires t.BuryOne? ==> Message(s, t.id)
    ensures Registration(SupNext(s, t), id)
  {
    match t
    case BuryOne(x) => match DeathKind(s.sup.stale[x]) { case _ => }
    case _ =>
  }

  lemma SupKeepsParties(c: Config, s: State, t: SupStep, id: int)
    requires Message(s, id) && SupEnabled(s, t)
    requires t.BuryOne? ==> Message(s, t.id)
    ensures Parties(SupNext(s, t), id)
  {
    match t
    case BuryOne(x) => match DeathKind(s.sup.stale[x]) { case _ => }
    case _ =>
  }

  lemma SupKeepsHeldOnce(c: Config, s: State, t: SupStep, id: int)
    requires Message(s, id) && SupEnabled(s, t)
    requires t.BuryOne? ==> Message(s, t.id)
    ensures HeldOnce(SupNext(s, t), id)
  {
    match t
    case BuryOne(x) => match DeathKind(s.sup.stale[x]) { case _ => }
    case _ =>
  }

  lemma SupKeepsDelivery(c: Config, s: State, t: SupStep, tok: nat)
    requires Delivery(s, tok) && SupEnabled(s, t)
    requires t.BuryOne? ==> Message(s, t.id)
    ensures Delivery(SupNext(s, t), tok)
  {
    match t
    case BuryOne(x) => match DeathKind(s.sup.stale[x]) { case _ => }
    case _ =>
  }

  lemma SupKeepsInv(c: Config, s: State, t: SupStep)
    requires Inv(c, s) && SupEnabled(s, t)
    ensures Inv(c, SupNext(s, t))
    ensures |SupNext(s, t).sh.msgs| <= |s.sh.msgs|
  {
    assert t.BuryOne? ==> Message(s, t.id);
    SupKeepsGlobal(c, s, t);
    forall id ensures Message(SupNext(s, t), id) {
      assert Message(s, id);
      SupKeepsRegistration(c, s, t, id); SupKeepsParties(c, s, t, id); SupKeepsHeldOnce(c, s, t, id);
    }
    forall tok ensures Delivery(SupNext(s, t), tok) {
      assert Delivery(s, tok);
      SupKeepsDelivery(c, s, t, tok);
    }
  }

  // ---- the read loop

  lemma ReadKeepsGlobal(c: Config, s: State, t: ReadStep)
    requires Global(c, s) && ReadEnabled(s, t)
    ensures Global(c, ReadNext(c, s, t))
    ensures |ReadNext(c, s, t).sh.msgs| <= |s.sh.msgs|
  {
    match t
    case Pickup(x) => PickupKeepsSize(s.sh, x);
    case Done(x, ok) => if x in s.sh.msgs { ClaimFreesASlot(s.sh, x); }
    case _ =>
  }

  lemma ReadKeepsRegistration(c: Config, s: State, t: ReadStep, id: int)
    requires Global(c, s) && Message(s, id) && ReadEnabled(s, t)
    requires t.Settle? ==> Message(s, s.sup.rd.id)
    ensures Registration(ReadNext(c, s, t), id)
  {
    match t
    case Pickup(x) => if x in s.sh.msgs {}
    case Done(x, ok) => if x in s.sh.msgs {}
    case Settle => if s.sup.rd.ok {}
    case EmitNote(e) =>
    case PublishResult(ok) =>
    case AckEmit =>
  }

  lemma ReadKeepsParties(c: Config, s: State, t: ReadStep, id: int)
    requires Message(s, id) && ReadEnabled(s, t)
    requires t.Settle? ==> Message(s, s.sup.rd.id)
    ensures Parties(ReadNext(c, s, t), id)
  {
    match t
    case Pickup(x) => if x in s.sh.msgs {}
    case Done(x, ok) => if x in s.sh.msgs {}
    case Settle => if s.sup.rd.ok {}
    case EmitNote(e) =>
    case PublishResult(ok) =>
    case AckEmit =>
  }

  lemma ReadKeepsHeldOnce(c: Config, s: State, t: ReadStep, id: int)
    requires Message(s, id) && ReadEnabled(s, t)
    requires t.Settle? ==> Message(s, s.sup.rd.id)
    ensures HeldOnce(ReadNext(c, s, t), id)
  {
    match t
    case Pickup(x) => if x in s.sh.msgs {}
    case Done(x, ok) => if x in s.sh.msgs {}
    case Settle => if s.sup.rd.ok {}
    case EmitNote(e) =>
    case PublishResult(ok) =>
    case AckEmit =>
  }

  lemma ReadKeepsDelivery(c: Config, s: State, t: ReadStep, tok: nat)
    requires Delivery(s, tok) && ReadEnabled(s, t)
    requires t.Settle? ==> Message(s, s.sup.rd.id)
    ensures Delivery(ReadNext(c, s, t), tok)
  {
    match t
    case Settle => if s.sup.rd.ok {}
    case _ =>
  }

  lemma ReadKeepsInv(c: Config, s: State, t: ReadStep)
    requires Inv(c, s) && ReadEnabled(s, t)
    ensures Inv(c, ReadNext(c, s, t))
    ensures |ReadNext(c, s, t).sh.msgs| <= |s.sh.msgs|
  {
    assert t.Settle? ==> Message(s, s.sup.rd.id);
    ReadKeepsGlobal(c, s, t);
    forall id ensures Message(ReadNext(c, s, t), id) {
      assert Message(s, id);
      ReadKeepsRegistration(c, s, t, id); ReadKeepsParties(c, s, t, id); ReadKeepsHeldOnce(c, s, t, id);
    }
    forall tok ensures Delivery(ReadNext(c, s, t), tok) {
      assert Delivery(s, tok);
      ReadKeepsDelivery(c, s, t, tok);
    }
  }

  // ---- the dispatchers

  lemma CallKeepsGlobal(c: Config, s: State, t: CallStep)
    requires Global(c, s) && CallEnabled(c, s, t)
    requires t.Register? ==> Message(s, t.id)
    ensures Global(c, CallNext(c, s, t))
    ensures !t.Register? ==> |CallNext(c, s, t).sh.msgs| <= |s.sh.msgs|
  {
    match t
    case Register(tok, x, chain) => RegisterTakesASlot(s.sh, Entry(tok, chain, c.timed, false));
    case Reclaim(x) => if x in s.sh.msgs { ClaimFreesASlot(s.sh, x); }
    case _ =>
  }

  lemma CallKeepsRegistration(c: Config, s: State, t: CallStep, id: int)
    requires Global(c, s) && Message(s, id) && CallEnabled(c, s, t)
    requires t.Register? ==> Delivery(s, t.tok)
    requires t.Requeued? ==> Message(s, t.id)
    ensures Registration(CallNext(c, s, t), id)
  {
    match t
    case Register(tok, x, chain) => if x == id {}
    case Reclaim(x) => if x in s.sh.msgs && x == id {}
    case Requeued(x) => if x == id {}
    case _ =>
  }

  lemma CallKeepsParties(c: Config, s: State, t: CallStep, id: int)
    requires Message(s, id) && CallEnabled(c, s, t)
    requires t.Register? ==> Delivery(s, t.tok)
    requires t.Requeued? ==> Message(s, t.id)
    ensures Parties(CallNext(c, s, t), id)
  {
    match t
    case Register(tok, x, chain) => if x == id {}
    case Reclaim(x) => if x in s.sh.msgs && x == id {}
    case Requeued(x) => if x == id {}
    case _ =>
  }

  lemma RegisterHeldOnce(c: Config, s: State, tok: nat, x: int, chain: seq<string>, id: int)
    requires Message(s, id) && CallEnabled(c, s, Register(tok, x, chain)) && Delivery(s, tok)
    ensures HeldOnce(CallNext(c, s, Register(tok, x, chain)), id)
  {
    if x == id {}
  }

  lemma ReclaimHeldOnce(c: Config, s: State, x: int, id: int)
    requires Message(s, id) && CallEnabled(c, s, Reclaim(x))
    ensures HeldOnce(CallNext(c, s, Reclaim(x)), id)
  {
    if x in s.sh.msgs && x == id {}
  }

  lemma RequeuedHeldOnce(c: Config, s: State, x: int, id: int)
    requires Message(s, id) && CallEnabled(c, s, Requeued(x)) && Message(s, x)
    ensures HeldOnce(CallNext(c, s, Requeued(x)), id)
  {
    if x == id {}
  }

  lemma SendHeldOnce(c: Config, s: State, t: CallStep, id: int)
    requires Message(s, id) && CallEnabled(c, s, t) && !t.Register? && !t.Reclaim? && !t.Requeued?
    ensures HeldOnce(CallNext(c, s, t), id)
  {
  }

  lemma CallKeepsHeldOnce(c: Config, s: State, t: CallStep, id: int)
    requires Message(s, id) && CallEnabled(c, s, t)
    requires t.Register? ==> Delivery(s, t.tok)
    requires t.Requeued? ==> Message(s, t.id)
    ensures HeldOnce(CallNext(c, s, t), id)
  {
    match t
    case Register(tok, x, chain) => RegisterHeldOnce(c, s, tok, x, chain, id);
    case Reclaim(x) => ReclaimHeldOnce(c, s, x, id);
    case Requeued(x) => RequeuedHeldOnce(c, s, x, id);
    case _ => SendHeldOnce(c, s, t, id);
  }

  lemma CallKeepsDelivery(c: Config, s: State, t: CallStep, tok: nat)
    requires Delivery(s, tok) && CallEnabled(c, s, t)
    requires t.Register? || t.Requeued? ==> Message(s, t.id)
    ensures Delivery(CallNext(c, s, t), tok)
  {
    match t
    case Reclaim(x) => if x in s.sh.msgs {}
    case _ =>
  }

  lemma CallKeepsInv(c: Config, s: State, t: CallStep)
    requires Inv(c, s) && CallEnabled(c, s, t)
    ensures Inv(c, CallNext(c, s, t))
    ensures !t.Register? ==> |CallNext(c, s, t).sh.msgs| <= |s.sh.msgs|
  {
    assert t.Register? ==> Delivery(s, t.tok);
    assert t.Register? || t.Requeued? ==> Message(s, t.id);
    CallKeepsGlobal(c, s, t);
    forall id ensures Message(CallNext(c, s, t), id) {
      assert Message(s, id);
      CallKeepsRegistration(c, s, t, id); CallKeepsParties(c, s, t, id); CallKeepsHeldOnce(c, s, t, id);
    }
    forall tok ensures Delivery(CallNext(c, s, t), tok) {
      assert Delivery(s, tok);
      CallKeepsDelivery(c, s, t, tok);
    }
  }

  // ---- the timers

  lemma TimerKeepsGlobal(c: Config, s: State, t: TimerStep)
    requires Global(c, s) && TimerEnabled(s, t)
    ensures Global(c, TimerNext(s, t))
    ensures |TimerNext(s, t).sh.msgs| <= |s.sh.msgs|
  {
    match t
    case Section(x) => if x in s.sh.msgs { ClaimFreesASlot(s.sh, x); }
    case _ =>
  }

  lemma TimerKeepsRegistration(c: Config, s: State, t: TimerStep, id: int)
    requires Global(c, s) && Message(s, id) && TimerEnabled(s, t)
    requires t.Nacked? ==> Message(s, t.id)
    ensures Registration(TimerNext(s, t), id)
  {
    match t
    case Fire(x) =>
    case Section(x) => if x in s.sh.msgs {}
    case Nacked(x) =>
  }

  lemma TimerKeepsParties(c: Config, s: State, t: TimerStep, id: int)
    requires Message(s, id) && TimerEnabled(s, t)
    requires t.Nacked? ==> Message(s, t.id)
    ensures Parties(TimerNext(s, t), id)
  {
    match t
    case Fire(x) =>
    case Section(x) => if x in s.sh.msgs {}
    case Nacked(x) =>
  }

  lemma TimerKeepsHeldOnce(c: Config, s: State, t: TimerStep, id: int)
    requires Message(s, id) && TimerEnabled(s, t)
    requires t.Nacked? ==> Message(s, t.id)
    ensures HeldOnce(TimerNext(s, t), id)
  {
    match t
    case Fire(x) =>
    case Section(x) => if x in s.sh.msgs {}
    case Nacked(x) =>
  }

  lemma TimerKeepsDelivery(c: Config, s: State, t: TimerStep, tok: nat)
    requires Delivery(s, tok) && TimerEnabled(s, t)
    requires t.Nacked? ==> Message(s, t.id)
    ensures Delivery(TimerNext(s, t), tok)
  {
    match t
    case Section(x) => if x in s.sh.msgs {}
    case _ =>
  }

  lemma TimerKeepsInv(c: Config, s: State, t: TimerStep)
    requires Inv(c, s) && TimerEnabled(s, t)
    ensures Inv(c, TimerNext(s, t))
    ensures |TimerNext(s, t).sh.msgs| <= |s.sh.msgs|
  {
    assert t.Nacked? ==> Message(s, t.id);
    TimerKeepsGlobal(c, s, t);
    forall id ensures Message(TimerNext(s, t), id) {
      assert Message(s, id);
      TimerKeepsRegistration(c, s, t, id); TimerKeepsParties(c, s, t, id); TimerKeepsHeldOnce(c, s, t, id);
    }
    forall tok ensures Delivery(TimerNext(s, t), tok) {
      assert Delivery(s, tok);
      TimerKeepsDelivery(c, s, t, tok);
    }
  }

  // ---- closing

  lemma CloseKeepsGlobal(c: Config, s: State, t: CloseStep)
    requires Global(c, s) && CloseEnabled(s, t)
    ensures Global(c, CloseNext(s, t))
    ensures |CloseNext(s, t).sh.msgs| <= |s.sh.msgs|
  {
  }

  lemma CloseKeepsRegistration(c: Config, s: State, t: CloseStep, id: int)
    requires Global(c, s) && Message(s, id) && CloseEnabled(s, t)
    ensures Registration(CloseNext(s, t), id)
  {
  }

  lemma CloseKeepsParties(c: Config, s: State, t: CloseStep, id: int)
    requires Message(s, id) && CloseEnabled(s, t)
    ensures Parties(CloseNext(s, t), id)
  {
  }

  lemma CloseKeepsHeldOnce(c: Config, s: State, t: CloseStep, id: int)
    requires Message(s, id) && CloseEnabled(s, t)
    ensures HeldOnce(CloseNext(s, t), id)
  {
  }

  lemma CloseKeepsDelivery(c: Config, s: State, t: CloseStep, tok: nat)
    requires Delivery(s, tok) && CloseEnabled(s, t)
    ensures Delivery(CloseNext(s, t), tok)
  {
  }

  lemma CloseKeepsInv(c: Config, s: State, t: CloseStep)
    requires Inv(c, s) && CloseEnabled(s, t)
    ensures Inv(c, CloseNext(s, t))
    ensures |CloseNext(s, t).sh.msgs| <= |s.sh.msgs|
  {
    CloseKeepsGlobal(c, s, t);
    forall id ensures Message(CloseNext(s, t), id) {
      assert Message(s, id);
      CloseKeepsRegistration(c, s, t, id); CloseKeepsParties(c, s, t, id); CloseKeepsHeldOnce(c, s, t, id);
    }
    forall tok ensures Delivery(CloseNext(s, t), tok) {
      assert Delivery(s, tok);
      CloseKeepsDelivery(c, s, t, tok);
    }
  }

  // ---- the writers

  lemma WriterKeepsInv(c: Config, s: State, t: Step)
    requires Inv(c, s) && Enabled(c, s, t) && t.Write?
    ensures Inv(c, Next(c, s, t)) && Next(c, s, t).sh == s.sh
  {
    forall id ensures Message(Next(c, s, t), id) { assert Message(s, id); }
    forall tok ensures Delivery(Next(c, s, t), tok) { assert Delivery(s, tok); }
  }

  /** Every step keeps the invariant, and none but a registration raises the load. */
  lemma StepKeepsInv(c: Config, s: State, t: Step)
    requires Inv(c, s) && Enabled(c, s, t)
    ensures Inv(c, Next(c, s, t))
    ensures !(t.Dispatch? && t.call.Register?) ==> |Next(c, s, t).sh.msgs| <= |s.sh.msgs|
  {
    match t
    case Supervise(u) => SupKeepsInv(c, s, u);
    case Read(u) => ReadKeepsInv(c, s, u);
    case Dispatch(u) => CallKeepsInv(c, s, u);
    case Time(u) => TimerKeepsInv(c, s, u);
    case Close(u) => CloseKeepsInv(c, s, u);
    case Write(g, u) => WriterKeepsInv(c, s, t);
  }

  lemma {:induction false} Reachable(c: Config, tr: seq<Step>)
    requires Exec(c, tr).Some?
    ensures Inv(c, Exec(c, tr).value)
  {
    if tr != [] {
      Reachable(c, tr[..|tr| - 1]);
      StepKeepsInv(c, Exec(c, tr[..|tr| - 1]).value, tr[|tr| - 1]);
    }
  }
}
