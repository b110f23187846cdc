/** Which of its three callbacks a message gets. The reference is an automaton that reads
    the events of a run and looks at one id only; the worker, with all its parties, does
    what the automaton says. */
module Disposition {
  import opened Sections
  import opened Lifecycle
  import opened Invariants

  datatype Fate =
    | Unborn
    | Live(tok: nat, chain: seq<string>, picked: bool)
    | Decided(tok: nat, kind: Kind)

  /** Whether `t` claims the message `id`, and for which callback. */
  function Verdict(t: Step, id: int, picked: bool): Option<Kind> {
    match t
    case Read(u) => if u.Done? && u.id == id then Some(if u.ok then Ack else Nack) else None
    case Time(u) => if u.Section? && u.id == id then Some(Nack) else None
    case Supervise(u) => if u.Reap? then Some(if picked then Nack else Requeue) else None
    case Dispatch(u) => if u.Reclaim? && u.id == id then Some(Requeue) else None
    case _ => None
  }

  /** The first claiming event after the registration decides; nothing later counts. */
  function FateStep(f: Fate, t: Step, id: int): Fate {
    match f
    case Unborn =>
      if t.Dispatch? && t.call.Register? && t.call.id == id then Live(t.call.tok, t.call.chain, false) else f
    case Live(tok, _, picked) =>
      if t == Read(Pickup(id)) then f.(picked := true)
      else
        (match Verdict(t, id, picked)
         case Some(kind) => Decided(tok, kind)
         case None => f)
    case Decided(_, _) => f
  }

  function FateOf(tr: seq<Step>, id: int): Fate {
    if tr == [] then Unborn else FateStep(FateOf(tr[..|tr| - 1], id), tr[|tr| - 1], id)
  }

  /** A done that names a live message decides it: for an ack if it is ok, else for a nack. */
  lemma DoneDecides(tr: seq<Step>, id: int, ok: bool)
    requires FateOf(tr, id).Live?
    ensures FateOf(tr + [Read(Done(id, ok))], id) == Decided(FateOf(tr, id).tok, if ok then Ack else Nack)
  {
    assert (tr + [Read(Done(id, ok))])[..|tr|] == tr;
  }

  /** The right to make the callback `k` is held by one of the parties. */
  ghost predicate Pending(s: State, id: int, k: Kind) {
    || (ReaderHolds(s, id) && k == if s.sup.rd.ok then Ack else Nack)
    || (DeathHolds(s, id) && k == if s.sup.stale[id].picked then Nack else Requeue)
    || (id in s.nacking && k == Nack)
    || (id in s.requeueing && k == Requeue)
  }

  /** The state of the worker says the same about `id` as the automaton. */
  ghost predicate Agrees(s: State, id: int, f: Fate) {
    match f
    case Unborn => id !in s.born
    case Live(tok, chain, picked) =>
      id in s.sh.msgs && s.sh.msgs[id] == Entry(tok, chain, s.sh.msgs[id].timed, picked)
    case Decided(tok, kind) =>
      && id in s.born && s.born[id].tok == tok && id !in s.sh.msgs
      && (Pending(s, id, kind) || Times(s.called, tok, kind) == 1)
  }

  lemma BuryAgrees(s: State, x: int, id: int, f: Fate)
    requires Message(s, id) && Agrees(s, id, f) && SupEnabled(s, BuryOne(x)) && Message(s, x)
    ensures Agrees(SupNext(s, BuryOne(x)), id, FateStep(f, Supervise(BuryOne(x)), id))
  {
    match DeathKind(s.sup.stale[x]) case _ =>
  }

  lemma OtherSupAgrees(s: State, t: SupStep, id: int, f: Fate)
    requires Message(s, id) && Agrees(s, id, f) && SupEnabled(s, t) && !t.BuryOne?
    ensures Agrees(SupNext(s, t), id, FateStep(f, Supervise(t), id))
  {
  }

  lemma SupAgrees(s: State, t: SupStep, id: int, f: Fate)
    requires Message(s, id) && Agrees(s, id, f) && SupEnabled(s, t)
    requires t.BuryOne? ==> Message(s, t.id)
    ensures Agrees(SupNext(s, t), id, FateStep(f, Supervise(t), id))
  {
    match t
    case BuryOne(x) => BuryAgrees(s, x, id, f);
    case _ => OtherSupAgrees(s, t, id, f);
  }

  lemma SettleAgrees(c: Config, s: State, id: int, f: Fate)
    requires Message(s, id) && Agrees(s, id, f) && ReadEnabled(s, Settle) && Message(s, s.sup.rd.id)
    ensures Agrees(ReadNext(c, s, Settle), id, FateStep(f, Read(Settle), id))
  {
    if s.sup.rd.ok {}
  }

  lemma NoteAgrees(c: Config, s: State, t: ReadStep, id: int, f: Fate)
    requires Message(s, id) && Agrees(s, id, f) && ReadEnabled(s, t) && !t.Settle?
    ensures Agrees(ReadNext(c, s, t), id, FateStep(f, Read(t), id))
  {
    match t
    case Pickup(x) => if x in s.sh.msgs {}
    case Done(x, _) => if x in s.sh.msgs {}
    case _ =>
  }

  lemma ReadAgrees(c: Config, s: State, t: ReadStep, id: int, f: Fate)
    requires Message(s, id) && Agrees(s, id, f) && ReadEnabled(s, t)
    requires t.Settle? ==> Message(s, s.sup.rd.id)
    ensures Agrees(ReadNext(c, s, t), id, FateStep(f, Read(t), id))
  {
    if t.Settle? { SettleAgrees(c, s, id, f); } else { NoteAgrees(c, s, t, id, f); }
  }

  lemma ReclaimAgrees(c: Config, s: State, x: int, id: int, f: Fate)
    requires Message(s, id) && Agrees(s, id, f) && CallEnabled(c, s, Reclaim(x))
    ensures Agrees(CallNext(c, s, Reclaim(x)), id, FateStep(f, Dispatch(Reclaim(x)), id))
  {
    if x in s.sh.msgs && x == id {}
  }

  lemma RequeuedAgrees(c: Config, s: State, x: int, id: int, f: Fate)
    requires Message(s, id) && Agrees(s, id, f) && CallEnabled(c, s, Requeued(x)) && Message(s, x)
    ensures Agrees(CallNext(c, s, Requeued(x)), id, FateStep(f, Dispatch(Requeued(x)), id))
  {
    if x == id {}
  }

  lemma SendAgrees(c: Config, s: State, t: CallStep, id: int, f: Fate)
    requires Message(s, id) && Agrees(s, id, f) && CallEnabled(c, s, t) && !t.Reclaim? && !t.Requeued?
    ensures Agrees(CallNext(c, s, t), id, FateStep(f, Dispatch(t), id))
  {
    if t.Register? && t.id == id {}
  }

  lemma CallAgrees(c: Config, s: State, t: CallStep, id: int, f: Fate)
    requires Message(s, id) && Agrees(s, id, f) && CallEnabled(c, s, t)
    requires t.Requeued? ==> Message(s, t.id)
    ensures Agrees(CallNext(c, s, t), id, FateStep(f, Dispatch(t), id))
  {
    match t
    case Reclaim(x) => ReclaimAgrees(c, s, x, id, f);
    case Requeued(x) => RequeuedAgrees(c, s, x, id, f);
    case _ => SendAgrees(c, s, t, id, f);
  }

  lemma SectionAgrees(s: State, x: int, id: int, f: Fate)
    requires Message(s, id) && Agrees(s, id, f) && TimerEnabled(s, Section(x))
    ensures Agrees(TimerNext(s, Section(x)), id, FateStep(f, Time(Section(x)), id))
  {
    if x in s.sh.msgs {}
  }

  lemma NackedAgrees(s: State, x: int, id: int, f: Fate)
    requires Message(s, id) && Agrees(s, id, f) && TimerEnabled(s, Nacked(x)) && Message(s, x)
    ensures Agrees(TimerNext(s, Nacked(x)), id, FateStep(f, Time(Nacked(x)), id))
  {
    if x == id {}
  }

  lemma TimerAgrees(s: State, t: TimerStep, id: int, f: Fate)
    requires Message(s, id) && Agrees(s, id, f) && TimerEnabled(s, t)
    requires t.Nacked? ==> Message(s, t.id)
    ensures Agrees(TimerNext(s, t), id, FateStep(f, Time(t), id))
  {
    match t
    case Section(x) => SectionAgrees(s, x, id, f);
    case Nacked(x) => NackedAgrees(s, x, id, f);
    case Fire(_) =>
  }

  lemma CloseAgrees(s: State, t: CloseStep, id: int, f: Fate)
    requires Agrees(s, id, f) && CloseEnabled(s, t)
    ensures Agrees(CloseNext(s, t), id, FateStep(f, Close(t), id))
  {
  }

  lemma WriterAgrees(c: Config, s: State, t: Step, id: int, f: Fate)
    requires Agrees(s, id, f) && Enabled(c, s, t) && t.Write?
    ensures Agrees(Next(c, s, t), id, FateStep(f, t, id))
  {
  }

  lemma StepAgrees(c: Config, s: State, t: Step, id: int, f: Fate)
    requires Inv(c, s) && Enabled(c, s, t) && Agrees(s, id, f)
    ensures Agrees(Next(c, s, t), id, FateStep(f, t, id))
  {
    assert Message(s, id);
    match t
    case Supervise(u) =>
      assert u.BuryOne? ==> Message(s, u.id);
      SupAgrees(s, u, id, f);
    case Read(u) =>
      assert u.Settle? ==> Message(s, s.sup.rd.id);
      ReadAgrees(c, s, u, id, f);
    case Dispatch(u) =>
      assert u.Requeued? ==> Message(s, u.id);
      CallAgrees(c, s, u, id, f);
    case Time(u) =>
      assert u.Nacked? ==> Message(s, u.id);
      TimerAgrees(s, u, id, f);
    case Close(u) => CloseAgrees(s, u, id, f);
    case Write(g, u) => WriterAgrees(c, s, t, id, f);
  }

  lemma {:induction false} RunAgrees(c: Config, tr: seq<Step>, id: int)
    requires Exec(c, tr).Some?
    ensures Agrees(Exec(c, tr).value, id, FateOf(tr, id))
  {
    if tr != [] {
      var before := tr[..|tr| - 1];
      Reachable(c, before);
      RunAgrees(c, before, id);
      StepAgrees(c, Exec(c, before).value, tr[|tr| - 1], id, FateOf(before, id));
    }
  }
}
