/** What a single step can change. */
module Evolution {
  import opened Lifecycle

  /** What one step may do to the process `g`: nothing, stop it, queue a deliver for it (by
      a Dispatch that registered against it), queue an emit_ack for it (by its read loop),
      or move its writer. */
  ghost predicate Evolves(c: Config, s: State, t: Step, g: nat, q: Proc)
    requires g < |s.procs|
  {
    var p := s.procs[g];
    || q == p
    || q == Stop(p)
    || (|p.out| < c.cap + 1 && Delivers(s, t, g) && q == Enqueue(p, DeliverNote(t.call.id)))
    || (|p.out| < c.cap + 1 && Acknowledges(s, t, g) && q == Enqueue(p, AckNote(s.sup.rd.emit, s.sup.rd.ok)))
    || (exists w :: WriteEnabled(p, w) && q == WriteNext(p, w))
  }

  predicate Delivers(s: State, t: Step, g: nat) {
    t.Dispatch? && t.call.SendOk? && t.call.id in s.flights && s.flights[t.call.id].g == g
  }

  predicate Acknowledges(s: State, t: Step, g: nat) {
    t == Read(AckEmit) && s.sup.Reading? && s.sup.g == g && s.sup.rd.Acking?
  }

  /** The processes evolve; the supervisor goroutine moves only by itself; only a Dispatch
      changes the calls, registrations and flights, only closing the stop requests, only a
      pickup note the pickups, and only the read loop the history of emits; and what is
      cancelled or closing stays so. */
  ghost predicate Frame(c: Config, s: State, t: Step, u: State) {
    && |s.procs| <= |u.procs| && (!t.Supervise? ==> |u.procs| == |s.procs|)
    && (forall g :: 0 <= g < |s.procs| ==> Evolves(c, s, t, g, u.procs[g]))
    && (forall g :: |s.procs| <= g < |u.procs| ==> u.procs[g] == NEW_PROC)
    && (!t.Dispatch? ==> u.flights == s.flights && u.sh.nextID == s.sh.nextID && u.born == s.born && u.calls == s.calls)
    && (!t.Dispatch? ==> u.requeueing == s.requeueing)
    && (!t.Close? ==> u.stopReqs == s.stopReqs)
    && s.cancelled <= u.cancelled && (s.sh.closing ==> u.sh.closing)
    && (t.Supervise? || t.Read? || u.sup == s.sup)
    && (!t.Read? ==> u.emits == s.emits && u.pubs == s.pubs && u.acks == s.acks)
    && u.pickups == (if t.Read? && t.read.Pickup? then s.pickups + {t.read.id} else s.pickups)
  }

  lemma SupEvolves(c: Config, s: State, t: SupStep)
    requires SupEnabled(s, t)
    ensures Frame(c, s, Supervise(t), SupNext(s, t))
  {
  }

  lemma ReadEvolves(c: Config, s: State, t: ReadStep)
    requires ReadEnabled(s, t)
    ensures Frame(c, s, Read(t), ReadNext(c, s, t))
  {
    match t
    case Pickup(x) => if x in s.sh.msgs {}
    case Done(x, _) => if x in s.sh.msgs {}
    case _ =>
  }

  lemma CallEvolves(c: Config, s: State, t: CallStep)
    requires CallEnabled(c, s, t)
    ensures Frame(c, s, Dispatch(t), CallNext(c, s, t))
  {
    match t
    case Reclaim(x) => if x in s.sh.msgs {}
    case _ =>
  }

  lemma TimerEvolves(c: Config, s: State, t: TimerStep)
    requires TimerEnabled(s, t)
    ensures Frame(c, s, Time(t), TimerNext(s, t))
  {
    match t
    case Section(x) => if x in s.sh.msgs {}
    case _ =>
  }

  lemma CloseEvolves(c: Config, s: State, t: CloseStep)
    requires CloseEnabled(s, t)
    ensures Frame(c, s, Close(t), CloseNext(s, t))
  {
  }

  lemma WriterEvolves(c: Config, s: State, t: Step)
    requires Enabled(c, s, t) && t.Write?
    ensures Frame(c, s, t, Next(c, s, t))
  {
  }

  lemma StepEvolves(c: Config, s: State, t: Step)
    requires Enabled(c, s, t)
    ensures Frame(c, s, t, Next(c, s, t))
  {
    match t
    case Supervise(u) => SupEvolves(c, s, u);
    case Read(u) => ReadEvolves(c, s, u);
    case Dispatch(u) => CallEvolves(c, s, u);
    case Time(u) => TimerEvolves(c, s, u);
    case Close(u) => CloseEvolves(c, s, u);
    case Write(g, u) => WriterEvolves(c, s, t);
  }
}
