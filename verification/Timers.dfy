/** The per-message timeout: every message in flight has its timer, and no settled one has. */
module Timers {
  import opened Sections
  import opened Lifecycle
  import opened Invariants

  /** With a timeout configured a message in flight has a timer, waiting or past firing; a
      timer waits only for a message in flight, or left by a dead process; and without a
      timeout there is none. */
  ghost predicate TimedRightly(c: Config, s: State, id: int) {
    && (id in s.sh.msgs ==> s.sh.msgs[id].timed == c.timed)
    && (id in s.sh.msgs && c.timed ==> id in s.armed || id in s.fired)
    && (id in s.armed ==> (id in s.sh.msgs || DeathHolds(s, id)) && id !in s.fired)
    && (id in s.armed || id in s.fired || id in s.nacking ==> c.timed)
  }

  lemma SupTimesRightly(c: Config, s: State, t: SupStep, id: int)
    requires Message(s, id) && TimedRightly(c, s, id) && SupEnabled(s, t)
    ensures TimedRightly(c, SupNext(s, t), id)
  {
  }

  lemma ReadTimesRightly(c: Config, s: State, t: ReadStep, id: int)
    requires TimedRightly(c, s, id) && ReadEnabled(s, t)
    ensures TimedRightly(c, ReadNext(c, s, t), id)
  {
    match t
    case Pickup(x) => if x in s.sh.msgs {}
    case Done(x, _) => if x in s.sh.msgs {}
    case _ =>
  }

  lemma CallTimesRightly(c: Config, s: State, t: CallStep, id: int)
    requires Message(s, id) && TimedRightly(c, s, id) && CallEnabled(c, s, t)
    ensures TimedRightly(c, CallNext(c, s, t), id)
  {
    match t
    case Register(_, x, _) => if x == id {}
    case Reclaim(x) => if x in s.sh.msgs && x == id {}
    case _ =>
  }

  lemma TimerTimesRightly(c: Config, s: State, t: TimerStep, id: int)
    requires TimedRightly(c, s, id) && TimerEnabled(s, t)
    ensures TimedRightly(c, TimerNext(s, t), id)
  {
    match t
    case Section(x) => if x in s.sh.msgs {}
    case _ =>
  }

  lemma CloseTimesRightly(c: Config, s: State, t: CloseStep, id: int)
    requires TimedRightly(c, s, id) && CloseEnabled(s, t)
    ensures TimedRightly(c, CloseNext(s, t), id)
  {
  }

  lemma WriterTimesRightly(c: Config, s: State, t: Step, id: int)
    requires TimedRightly(c, s, id) && Enabled(c, s, t) && t.Write?
    ensures TimedRightly(c, Next(c, s, t), id)
  {
  }

  lemma StepTimesRightly(c: Config, s: State, t: Step, id: int)
    requires Message(s, id) && TimedRightly(c, s, id) && Enabled(c, s, t)
    ensures TimedRightly(c, Next(c, s, t), id)
  {
    match t
    case Supervise(u) => SupTimesRightly(c, s, u, id);
    case Read(u) => ReadTimesRightly(c, s, u, id);
    case Dispatch(u) => CallTimesRightly(c, s, u, id);
    case Time(u) => TimerTimesRightly(c, s, u, id);
    case Close(u) => CloseTimesRightly(c, s, u, id);
    case Write(_, _) => WriterTimesRightly(c, s, t, id);
  }

  lemma {:induction false} RunTimesRightly(c: Config, tr: seq<Step>, id: int)
    requires Exec(c, tr).Some?
    ensures TimedRightly(c, Exec(c, tr).value, id)
  {
    if tr != [] {
      var before := tr[..|tr| - 1];
      RunTimesRightly(c, before, id);
      Reachable(c, before);
      assert Message(Exec(c, before).value, id);
      StepTimesRightly(c, Exec(c, before).value, tr[|tr| - 1], id);
    }
  }

  /** In every run: a message in flight can time out, its timer having a step, exactly if
      timeouts are configured; and once it is claimed, other than by its timer's firing, its
      timer waits no more than the supervisor takes to stop it. */
  lemma {:induction false} InFlightCanTimeOut(c: Config, tr: seq<Step>, id: int)
    requires Exec(c, tr).Some?
    ensures var s := Exec(c, tr).value;
      && (id in s.sh.msgs ==> (c.timed <==> TimerEnabled(s, Fire(id)) || TimerEnabled(s, Section(id))))
      && (TimerEnabled(s, Fire(id)) ==> id in s.sh.msgs || DeathHolds(s, id))
      && (!c.timed ==> !TimerEnabled(s, Fire(id)) && !TimerEnabled(s, Section(id)) && !TimerEnabled(s, Nacked(id)))
  {
    RunTimesRightly(c, tr, id);
  }
}
