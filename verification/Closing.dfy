/** What closing a worker brings to an end, and when. */
module Closing {
  import opened Lifecycle
  import opened Sections
  import opened Invariants
  import opened Evolution

  // ------------------------------------------------------------ after beginClose

  /** How many processes an ending worker can still install. */
  function InstallsLeft(sup: Sup): nat {
    match sup
    case Spawning => 1
    case Backoff => 1
    case Installing(_) => 1
    case Burying(_, last) => if last then 0 else 1
    case _ => 0
  }

  /** How many steps an ending supervisor can still take, beside those of its read loop. */
  function StepsLeft(c: Config, sup: Sup): nat {
    match sup
    case Burying(stale, last) => |stale| + (if last then 2 else c.cap + 8)
    case Backoff => c.cap + 8
    case Spawning => c.cap + 7
    case Installing(_) => c.cap + 6
    case Reading(_, _) => c.cap + 5
    case Exited(_) => c.cap + 4
    case Reaping(_) => c.cap + 3
    case SpawnFailed => 2
    case Stopping => 1
    case Stopped => 0
  }

  /** The worker was closed, or the engine's context cancelled. */
  predicate Ending(s: State) {
    s.sh.closing || s.runCtx
  }

  /** Still ending, and no further from it, after a step with these costs. */
  predicate NoFurther(c: Config, s: State, u: State, installed: bool, supervised: bool) {
    && (s.sh.closing ==> u.sh.closing && u.sh.nextID == s.sh.nextID) && (s.runCtx ==> u.runCtx)
    && StepsLeft(c, u.sup) + One(supervised) <= StepsLeft(c, s.sup)
    && InstallsLeft(u.sup) + One(installed) <= InstallsLeft(s.sup)
  }

  lemma SupWindsDown(c: Config, s: State, t: SupStep)
    requires Global(c, s) && Ending(s) && SupEnabled(s, t)
    ensures NoFurther(c, s, SupNext(s, t), t.Install?, true)
  {
    if t.BuryOne? { assert (s.sup.stale - {t.id}).Keys == s.sup.stale.Keys - {t.id}; }
  }

  lemma ReadKeepsPhase(c: Config, s: State, t: ReadStep)
    requires ReadEnabled(s, t)
    ensures NoFurther(c, s, ReadNext(c, s, t), false, false)
  {
    match t
    case Pickup(x) => if x in s.sh.msgs {}
    case Done(x, _) => if x in s.sh.msgs {}
    case _ =>
  }

  lemma CallKeepsPhase(c: Config, s: State, t: CallStep)
    requires CallEnabled(c, s, t)
    ensures NoFurther(c, s, CallNext(c, s, t), false, false)
  {
    match t
    case Reclaim(x) => if x in s.sh.msgs {}
    case _ =>
  }

  lemma TimerKeepsPhase(c: Config, s: State, t: TimerStep)
    requires TimerEnabled(s, t)
    ensures NoFurther(c, s, TimerNext(s, t), false, false)
  {
    match t
    case Section(x) => if x in s.sh.msgs {}
    case _ =>
  }

  lemma CloseKeepsPhase(c: Config, s: State, t: CloseStep)
    requires CloseEnabled(s, t)
    ensures NoFurther(c, s, CloseNext(s, t), false, false)
  {
  }

  lemma WriterKeepsPhase(c: Config, s: State, t: Step)
    requires Enabled(c, s, t) && t.Write?
    ensures NoFurther(c, s, Next(c, s, t), false, false)
  {
  }

  lemma EndingStep(c: Config, s: State, t: Step)
    requires Global(c, s) && Enabled(c, s, t) && Ending(s)
    ensures NoFurther(c, s, Next(c, s, t), t == Supervise(Install), t.Supervise?)
  {
    match t
    case Supervise(u) => SupWindsDown(c, s, u);
    case Read(u) => ReadKeepsPhase(c, s, u);
    case Dispatch(u) => CallKeepsPhase(c, s, u);
    case Time(u) => TimerKeepsPhase(c, s, u);
    case Close(u) => CloseKeepsPhase(c, s, u);
    case Write(g, u) => WriterKeepsPhase(c, s, t);
  }

  lemma {:induction false} Prefix(c: Config, run: seq<Step>, k: nat)
    requires Exec(c, run).Some? && k <= |run|
    ensures Exec(c, run[..k]).Some?
  {
    if k == |run| {
      assert run[..k] == run;
    } else {
      var before := run[..|run| - 1];
      assert before[..k] == run[..k];
      Prefix(c, before, k);
    }
  }

  function Installs(tr: seq<Step>): nat {
    if tr == [] then 0 else Installs(tr[..|tr| - 1]) + One(tr[|tr| - 1] == Supervise(Install))
  }

  function SupSteps(tr: seq<Step>): nat {
    if tr == [] then 0 else SupSteps(tr[..|tr| - 1]) + One(tr[|tr| - 1].Supervise?)
  }

  /** Once a worker is closing, or the context cancelled, it installs at most one more
      process, and none if it is serving one; and a closing worker registers nothing. */
  lemma {:induction false} ClosingBoundsRespawning(c: Config, tr: seq<Step>, later: seq<Step>)
    requires Exec(c, tr).Some? && Exec(c, tr + later).Some?
    requires Ending(Exec(c, tr).value)
    ensures var s, u := Exec(c, tr).value, Exec(c, tr + later).value;
      && (s.sh.closing ==> u.sh.closing && u.sh.nextID == s.sh.nextID) && (s.runCtx ==> u.runCtx)
      && InstallsLeft(u.sup) + Installs(later) <= InstallsLeft(s.sup) <= 1
      && (s.sh.cur.Some? ==> Installs(later) == 0)
  {
    Reachable(c, tr);
    if later == [] {
      assert tr + later == tr;
    } else {
      var n := |later| - 1;
      assert (tr + later)[..|tr + later| - 1] == tr + later[..n];
      ClosingBoundsRespawning(c, tr, later[..n]);
      Reachable(c, tr + later[..n]);
      EndingStep(c, Exec(c, tr + later[..n]).value, later[n]);
    }
  }

  /** And its supervisor takes only so many more steps, in any continuation: at most the
      capacity and eight, and one for each message it is settling. */
  lemma {:induction false} ClosingBoundsSupervisor(c: Config, tr: seq<Step>, later: seq<Step>)
    requires Exec(c, tr).Some? && Exec(c, tr + later).Some?
    requires Ending(Exec(c, tr).value)
    ensures var s, u := Exec(c, tr).value, Exec(c, tr + later).value;
      && Ending(u)
      && SupSteps(later) + StepsLeft(c, u.sup) <= StepsLeft(c, s.sup)
      && StepsLeft(c, s.sup) <= c.cap + 8 + (if s.sup.Burying? then |s.sup.stale| else 0)
  {
    if later == [] {
      assert tr + later == tr;
    } else {
      var n := |later| - 1;
      assert (tr + later)[..|tr + later| - 1] == tr + later[..n];
      ClosingBoundsSupervisor(c, tr, later[..n]);
      Reachable(c, tr + later[..n]);
      EndingStep(c, Exec(c, tr + later[..n]).value, later[n]);
    }
  }

  /** A close, and a cancelled context, have their effect for the rest of the run. */
  lemma {:induction false} EndsForGood(c: Config, run: seq<Step>, i: nat)
    requires Exec(c, run).Some? && i < |run|
    ensures run[i] == Close(BeginClose) ==> Exec(c, run).value.sh.closing
    ensures run[i] == Close(CancelRun) ==> Exec(c, run).value.runCtx
  {
    var before := run[..|run| - 1];
    Reachable(c, before);
    if i < |before| {
      EndsForGood(c, before, i);
      if Ending(Exec(c, before).value) { EndingStep(c, Exec(c, before).value, run[|run| - 1]); }
    }
  }

  // ---------------------------------------------------------- and before it: respawning

  /** The supervisor is on its way to stop, or has. */
  predicate BoundToStop(sup: Sup) {
    sup.Stopping? || sup.Stopped? || (sup.Burying? && sup.last)
  }

  lemma SupStopsRightly(s: State, t: SupStep)
    requires SupEnabled(s, t) && (BoundToStop(s.sup) ==> Ending(s))
    ensures BoundToStop(SupNext(s, t).sup) ==> Ending(SupNext(s, t))
  {
  }

  lemma OthersKeepEnding(c: Config, s: State, t: Step)
    requires Global(c, s) && Enabled(c, s, t) && !t.Supervise?
    ensures Ending(s) ==> Ending(Next(c, s, t))
    ensures BoundToStop(Next(c, s, t).sup) ==> BoundToStop(s.sup)
  {
    if Ending(s) { EndingStep(c, s, t); }
    match t
    case Read(u) => ReadStaysUnbound(c, s, u);
    case _ => StepEvolves(c, s, t);
  }

  lemma ReadStaysUnbound(c: Config, s: State, t: ReadStep)
    requires ReadEnabled(s, t)
    ensures ReadNext(c, s, t).sup.Reading?
  {
    match t
    case Done(x, _) => if x in s.sh.msgs {}
    case _ =>
  }

  /** A worker stops only if it was closed or its context cancelled: no crash and no failed
      spawn retires it. */
  lemma {:induction false} StopsOnlyIfEnding(c: Config, tr: seq<Step>)
    requires Exec(c, tr).Some?
    ensures BoundToStop(Exec(c, tr).value.sup) ==> Ending(Exec(c, tr).value)
  {
    if tr != [] {
      var before, t := tr[..|tr| - 1], tr[|tr| - 1];
      StopsOnlyIfEnding(c, before);
      Reachable(c, before);
      if t.Supervise? {
        SupStopsRightly(Exec(c, before).value, t.sup);
      } else {
        OthersKeepEnding(c, Exec(c, before).value, t);
      }
    }
  }

  /** Whether the worker goes on is fixed when its process is reaped. */
  predicate StillBurying(s: State, ending: bool) {
    s.sup.Burying? && s.sup.last == ending
  }

  lemma BuryingGoesOn(c: Config, s: State, t: Step, ending: bool)
    requires Enabled(c, s, t) && StillBurying(s, ending)
    ensures t != Supervise(BuryDone) ==> StillBurying(Next(c, s, t), ending)
    ensures t == Supervise(BuryDone) ==> Next(c, s, t).sup == if ending then Stopping else Spawning
  {
    if !t.Supervise? { StepEvolves(c, s, t); }
  }

  lemma BuryingAfter(c: Config, run: seq<Step>, ending: bool)
    requires Exec(c, run).Some? && run != [] && StillBurying(Exec(c, run[..|run| - 1]).value, ending)
    requires run[|run| - 1] != Supervise(BuryDone)
    ensures StillBurying(Exec(c, run).value, ending)
  {
    BuryingGoesOn(c, Exec(c, run[..|run| - 1]).value, run[|run| - 1], ending);
  }

  lemma ReapDecides(c: Config, run: seq<Step>)
    requires Exec(c, run).Some? && run != [] && run[|run| - 1] == Supervise(Reap)
    ensures Exec(c, run[..|run| - 1]).Some?
    ensures StillBurying(Exec(c, run).value, Ending(Exec(c, run[..|run| - 1]).value))
  {
    ReapBegins(c, Exec(c, run[..|run| - 1]).value);
  }

  lemma ReapBegins(c: Config, s: State)
    requires Enabled(c, s, Supervise(Reap))
    ensures StillBurying(Next(c, s, Supervise(Reap)), Ending(s))
  {
  }

  lemma {:induction false} BuriesUntilDone(c: Config, run: seq<Step>, k: nat, ending: bool)
    requires Exec(c, run).Some? && k < |run| && run[k] == Supervise(Reap) && Exec(c, run[..k]).Some?
    requires ending == Ending(Exec(c, run[..k]).value)
    requires forall i :: k < i < |run| ==> run[i] != Supervise(BuryDone)
    ensures StillBurying(Exec(c, run).value, ending)
  {
    var before := run[..|run| - 1];
    if k < |before| {
      assert before[..k] == run[..k];
      BuriesUntilDone(c, before, k, ending);
      BuryingAfter(c, run, ending);
    } else {
      assert before == run[..k];
      ReapDecides(c, run);
    }
  }

  /** When its process has died and its messages are settled, the worker spawns another,
      unless it was closed or its context cancelled when the process was reaped. */
  lemma RespawnsUnlessEnding(c: Config, run: seq<Step>, k: nat)
    requires Exec(c, run).Some? && k < |run| - 1
    requires run[k] == Supervise(Reap) && run[|run| - 1] == Supervise(BuryDone)
    requires forall i :: k < i < |run| - 1 ==> run[i] != Supervise(BuryDone)
    ensures Exec(c, run[..k]).Some?
    ensures Exec(c, run).value.sup == if Ending(Exec(c, run[..k]).value) then Stopping else Spawning
  {
    var before := run[..|run| - 1];
    Prefix(c, run, k);
    assert before[..k] == run[..k];
    var ending := Ending(Exec(c, run[..k]).value);
    BuriesUntilDone(c, before, k, ending);
    BuryingGoesOn(c, Exec(c, before).value, run[|run| - 1], ending);
  }

  /** How many steps a worker that goes on is from serving a process. */
  function StepsToServe(c: Config, sup: Sup): nat {
    match sup
    case Reading(_, _) => 0
    case Installing(_) => 1
    case Spawning => 2
    case Backoff => 3
    case SpawnFailed => 4
    case Burying(stale, _) => |stale| + 3
    case Reaping(_) => c.cap + 4
    case Exited(_) => c.cap + 5
    case _ => 0
  }

  /** A failed spawn and the end of a process are what takes it further away. */
  predicate SetBack(t: Step) {
    t == Supervise(SpawnErr) || t == Supervise(ReadEnd)
  }

  lemma SupComesToServe(c: Config, s: State, t: SupStep)
    requires Global(c, s) && !Ending(s) && !BoundToStop(s.sup) && SupEnabled(s, t) && !SetBack(Supervise(t))
    ensures StepsToServe(c, SupNext(s, t).sup) + 1 <= StepsToServe(c, s.sup)
  {
    if t.BuryOne? { assert (s.sup.stale - {t.id}).Keys == s.sup.stale.Keys - {t.id}; }
  }

  lemma ComesToServeAfter(c: Config, run: seq<Step>)
    requires Exec(c, run).Some? && run != [] && !Ending(Exec(c, run).value) && !SetBack(run[|run| - 1])
    ensures Exec(c, run[..|run| - 1]).Some? && !Ending(Exec(c, run[..|run| - 1]).value)
    ensures StepsToServe(c, Exec(c, run).value.sup) + One(run[|run| - 1].Supervise?)
            <= StepsToServe(c, Exec(c, run[..|run| - 1]).value.sup)
  {
    var before, t := run[..|run| - 1], run[|run| - 1];
    var s := Exec(c, before).value;
    Reachable(c, before);
    StopsOnlyIfEnding(c, before);
    if Ending(s) { EndingStep(c, s, t); }
    match t
    case Supervise(u) => SupComesToServe(c, s, u);
    case Read(u) => ReadStaysUnbound(c, s, u);
    case _ => StepEvolves(c, s, t);
  }

  /** Between two failures a worker that is not ending takes at most so many steps before it
      serves a process again: it retries a failed spawn, and replaces a dead process. */
  lemma {:induction false} ComesToServe(c: Config, run: seq<Step>, k: nat)
    requires Exec(c, run).Some? && k <= |run| && Exec(c, run[..k]).Some? && !Ending(Exec(c, run).value)
    requires forall i :: k <= i < |run| ==> !SetBack(run[i])
    ensures SupSteps(run) - SupSteps(run[..k]) + StepsToServe(c, Exec(c, run).value.sup)
            <= StepsToServe(c, Exec(c, run[..k]).value.sup)
    ensures StepsToServe(c, Exec(c, run).value.sup) == 0 <==> Exec(c, run).value.sup.Reading?
  {
    StopsOnlyIfEnding(c, run);
    if k == |run| {
      assert run[..k] == run;
    } else {
      var before := run[..|run| - 1];
      assert before[..k] == run[..k];
      ComesToServeAfter(c, run);
      ComesToServe(c, before, k);
    }
  }

  // ------------------------------------------------------------------- stopped

  /** Claimed by a timer or a Dispatch that has its callback still to make. */
  predicate HeldByTimerOrCall(s: State, id: int) {
    id in s.nacking || id in s.requeueing
  }

  /** No process, no message in flight, and a supervisor that has gone. */
  ghost predicate Over(s: State) {
    s.sup.Stopped? && s.sh.cur.None? && s.sh.msgs == map[]
  }

  /** A stopped worker has no process and no message in flight; every message it accepted
      was claimed, and is settled unless a timer or a Dispatch holds its callback. */
  lemma StoppedIsComplete(c: Config, s: State)
    requires Inv(c, s) && s.sup.Stopped?
    ensures Over(s)
    ensures forall id :: id in s.born ==>
              Called(s, s.born[id].tok) + One(HeldByTimerOrCall(s, id)) == 1
  {
    forall id ensures id !in s.sh.msgs { assert Message(s, id); }
    forall id | id in s.born ensures Called(s, s.born[id].tok) + One(HeldByTimerOrCall(s, id)) == 1 {
      assert Message(s, id);
    }
  }

  lemma CallStaysOver(c: Config, s: State, t: CallStep)
    requires CallEnabled(c, s, t) && Over(s)
    ensures Over(CallNext(c, s, t)) && CallNext(c, s, t).sh.nextID == s.sh.nextID
  {
    match t
    case Reclaim(x) => assert x !in s.sh.msgs;
    case _ =>
  }

  lemma TimerStaysOver(s: State, t: TimerStep)
    requires TimerEnabled(s, t) && Over(s)
    ensures Over(TimerNext(s, t)) && TimerNext(s, t).sh.nextID == s.sh.nextID
  {
    match t
    case Section(x) => assert x !in s.sh.msgs;
    case _ =>
  }

  lemma SupervisorIsGone(s: State, t: Step)
    requires Over(s)
    ensures t.Supervise? ==> !SupEnabled(s, t.sup)
    ensures t.Read? ==> !ReadEnabled(s, t.read)
  {
  }

  lemma CloseStaysOver(s: State, t: CloseStep)
    requires CloseEnabled(s, t) && Over(s)
    ensures Over(CloseNext(s, t)) && CloseNext(s, t).sh.nextID == s.sh.nextID
  {
  }

  lemma StaysOver(c: Config, s: State, t: Step)
    requires Enabled(c, s, t) && Over(s)
    ensures Over(Next(c, s, t)) && Next(c, s, t).sh.nextID == s.sh.nextID
  {
    SupervisorIsGone(s, t);
    match t
    case Dispatch(u) => CallStaysOver(c, s, u);
    case Time(u) => TimerStaysOver(s, u);
    case Close(u) => CloseStaysOver(s, u);
    case Write(g, u) =>
    case _ =>
  }

  lemma OverAfter(c: Config, run: seq<Step>, id: int)
    requires Exec(c, run).Some? && run != []
    requires Over(Exec(c, run[..|run| - 1]).value) && Exec(c, run[..|run| - 1]).value.sh.nextID == id
    ensures Over(Exec(c, run).value) && Exec(c, run).value.sh.nextID == id
  {
    StaysOver(c, Exec(c, run[..|run| - 1]).value, run[|run| - 1]);
  }

  lemma {:induction false} OverForever(c: Config, run: seq<Step>, k: nat, id: int)
    requires Exec(c, run).Some? && k <= |run| && Exec(c, run[..k]).Some?
    requires Over(Exec(c, run[..k]).value) && Exec(c, run[..k]).value.sh.nextID == id
    ensures Over(Exec(c, run).value) && Exec(c, run).value.sh.nextID == id
  {
    if k == |run| {
      assert run[..k] == run;
    } else {
      var before := run[..|run| - 1];
      assert before[..k] == run[..k];
      OverForever(c, before, k, id);
      OverAfter(c, run, id);
    }
  }

  /** Stopping is final: from any point of a run at which the worker is stopped, to its end,
      the process stays gone, the map stays empty, and no message is registered. */
  lemma {:induction false} StoppedIsFinal(c: Config, run: seq<Step>, k: nat)
    requires Exec(c, run).Some? && k <= |run|
    requires Exec(c, run[..k]).Some? && Exec(c, run[..k]).value.sup.Stopped?
    ensures Over(Exec(c, run).value)
    ensures Exec(c, run).value.sh.nextID == Exec(c, run[..k]).value.sh.nextID
  {
    Reachable(c, run[..k]);
    StoppedIsComplete(c, Exec(c, run[..k]).value);
    OverForever(c, run, k, Exec(c, run[..k]).value.sh.nextID);
  }
}
