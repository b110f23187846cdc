/** Every worker of the engine makes a run of its own, so that all that is proved of a
    worker's runs holds inside the engine; and what Shutdown reaches there. */
module Projection {
  import opened Sections
  import opened Lifecycle
  import opened Engine
  import opened Reach

  /** The step of worker `i` that the engine's step makes, if any. */
  function StepOf(p: PState, t: PStep, i: nat): seq<Step> {
    match t
    case OfWorker(j, w) => if i == j then [w] else []
    case HandOver =>
      if p.disp.Scanning? && p.disp.best == i then [Dispatch(Offer(p.disp.tok, p.disp.chain))] else []
    case CloseOne => if p.shut.ClosingAll? && p.shut.i == i then [Close(BeginClose)] else []
    case KillOne => if p.shut.Awaiting? && p.shut.i == i then [Close(Kill)] else []
    case _ => []
  }

  /** The run of worker `i`. */
  function RunOf(u: Setup, tr: seq<PStep>, i: nat): seq<Step> {
    if tr == [] then []
    else
      match PExec(u, tr[..|tr| - 1])
      case None => []
      case Some(p) => RunOf(u, tr[..|tr| - 1], i) + StepOf(p, tr[|tr| - 1], i)
  }

  lemma StepIsTheWorkers(u: Setup, p: PState, t: PStep, i: nat)
    requires PEnabled(u, p, t) && i < |p.ws|
    ensures |PNext(u, p, t).ws| == |p.ws|
    ensures StepOf(p, t, i) == [] ==> PNext(u, p, t).ws[i] == p.ws[i]
    ensures StepOf(p, t, i) != [] ==>
              && Enabled(u.w, p.ws[i], StepOf(p, t, i)[0]) && |StepOf(p, t, i)| == 1
              && PNext(u, p, t).ws[i] == Next(u.w, p.ws[i], StepOf(p, t, i)[0])
  {
  }

  lemma {:induction false} WorkerRuns(u: Setup, tr: seq<PStep>, i: nat)
    requires PExec(u, tr).Some? && i < u.size
    ensures |PExec(u, tr).value.ws| == u.size
    ensures Exec(u.w, RunOf(u, tr, i)) == Some(PExec(u, tr).value.ws[i])
  {
    if tr != [] {
      var before, t := tr[..|tr| - 1], tr[|tr| - 1];
      var p := PExec(u, before).value;
      WorkerRuns(u, before, i);
      StepIsTheWorkers(u, p, t, i);
      var run, more := RunOf(u, before, i), StepOf(p, t, i);
      if more == [] {
        assert run + more == run;
      } else {
        assert more == [more[0]];
        OneMore(u.w, run, more[0]);
      }
    }
  }

  // ------------------------------------------------------------------ shutdown

  /** Shutdown has told worker `i` to close, and neither killed it nor seen it stop. */
  predicate OnlyTold(p: PState, i: nat) {
    && i < Told(p)
    && match p.shut
       case Awaiting(j, killed) => j < i || (j == i && !killed)
       case Returned => false
       case _ => true
  }

  predicate ClosedThenKilled(run: seq<Step>, c: nat, k: nat) {
    c < k && IsLast(run, c, BeginClose) && IsLast(run, k, Kill)
  }

  /** What the run of worker `i` holds of closes and kills: none before Shutdown comes to it;
      then one close; and once Shutdown has killed it, a close and then a kill. */
  ghost predicate ShutSoFar(p: PState, run: seq<Step>, i: nat) {
    && (Told(p) <= i ==> Close(BeginClose) !in run && Close(Kill) !in run)
    && (OnlyTold(p, i) ==> Close(Kill) !in run && exists c: nat :: IsLast(run, c, BeginClose))
    && (p.shut == Awaiting(i, true) ==> exists c: nat, k: nat :: ClosedThenKilled(run, c, k))
  }

  lemma StaysLast(run: seq<Step>, t: Step, i: nat, what: CloseStep)
    requires IsLast(run, i, what) && t != Close(what)
    ensures IsLast(run + [t], i, what)
  {
  }

  lemma OtherStepShuts(p: PState, run: seq<Step>, t: Step, i: nat)
    requires ShutSoFar(p, run, i) && t != Close(BeginClose) && t != Close(Kill)
    ensures ShutSoFar(p, run + [t], i)
  {
    if c: nat, k: nat :| ClosedThenKilled(run, c, k) {
      StaysLast(run, t, c, BeginClose);
      StaysLast(run, t, k, Kill);
      assert ClosedThenKilled(run + [t], c, k);
    }
    if c: nat :| IsLast(run, c, BeginClose) { StaysLast(run, t, c, BeginClose); }
  }

  lemma CloseShuts(u: Setup, p: PState, run: seq<Step>, i: nat)
    requires PEnabled(u, p, CloseOne) && p.shut.i == i && ShutSoFar(p, run, i)
    ensures ShutSoFar(PNext(u, p, CloseOne), run + [Close(BeginClose)], i)
  {
    assert IsLast(run + [Close(BeginClose)], |run|, BeginClose);
  }

  lemma KillShuts(u: Setup, p: PState, run: seq<Step>, i: nat)
    requires PEnabled(u, p, KillOne) && p.shut.i == i && ShutSoFar(p, run, i)
    ensures ShutSoFar(PNext(u, p, KillOne), run + [Close(Kill)], i)
  {
    var c: nat :| IsLast(run, c, BeginClose);
    StaysLast(run, Close(Kill), c, BeginClose);
    assert ClosedThenKilled(run + [Close(Kill)], c, |run|);
  }

  lemma ElsewhereShuts(u: Setup, p: PState, t: PStep, run: seq<Step>, i: nat)
    requires PEnabled(u, p, t) && i < |p.ws| && ShutSoFar(p, run, i)
    requires t.CloseOne? || t.KillOne? ==> p.shut.i != i
    ensures ShutSoFar(PNext(u, p, t), run, i)
  {
  }

  lemma StepShuts(u: Setup, p: PState, t: PStep, run: seq<Step>, i: nat)
    requires PEnabled(u, p, t) && i < |p.ws| && ShutSoFar(p, run, i)
    ensures ShutSoFar(PNext(u, p, t), run + StepOf(p, t, i), i)
  {
    var more := StepOf(p, t, i);
    if t.CloseOne? && p.shut.i == i {
      CloseShuts(u, p, run, i);
    } else if t.KillOne? && p.shut.i == i {
      KillShuts(u, p, run, i);
    } else {
      ElsewhereShuts(u, p, t, run, i);
      if more == [] {
        assert run + more == run;
      } else {
        assert more == [more[0]];
        OtherStepShuts(PNext(u, p, t), run, more[0], i);
      }
    }
  }

  lemma {:induction false} ShutAlways(u: Setup, tr: seq<PStep>, i: nat)
    requires PExec(u, tr).Some? && i < u.size
    ensures ShutSoFar(PExec(u, tr).value, RunOf(u, tr, i), i)
  {
    if tr != [] {
      var before := tr[..|tr| - 1];
      ShutAlways(u, before, i);
      WorkerRuns(u, before, i);
      StepShuts(u, PExec(u, before).value, tr[|tr| - 1], RunOf(u, before, i), i);
    }
  }

  /** Neither the close nor the kill, at these steps of its run, found the worker with a
      process. */
  ghost predicate NeitherFound(c: Config, run: seq<Step>, i: nat, j: nat) {
    && ClosedThenKilled(run, i, j) && Exec(c, run[..i]).Some? && Exec(c, run[..j]).Some?
    && Exec(c, run[..i]).value.sh.cur.None? && Exec(c, run[..j]).value.sh.cur.None?
  }

  /** In every run of the engine, while Shutdown waits for a worker it has killed: a process
      whose notes are being read there was neither asked to stop nor killed exactly if the
      worker had no process when it was closed and none when it was killed. */
  lemma {:induction false} ShutdownWaitsForNobody(u: Setup, tr: seq<PStep>, i: nat)
    requires PExec(u, tr).Some? && i < u.size
    requires PExec(u, tr).value.shut == Awaiting(i, true)
    ensures var run := RunOf(u, tr, i);
      && i < |PExec(u, tr).value.ws| && Exec(u.w, run) == Some(PExec(u, tr).value.ws[i])
      && (Exec(u.w, run).value.sup.Reading? ==>
            (LeftAlone(u.w, run) <==> exists c: nat, k: nat :: NeitherFound(u.w, run, c, k)))
  {
    var run := RunOf(u, tr, i);
    WorkerRuns(u, tr, i);
    ShutAlways(u, tr, i);
    if Exec(u.w, run).value.sup.Reading? {
      var c: nat, k: nat :| ClosedThenKilled(run, c, k);
      LeftAloneIfNoneFound(u.w, run, c, k);
      if LeftAlone(u.w, run) { assert NeitherFound(u.w, run, c, k); }
      if c': nat, k': nat :| NeitherFound(u.w, run, c', k') { LastIsUnique(run, c, c', k, k'); }
    }
  }

  lemma LastIsUnique(run: seq<Step>, c: nat, c': nat, k: nat, k': nat)
    requires ClosedThenKilled(run, c, k) && ClosedThenKilled(run, c', k')
    ensures c == c' && k == k'
  {
  }

  // ----------------------------------------------------- a Shutdown that may not end

  lemma OneMorePStep(u: Setup, tr: seq<PStep>, p: PState, t: PStep, q: PState)
    requires PExec(u, tr) == Some(p) && PEnabled(u, p, t) && PNext(u, p, t) == q
    ensures PExec(u, tr + [t]) == Some(q)
    ensures forall i: nat :: RunOf(u, tr + [t], i) == RunOf(u, tr, i) + StepOf(p, t, i)
  {
    assert (tr + [t])[..|tr + [t]| - 1] == tr;
  }

  function ShuttingDown(shut: Shut, w: State): PState {
    PState([w], Ready, [], [], INIT.called, shut)
  }

  /** Shutdown tells the one worker to close while it spawns. */
  const TOLD_SPAWNING: seq<PStep> := [Shutdown] + [OfWorker(0, Supervise(SpawnOk))] + [CloseOne]

  lemma ToldSpawningRuns(u: Setup)
    requires u.size == 1
    ensures PExec(u, TOLD_SPAWNING) == Some(ShuttingDown(Awaiting(0, false), Spawned1()))
    ensures RunOf(u, TOLD_SPAWNING, 0) == CLOSED_SPAWNING
  {
    var spawning := INIT.(sup := Installing(0), procs := [NEW_PROC]);
    var p0, p1, p2 := PInit(u), ShuttingDown(ClosingAll(0), INIT), ShuttingDown(ClosingAll(0), spawning);
    assert p0.ws == [INIT] && [INIT][0 := spawning] == [spawning];
    assert Next(u.w, INIT, Supervise(SpawnOk)) == spawning;
    assert [spawning][0 := Spawned1()] == [Spawned1()];
    assert Next(u.w, spawning, Close(BeginClose)) == Spawned1();
    OneMorePStep(u, [], p0, Shutdown, p1);
    OneMorePStep(u, [] + [Shutdown], p1, OfWorker(0, Supervise(SpawnOk)), p2);
    OneMorePStep(u, [Shutdown] + [OfWorker(0, Supervise(SpawnOk))], p2, CloseOne,
                 ShuttingDown(Awaiting(0, false), Spawned1()));
  }

  /** And the grace is over before the spawn is. */
  const ILL_TIMED: seq<PStep> := TOLD_SPAWNING + [KillOne] + [OfWorker(0, Supervise(Install))]

  lemma IllTimedRuns(u: Setup, tr: seq<PStep>)
    requires PExec(u, tr) == Some(ShuttingDown(Awaiting(0, false), Spawned1()))
    ensures var more := tr + [KillOne] + [OfWorker(0, Supervise(Install))];
      && PExec(u, more) == Some(ShuttingDown(Awaiting(0, true), Served1()))
      && RunOf(u, more, 0) == RunOf(u, tr, 0) + [Close(Kill)] + [Supervise(Install)]
  {
    var p := ShuttingDown(Awaiting(0, true), Spawned1());
    OneMorePStep(u, tr, ShuttingDown(Awaiting(0, false), Spawned1()), KillOne, p);
    assert [Spawned1()][0 := Served1()] == [Served1()];
    OneMorePStep(u, tr + [KillOne], p, OfWorker(0, Supervise(Install)), ShuttingDown(Awaiting(0, true), Served1()));
  }

  lemma AloneThen(c: Config, run: seq<Step>)
    requires run == CLOSED_SPAWNING + [Close(Kill)] + [Supervise(Install)]
    ensures Exec(c, run) == Some(Served1()) && LeftAlone(c, run)
  {
    KillDuringSpawn(c);
  }

  /** Shutdown has no step until the worker it waits for stops. */
  ghost predicate Stuck(u: Setup, p: PState) {
    forall t: PStep :: t.Shutdown? || t.CloseOne? || t.KillOne? || t.AwaitOne? ==> !PEnabled(u, p, t)
  }

  lemma StuckThen(u: Setup)
    ensures Stuck(u, ShuttingDown(Awaiting(0, true), Served1()))
  {
  }

  /** It then waits for a worker whose process nobody has asked to stop or killed, and has no
      further step until that worker stops. */
  lemma ShutdownMayWait(u: Setup)
    requires u.size == 1
    ensures PExec(u, ILL_TIMED) == Some(ShuttingDown(Awaiting(0, true), Served1()))
    ensures Stuck(u, ShuttingDown(Awaiting(0, true), Served1()))
    ensures Exec(u.w, RunOf(u, ILL_TIMED, 0)) == Some(Served1()) && LeftAlone(u.w, RunOf(u, ILL_TIMED, 0))
  {
    ToldSpawningRuns(u);
    IllTimedRuns(u, TOLD_SPAWNING);
    AloneThen(u.w, RunOf(u, ILL_TIMED, 0));
    StuckThen(u);
  }
}
