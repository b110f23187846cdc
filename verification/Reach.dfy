/** What the two halves of Shutdown reach: the close that asks a worker's process to stop, and
    the kill once the grace is over. Each acts on the process it finds, if it finds one. */
module Reach {
  import opened Sections
  import opened Lifecycle
  import opened Invariants
  import opened Evolution
  import opened Closing

  /** Somebody has asked the process `g` to stop, or has set out to. */
  predicate AskedToStop(s: State, g: nat) {
    g in s.stopReqs || (g < |s.procs| && s.procs[g].stop)
  }

  /** Some step `what`, a close or a kill, of the run found the process `g` current. */
  ghost predicate FoundBy(c: Config, tr: seq<Step>, what: CloseStep, g: nat) {
    tr != [] &&
    var before, t := tr[..|tr| - 1], tr[|tr| - 1];
    FoundBy(c, before, what, g) || (Exec(c, before).Some? && Finds(Exec(c, before).value, t, what, g))
  }

  predicate Finds(s: State, t: Step, what: CloseStep, g: nat) {
    t == Close(what) && s.sh.cur == Some(g)
  }

  /** The process `g` was spawned, and is neither waiting to be served nor served. */
  predicate Past(s: State, g: nat) {
    g < |s.procs| && s.sup != Installing(g) && ServedBy(s.sup) != Some(g)
  }

  predicate BeingRead(s: State, g: nat) {
    s.sup == Installing(g) || (s.sup.Reading? && s.sup.g == g) || s.sup == Exited(g)
  }

  /** A process that a close found is asked to stop, and is served or past; any other is
      asked only once its read loop has ended, by the supervisor itself. */
  predicate AskedRightly(s: State, g: nat, found: bool) {
    && (found ==> AskedToStop(s, g) && (ServedBy(s.sup) == Some(g) || Past(s, g)))
    && (AskedToStop(s, g) && !found ==> g < |s.procs| && !BeingRead(s, g))
  }

  lemma SupAsksRightly(c: Config, s: State, t: SupStep, g: nat, found: bool)
    requires Global(c, s) && AskedRightly(s, g, found) && SupEnabled(s, t)
    ensures AskedRightly(SupNext(s, t), g, found)
  {
  }

  lemma ReadAsksRightly(c: Config, s: State, t: ReadStep, g: nat, found: bool)
    requires AskedRightly(s, g, found) && ReadEnabled(s, t)
    ensures AskedRightly(ReadNext(c, s, t), g, found)
  {
    match t
    case Pickup(x) => if x in s.sh.msgs {}
    case Done(x, _) => if x in s.sh.msgs {}
    case _ =>
  }

  lemma CallAsksRightly(c: Config, s: State, t: CallStep, g: nat, found: bool)
    requires AskedRightly(s, g, found) && CallEnabled(c, s, t)
    ensures AskedRightly(CallNext(c, s, t), g, found)
  {
    match t
    case Reclaim(x) => if x in s.sh.msgs {}
    case _ =>
  }

  lemma TimerAsksRightly(s: State, t: TimerStep, g: nat, found: bool)
    requires AskedRightly(s, g, found) && TimerEnabled(s, t)
    ensures AskedRightly(TimerNext(s, t), g, found)
  {
    match t
    case Section(x) => if x in s.sh.msgs {}
    case _ =>
  }

  lemma CloseAsksRightly(c: Config, s: State, t: CloseStep, g: nat, found: bool)
    requires Global(c, s) && AskedRightly(s, g, found) && CloseEnabled(s, t)
    ensures AskedRightly(CloseNext(s, t), g, found || Finds(s, Close(t), BeginClose, g))
  {
  }

  lemma WriterAsksRightly(c: Config, s: State, t: Step, g: nat, found: bool)
    requires AskedRightly(s, g, found) && Enabled(c, s, t) && t.Write?
    ensures AskedRightly(Next(c, s, t), g, found)
  {
  }

  lemma StepAsksRightly(c: Config, s: State, t: Step, g: nat, found: bool)
    requires Global(c, s) && AskedRightly(s, g, found) && Enabled(c, s, t)
    ensures AskedRightly(Next(c, s, t), g, found || Finds(s, t, BeginClose, g))
  {
    match t
    case Supervise(u) => SupAsksRightly(c, s, u, g, found);
    case Read(u) => ReadAsksRightly(c, s, u, g, found);
    case Dispatch(u) => CallAsksRightly(c, s, u, g, found);
    case Time(u) => TimerAsksRightly(s, u, g, found);
    case Close(u) => CloseAsksRightly(c, s, u, g, found);
    case Write(_, u) => WriterAsksRightly(c, s, t, g, found);
  }

  lemma {:induction false} RunAsksRightly(c: Config, tr: seq<Step>, g: nat)
    requires Exec(c, tr).Some?
    ensures AskedRightly(Exec(c, tr).value, g, FoundBy(c, tr, BeginClose, g))
  {
    if tr != [] {
      var before := tr[..|tr| - 1];
      Reachable(c, before);
      RunAsksRightly(c, before, g);
      StepAsksRightly(c, Exec(c, before).value, tr[|tr| - 1], g, FoundBy(c, before, BeginClose, g));
    }
  }

  /** In every run, the process whose notes are being read is asked to stop exactly if some
      close found it: a close that comes during its spawn never reaches it. */
  lemma AskedExactlyIfFound(c: Config, tr: seq<Step>)
    requires Exec(c, tr).Some? && Exec(c, tr).value.sup.Reading?
    ensures var s := Exec(c, tr).value;
      AskedToStop(s, s.sup.g) <==> FoundBy(c, tr, BeginClose, s.sup.g)
  {
    RunAsksRightly(c, tr, Exec(c, tr).value.sup.g);
  }

  lemma PastStaysPast(c: Config, s: State, t: Step, g: nat)
    requires Global(c, s) && Past(s, g) && Enabled(c, s, t)
    ensures Past(Next(c, s, t), g)
  {
    StepEvolves(c, s, t);
    if t.Supervise? {
      SupStaysPast(c, s, t.sup, g);
    } else if t.Read? {
      ReadStaysPast(c, s, t.read, g);
    }
  }

  lemma SupStaysPast(c: Config, s: State, t: SupStep, g: nat)
    requires Global(c, s) && Past(s, g) && SupEnabled(s, t)
    ensures Past(SupNext(s, t), g)
  {
  }

  lemma ReadStaysPast(c: Config, s: State, t: ReadStep, g: nat)
    requires Past(s, g) && ReadEnabled(s, t)
    ensures Past(ReadNext(c, s, t), g)
  {
    match t
    case Done(x, _) => if x in s.sh.msgs {}
    case _ =>
  }

  lemma {:induction false} PastForever(c: Config, run: seq<Step>, k: nat, g: nat)
    requires Exec(c, run).Some? && k <= |run|
    requires Exec(c, run[..k]).Some? && Past(Exec(c, run[..k]).value, g)
    ensures Past(Exec(c, run).value, g)
  {
    if k == |run| {
      assert run[..k] == run;
    } else {
      var before := run[..|run| - 1];
      assert before[..k] == run[..k];
      PastForever(c, before, k, g);
      PastAfter(c, run, g);
    }
  }

  lemma PastAfter(c: Config, tr: seq<Step>, g: nat)
    requires Exec(c, tr).Some? && tr != [] && Past(Exec(c, tr[..|tr| - 1]).value, g)
    ensures Past(Exec(c, tr).value, g)
  {
    Reachable(c, tr[..|tr| - 1]);
    PastStaysPast(c, Exec(c, tr[..|tr| - 1]).value, tr[|tr| - 1], g);
  }

  /** A process whose read loop has ended and that is past has been told to stop, so that its
      writer drains and closes its stdin. */
  predicate StoppedIfPast(s: State, g: nat) {
    g < |s.procs| && (Past(s, g) || s.sup == Reaping(g)) ==> s.procs[g].stop
  }

  lemma SupStopsPast(c: Config, s: State, t: SupStep, g: nat)
    requires Global(c, s) && StoppedIfPast(s, g) && SupEnabled(s, t)
    ensures StoppedIfPast(SupNext(s, t), g)
  {
  }

  lemma OthersStopPast(c: Config, s: State, t: Step, u: State, g: nat)
    requires Frame(c, s, t, u) && !t.Supervise? && !t.Read? && StoppedIfPast(s, g)
    ensures StoppedIfPast(u, g)
  {
    if g < |s.procs| { assert Evolves(c, s, t, g, u.procs[g]); }
  }

  lemma ReadStopsPast(c: Config, s: State, t: ReadStep, g: nat)
    requires StoppedIfPast(s, g) && ReadEnabled(s, t)
    ensures StoppedIfPast(ReadNext(c, s, t), g)
  {
    match t
    case Pickup(x) => if x in s.sh.msgs {}
    case Done(x, _) => if x in s.sh.msgs {}
    case _ =>
  }

  lemma StepStopsPast(c: Config, s: State, t: Step, g: nat)
    requires Global(c, s) && StoppedIfPast(s, g) && Enabled(c, s, t)
    ensures StoppedIfPast(Next(c, s, t), g)
  {
    match t
    case Supervise(u) => SupStopsPast(c, s, u, g);
    case Read(u) => ReadStopsPast(c, s, u, g);
    case _ =>
      StepEvolves(c, s, t);
      OthersStopPast(c, s, t, Next(c, s, t), g);
  }

  lemma {:induction false} PastIsStopped(c: Config, tr: seq<Step>, g: nat)
    requires Exec(c, tr).Some?
    ensures StoppedIfPast(Exec(c, tr).value, g)
  {
    if tr != [] {
      Reachable(c, tr[..|tr| - 1]);
      PastIsStopped(c, tr[..|tr| - 1], g);
      StepStopsPast(c, Exec(c, tr[..|tr| - 1]).value, tr[|tr| - 1], g);
    }
  }

  /** And a writer that was told to stop is done, or has a step: it never waits. */
  lemma StoppedWriterMoves(p: Proc)
    requires p.stop && !p.writer.Closed?
    ensures exists w :: WriteEnabled(p, w)
  {
    match p.writer
    case Writing(_, _) => assert WriteEnabled(p, WriteNote(true));
    case Looping(draining) =>
      if p.out != [] {
        assert WriteEnabled(p, Take);
      } else if draining {
        assert WriteEnabled(p, CloseStdin);
      } else {
        assert WriteEnabled(p, SeeStop);
      }
    case _ =>
  }

  /** A process once found is served, or past for good. */
  lemma {:induction false} FoundIsServedOrPast(c: Config, run: seq<Step>, what: CloseStep, g: nat)
    requires Exec(c, run).Some? && FoundBy(c, run, what, g)
    ensures ServedBy(Exec(c, run).value.sup) == Some(g) || Past(Exec(c, run).value, g)
  {
    var before := run[..|run| - 1];
    var s, t := Exec(c, before).value, run[|run| - 1];
    Reachable(c, before);
    if FoundBy(c, before, what, g) { FoundIsServedOrPast(c, before, what, g); }
    StaysServedOrPast(c, s, t, g);
  }

  lemma StaysServedOrPast(c: Config, s: State, t: Step, g: nat)
    requires Global(c, s) && Enabled(c, s, t) && (ServedBy(s.sup) == Some(g) || Past(s, g))
    ensures ServedBy(Next(c, s, t).sup) == Some(g) || Past(Next(c, s, t), g)
  {
    if Past(s, g) {
      PastStaysPast(c, s, t, g);
    } else if t.Supervise? {
      ServedIsServedOrPast(c, s, t.sup, g);
    } else if t.Read? {
      ReadStaysServed(c, s, t.read, g);
    } else {
      StepEvolves(c, s, t);
    }
  }

  lemma ServedIsServedOrPast(c: Config, s: State, t: SupStep, g: nat)
    requires Global(c, s) && SupEnabled(s, t) && ServedBy(s.sup) == Some(g)
    ensures ServedBy(SupNext(s, t).sup) == Some(g) || Past(SupNext(s, t), g)
  {
  }

  lemma ReadStaysServed(c: Config, s: State, t: ReadStep, g: nat)
    requires ReadEnabled(s, t) && ServedBy(s.sup) == Some(g)
    ensures ServedBy(ReadNext(c, s, t).sup) == Some(g)
  {
    match t
    case Done(x, _) => if x in s.sh.msgs {}
    case _ =>
  }

  /** The last step `what` of a run is its step `i`. */
  predicate IsLast(run: seq<Step>, i: nat, what: CloseStep) {
    i < |run| && run[i] == Close(what) && forall k :: i < k < |run| ==> run[k] != Close(what)
  }

  /** Found by some step of the run, then by the last or before it. */
  lemma {:induction false} LastOrEarlier(c: Config, run: seq<Step>, i: nat, what: CloseStep, g: nat)
    requires Exec(c, run).Some? && IsLast(run, i, what) && Exec(c, run[..i]).Some?
    ensures FoundBy(c, run, what, g) <==>
            FoundBy(c, run[..i], what, g) || Exec(c, run[..i]).value.sh.cur == Some(g)
  {
    var before := run[..|run| - 1];
    if i < |before| {
      assert before[..i] == run[..i];
      LastOrEarlier(c, before, i, what, g);
    } else {
      assert before == run[..i];
    }
  }

  /** A process being served at the end of a run was found by some such step exactly if it
      was current when the last of them came. */
  lemma FoundByTheLast(c: Config, run: seq<Step>, i: nat, what: CloseStep, g: nat)
    requires Exec(c, run).Some? && IsLast(run, i, what) && ServedBy(Exec(c, run).value.sup) == Some(g)
    ensures Exec(c, run[..i]).Some?
    ensures FoundBy(c, run, what, g) <==> Exec(c, run[..i]).value.sh.cur == Some(g)
  {
    Prefix(c, run, i);
    LastOrEarlier(c, run, i, what, g);
    Reachable(c, run[..i]);
    if FoundBy(c, run[..i], what, g) && Exec(c, run[..i]).value.sh.cur != Some(g) {
      FoundIsServedOrPast(c, run[..i], what, g);
      PastForever(c, run, i, g);
    }
  }

  /** However a run goes on after a close that is the last, a process being read is asked to
      stop exactly if that close found it; in particular never, if it found none. */
  lemma CloseReachesExactly(c: Config, tr: seq<Step>, later: seq<Step>)
    requires var run := tr + [Close(BeginClose)] + later;
      Exec(c, run).Some? && Exec(c, run).value.sup.Reading?
    requires Close(BeginClose) !in later
    ensures Exec(c, tr).Some?
    ensures var u := Exec(c, tr + [Close(BeginClose)] + later).value;
      AskedToStop(u, u.sup.g) <==> Exec(c, tr).value.sh.cur == Some(u.sup.g)
  {
    var run := tr + [Close(BeginClose)] + later;
    assert run[..|tr|] == tr;
    assert IsLast(run, |tr|, BeginClose);
    AskedExactlyIfFound(c, run);
    FoundByTheLast(c, run, |tr|, BeginClose, Exec(c, run).value.sup.g);
  }

  /** And however it goes on after a kill that is the last, a process being read was killed
      exactly if that kill found it. */
  lemma KillReachesExactly(c: Config, tr: seq<Step>, later: seq<Step>)
    requires var run := tr + [Close(Kill)] + later;
      Exec(c, run).Some? && Exec(c, run).value.sup.Reading?
    requires Close(Kill) !in later
    ensures Exec(c, tr).Some?
    ensures var run := tr + [Close(Kill)] + later;
      var u := Exec(c, run).value;
      FoundBy(c, run, Kill, u.sup.g) <==> Exec(c, tr).value.sh.cur == Some(u.sup.g)
  {
    var run := tr + [Close(Kill)] + later;
    assert run[..|tr|] == tr;
    assert IsLast(run, |tr|, Kill);
    FoundByTheLast(c, run, |tr|, Kill, Exec(c, run).value.sup.g);
  }

  /** The process being read has neither been asked to stop nor killed. */
  ghost predicate LeftAlone(c: Config, run: seq<Step>)
    requires Exec(c, run).Some?
  {
    var s := Exec(c, run).value;
    s.sup.Reading? && !AskedToStop(s, s.sup.g) && !FoundBy(c, run, Kill, s.sup.g)
  }

  /** After the last close and the last kill, the process being read is left alone exactly
      if neither of the two found it. */
  lemma LeftAloneExactly(c: Config, run: seq<Step>, i: nat, j: nat)
    requires Exec(c, run).Some? && Exec(c, run).value.sup.Reading?
    requires IsLast(run, i, BeginClose) && IsLast(run, j, Kill)
    ensures Exec(c, run[..i]).Some? && Exec(c, run[..j]).Some?
    ensures var g := Exec(c, run).value.sup.g;
      LeftAlone(c, run) <==>
        Exec(c, run[..i]).value.sh.cur != Some(g) && Exec(c, run[..j]).value.sh.cur != Some(g)
  {
    var g := Exec(c, run).value.sup.g;
    AskedExactlyIfFound(c, run);
    FoundByTheLast(c, run, i, BeginClose, g);
    FoundByTheLast(c, run, j, Kill, g);
  }

  /** An ending worker that is past its last install, and serves `g0` or nothing. */
  predicate ServesNothingElse(s: State, g0: nat) {
    Ending(s) && InstallsLeft(s.sup) == 0 && (ServedBy(s.sup).None? || ServedBy(s.sup) == Some(g0))
  }

  lemma SupServesNothingElse(s: State, t: SupStep, g0: nat)
    requires ServesNothingElse(s, g0) && SupEnabled(s, t)
    ensures ServedBy(SupNext(s, t).sup).None? || ServedBy(SupNext(s, t).sup) == Some(g0)
  {
  }

  lemma StepServesNothingElse(c: Config, s: State, t: Step, g0: nat)
    requires Global(c, s) && ServesNothingElse(s, g0) && Enabled(c, s, t)
    ensures ServesNothingElse(Next(c, s, t), g0)
  {
    EndingStep(c, s, t);
    if t.Supervise? {
      SupServesNothingElse(s, t.sup, g0);
    } else if t.Read? {
      ReadStaysServed(c, s, t.read, g0);
    } else {
      StepEvolves(c, s, t);
    }
  }

  lemma ServesNothingElseAfter(c: Config, run: seq<Step>, g0: nat)
    requires Exec(c, run).Some? && run != [] && ServesNothingElse(Exec(c, run[..|run| - 1]).value, g0)
    ensures ServesNothingElse(Exec(c, run).value, g0)
  {
    Reachable(c, run[..|run| - 1]);
    StepServesNothingElse(c, Exec(c, run[..|run| - 1]).value, run[|run| - 1], g0);
  }

  lemma {:induction false} ServesNothingElseFrom(c: Config, run: seq<Step>, k: nat, g0: nat)
    requires Exec(c, run).Some? && k <= |run|
    requires Exec(c, run[..k]).Some? && ServesNothingElse(Exec(c, run[..k]).value, g0)
    ensures ServesNothingElse(Exec(c, run).value, g0)
  {
    if k == |run| {
      assert run[..k] == run;
    } else {
      var before := run[..|run| - 1];
      assert before[..k] == run[..k];
      ServesNothingElseFrom(c, before, k, g0);
      ServesNothingElseAfter(c, run, g0);
    }
  }

  lemma ServedFrom(c: Config, run: seq<Step>, j: nat, g0: nat, g: nat)
    requires Exec(c, run).Some? && j <= |run| && Exec(c, run[..j]).Some?
    requires ServesNothingElse(Exec(c, run[..j]).value, g0)
    requires ServedBy(Exec(c, run).value.sup) == Some(g)
    ensures g == g0
  {
    ServesNothingElseFrom(c, run, j, g0);
  }

  lemma ServingAndClosing(c: Config, s: State)
    requires Global(c, s) && s.sh.closing && s.sh.cur.Some?
    ensures ServesNothingElse(s, s.sh.cur.value)
  {
  }

  /** What a worker serves at a step after a close is all it ever serves from then on. */
  lemma ServedAfterClose(c: Config, run: seq<Step>, i: nat, j: nat, g: nat)
    requires Exec(c, run).Some? && i < j <= |run| && run[i] == Close(BeginClose)
    requires Exec(c, run[..j]).Some? && Exec(c, run[..j]).value.sh.cur.Some?
    requires ServedBy(Exec(c, run).value.sup) == Some(g)
    ensures Exec(c, run[..j]).value.sh.cur == Some(g)
  {
    var s := Exec(c, run[..j]).value;
    assert run[..j][i] == Close(BeginClose);
    EndsForGood(c, run[..j], i);
    Reachable(c, run[..j]);
    ServingAndClosing(c, s);
    ServedFrom(c, run, j, s.sh.cur.value, g);
  }

  /** And so is what it serves when the close comes. */
  lemma ServedAtClose(c: Config, run: seq<Step>, i: nat, g: nat)
    requires Exec(c, run).Some? && i < |run| && run[i] == Close(BeginClose)
    requires Exec(c, run[..i]).Some? && Exec(c, run[..i]).value.sh.cur.Some?
    requires ServedBy(Exec(c, run).value.sup) == Some(g)
    ensures Exec(c, run[..i]).value.sh.cur == Some(g)
  {
    Prefix(c, run, i + 1);
    CloseKeepsCurrent(c, run[..i + 1], run[..i]);
    ServedAfterClose(c, run, i, i + 1, g);
  }

  lemma CloseKeepsCurrent(c: Config, closed: seq<Step>, before: seq<Step>)
    requires closed != [] && closed[|closed| - 1] == Close(BeginClose) && Exec(c, closed).Some?
    requires before == closed[..|closed| - 1]
    ensures Exec(c, before).Some? && Exec(c, closed).value.sh.cur == Exec(c, before).value.sh.cur
  {
  }

  /** When the last close comes before the last kill, as in Shutdown: a process being read
      afterwards is left alone exactly if there was no process at all at either. */
  lemma LeftAloneIfNoneFound(c: Config, run: seq<Step>, i: nat, j: nat)
    requires Exec(c, run).Some? && Exec(c, run).value.sup.Reading?
    requires IsLast(run, i, BeginClose) && IsLast(run, j, Kill) && i < j
    ensures Exec(c, run[..i]).Some? && Exec(c, run[..j]).Some?
    ensures LeftAlone(c, run) <==> Exec(c, run[..i]).value.sh.cur.None? && Exec(c, run[..j]).value.sh.cur.None?
  {
    var g := Exec(c, run).value.sup.g;
    LeftAloneExactly(c, run, i, j);
    if Exec(c, run[..i]).value.sh.cur.Some? { ServedAtClose(c, run, i, g); }
    if Exec(c, run[..j]).value.sh.cur.Some? { ServedAfterClose(c, run, i, j, g); }
  }

  /** And a process that a close found stays asked for the rest of the run. */
  lemma FoundProcessStaysAsked(c: Config, tr: seq<Step>, later: seq<Step>)
    requires var run := tr + [Close(BeginClose)] + later;
      Exec(c, tr).Some? && Exec(c, run).Some? && Exec(c, tr).value.sh.cur.Some?
    ensures AskedToStop(Exec(c, tr + [Close(BeginClose)] + later).value, Exec(c, tr).value.sh.cur.value)
  {
    var run, g := tr + [Close(BeginClose)] + later, Exec(c, tr).value.sh.cur.value;
    assert run[..|tr|] == tr;
    StaysFound(c, run, |tr|, BeginClose, g);
    RunAsksRightly(c, run, g);
  }

  lemma {:induction false} StaysFound(c: Config, run: seq<Step>, i: nat, what: CloseStep, g: nat)
    requires i < |run| && run[i] == Close(what)
    requires Exec(c, run[..i]).Some? && Exec(c, run[..i]).value.sh.cur == Some(g)
    ensures FoundBy(c, run, what, g)
  {
    var before := run[..|run| - 1];
    if i < |before| {
      assert before[..i] == run[..i];
      StaysFound(c, before, i, what, g);
    } else {
      assert before == run[..i];
    }
  }

  // ------------------------------------------------------------------ three runs

  const CLOSED_SPAWNING: seq<Step> := [Supervise(SpawnOk)] + [Close(BeginClose)]

  function Spawned1(): State {
    INIT.(sup := Installing(0), procs := [NEW_PROC], sh := Sections.Closing(INIT.sh))
  }

  function Served1(): State {
    Spawned1().(sup := Reading(0, Idle), sh := Installed(Sections.Closing(INIT.sh), 0))
  }

  lemma ClosedSpawningRuns(c: Config)
    ensures Exec(c, CLOSED_SPAWNING) == Some(Spawned1())
  {
    var s1 := INIT.(sup := Installing(0), procs := [NEW_PROC]);
    OneMoreTo(c, [], INIT, Supervise(SpawnOk), s1);
    OneMoreTo(c, [] + [Supervise(SpawnOk)], s1, Close(BeginClose), Spawned1());
  }

  /** A worker that is closed while it spawns goes on to serve a process that was not asked
      to stop; a kill that comes then does find it. */
  lemma CloseDuringSpawn(c: Config)
    ensures var run := CLOSED_SPAWNING + [Supervise(Install)];
      && Exec(c, run) == Some(Served1()) && LeftAlone(c, run)
      && Exec(c, run + [Close(Kill)]).Some? && FoundBy(c, run + [Close(Kill)], Kill, 0)
  {
    ClosedSpawningRuns(c);
    var run := CLOSED_SPAWNING + [Supervise(Install)];
    OneMoreTo(c, CLOSED_SPAWNING, Spawned1(), Supervise(Install), Served1());
    OneMore(c, run, Close(Kill));
    NeverKilled(c, run, 0);
    assert (run + [Close(Kill)])[..|run|] == run;
    StaysFound(c, run + [Close(Kill)], |run|, Kill, 0);
  }

  lemma {:induction false} NeverKilled(c: Config, run: seq<Step>, g: nat)
    requires Close(Kill) !in run
    ensures !FoundBy(c, run, Kill, g)
  {
    if run != [] { NeverKilled(c, run[..|run| - 1], g); }
  }

  /** But one whose kill, too, comes before the spawn is over is left with a process that
      nobody has asked to stop or killed: whether it ever stops is up to the handler. */
  lemma KillDuringSpawn(c: Config)
    ensures var run := CLOSED_SPAWNING + [Close(Kill)] + [Supervise(Install)];
      Exec(c, run) == Some(Served1()) && LeftAlone(c, run)
  {
    ClosedSpawningRuns(c);
    var killed := CLOSED_SPAWNING + [Close(Kill)];
    var run := killed + [Supervise(Install)];
    OneMoreTo(c, CLOSED_SPAWNING, Spawned1(), Close(Kill), Spawned1());
    OneMoreTo(c, killed, Spawned1(), Supervise(Install), Served1());
    assert run[..1] == [] + [Supervise(SpawnOk)] && run[..2] == CLOSED_SPAWNING;
    OneMoreTo(c, [], INIT, Supervise(SpawnOk), INIT.(sup := Installing(0), procs := [NEW_PROC]));
    LeftAloneExactly(c, run, 1, 2);
  }
}
