/** The bounds written into the guards of the transition system never disable a step that
    the worker could take; and its supervisor always has one. */
module Guards {
  import opened Common
  import opened Lifecycle
  import opened Invariants
  import opened Reach
  import opened Emits

  /** Every process named anywhere has been spawned, and a read loop that publishes or
      answers an emit has read one: what the guards ask besides their real conditions. */
  ghost predicate InBounds(s: State) {
    && (s.sup.Exited? ==> s.sup.g < |s.procs|)
    && (s.sup.Reading? && s.sup.rd.Publishing? ==> s.emits != [])
    && (s.sup.Reading? && s.sup.rd.Acking? ==> s.sup.g < |s.procs| && s.emits != [])
    && (forall id :: id in s.flights ==> s.flights[id].g < |s.procs|)
    && (forall g :: g in s.stopReqs ==> g < |s.procs|)
  }

  /** In every reachable state those bounds hold, so that no guard is false for their sake. */
  lemma {:induction false} GuardsNeverBlock(c: Config, tr: seq<Step>)
    requires Exec(c, tr).Some?
    ensures InBounds(Exec(c, tr).value)
  {
    var s := Exec(c, tr).value;
    Reachable(c, tr);
    EmitsAccounted(c, tr);
    forall id | id in s.flights ensures s.flights[id].g < |s.procs| { assert Message(s, id); }
    forall g | g in s.stopReqs ensures g < |s.procs| { RunAsksRightly(c, tr, g); }
  }

  /** A step that waits for nothing the handler does. */
  predicate Unprompted(t: ReadStep) {
    t.Settle? || t.PublishResult? || t.AckEmit?
  }

  /** The supervisor goroutine has a step: of its own or of its read loop, unprompted by the
      handler; or the read loop is idle, waiting for the handler's next note or its exit. */
  ghost predicate Moves(s: State) {
    || (exists t :: t != ReadEnd && SupEnabled(s, t))
    || (exists t :: Unprompted(t) && ReadEnabled(s, t))
    || (ReaderIdle(s) && SupEnabled(s, ReadEnd) && forall id, ok :: ReadEnabled(s, Done(id, ok)))
  }

  /** Until it has stopped, it always has one, and only the handler can keep it waiting. With
      ClosingBoundsSupervisor: a closing worker whose handler sends only so many notes and
      exits does stop, if its goroutines get to run. */
  lemma {:induction false} SupervisorNeverStuck(c: Config, tr: seq<Step>)
    requires Exec(c, tr).Some? && !Exec(c, tr).value.sup.Stopped?
    ensures Moves(Exec(c, tr).value)
  {
    GuardsNeverBlock(c, tr);
    NeverStuck(Exec(c, tr).value);
  }

  lemma NeverStuck(s: State)
    requires InBounds(s) && !s.sup.Stopped?
    ensures Moves(s)
  {
    match s.sup
    case Spawning => assert SupEnabled(s, SpawnErr);
    case SpawnFailed => assert SupEnabled(s, CheckShutdown);
    case Backoff => assert SupEnabled(s, BackoffOver);
    case Installing(_) => assert SupEnabled(s, Install);
    case Exited(_) => assert SupEnabled(s, StopAfterExit);
    case Reaping(_) => assert SupEnabled(s, Reap);
    case Burying(stale, _) =>
      if stale == map[] {
        assert SupEnabled(s, BuryDone);
      } else {
        var id := AnElement(stale.Keys);
        assert SupEnabled(s, BuryOne(id));
      }
    case Stopping => assert SupEnabled(s, MarkStopped);
    case Reading(_, rd) =>
      match rd {
        case Idle => assert SupEnabled(s, ReadEnd);
        case Settling(_, _, _) => assert ReadEnabled(s, Settle);
        case Publishing(_, _) => assert ReadEnabled(s, PublishResult(true));
        case Acking(_, _) => assert ReadEnabled(s, AckEmit);
      }
  }
}
