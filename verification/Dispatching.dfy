/** What a Dispatch does for its caller: it is refused only with cause, and what it accepts it
    sends, unless its process stops or its context is cancelled first. */
module Dispatching {
  import opened Sections
  import opened Lifecycle
  import opened Invariants
  import opened Evolution
  import opened CrashSplit

  // -------------------------------------------------------------------- refusals

  /** A refused call had cause: the worker is closing or the call was cancelled. */
  predicate RefusedRightly(s: State, tok: nat) {
    tok in s.calls && s.calls[tok].Refused? ==> s.sh.closing || tok in s.cancelled
  }

  lemma CallRefusesRightly(c: Config, s: State, t: CallStep, tok: nat)
    requires CallEnabled(c, s, t) && RefusedRightly(s, tok)
    ensures RefusedRightly(CallNext(c, s, t), tok)
  {
    match t
    case Reclaim(x) => if x in s.sh.msgs {}
    case _ =>
  }

  lemma StepRefusesRightly(c: Config, s: State, t: Step, tok: nat)
    requires Enabled(c, s, t) && RefusedRightly(s, tok)
    ensures RefusedRightly(Next(c, s, t), tok)
  {
    StepEvolves(c, s, t);
    if t.Dispatch? { CallRefusesRightly(c, s, t.call, tok); }
  }

  lemma {:induction false} RefusedOnlyWithCause(c: Config, tr: seq<Step>, tok: nat)
    requires Exec(c, tr).Some?
    ensures RefusedRightly(Exec(c, tr).value, tok)
  {
    if tr != [] {
      RefusedOnlyWithCause(c, tr[..|tr| - 1], tok);
      StepRefusesRightly(c, Exec(c, tr[..|tr| - 1]).value, tr[|tr| - 1], tok);
    }
  }

  /** A cancelled call stays cancelled. */
  lemma {:induction false} CancelledForGood(c: Config, run: seq<Step>, i: nat, tok: nat)
    requires Exec(c, run).Some? && i < |run| && run[i] == Close(CancelCall(tok))
    ensures tok in Exec(c, run).value.cancelled
  {
    var before := run[..|run| - 1];
    if i < |before| {
      CancelledForGood(c, before, i, tok);
      StepEvolves(c, Exec(c, before).value, run[|run| - 1]);
    }
  }

  /** A call that is still waiting when it is cancelled, or when the worker closes. */
  predicate CalledOff(s: State, tok: nat) {
    && tok in s.calls && !s.calls[tok].Taken?
    && (s.sh.closing || tok in s.cancelled)
  }

  lemma CallStaysOff(c: Config, s: State, t: CallStep, tok: nat)
    requires CallEnabled(c, s, t) && CalledOff(s, tok)
    ensures CalledOff(CallNext(c, s, t), tok)
  {
    match t
    case Reclaim(x) => if x in s.sh.msgs {}
    case _ =>
  }

  lemma StepStaysOff(c: Config, s: State, t: Step, tok: nat)
    requires Enabled(c, s, t) && CalledOff(s, tok)
    ensures CalledOff(Next(c, s, t), tok)
  {
    StepEvolves(c, s, t);
    if t.Dispatch? { CallStaysOff(c, s, t.call, tok); }
  }

  lemma OffAfter(c: Config, run: seq<Step>, tok: nat)
    requires Exec(c, run).Some? && run != [] && CalledOff(Exec(c, run[..|run| - 1]).value, tok)
    ensures CalledOff(Exec(c, run).value, tok)
  {
    StepStaysOff(c, Exec(c, run[..|run| - 1]).value, run[|run| - 1], tok);
  }

  /** It never registers, however the run goes on. */
  lemma {:induction false} CalledOffForGood(c: Config, run: seq<Step>, k: nat, tok: nat)
    requires Exec(c, run).Some? && k <= |run|
    requires Exec(c, run[..k]).Some? && CalledOff(Exec(c, run[..k]).value, tok)
    ensures CalledOff(Exec(c, run).value, tok)
  {
    if k == |run| {
      assert run[..k] == run;
    } else {
      var before := run[..|run| - 1];
      assert before[..k] == run[..k];
      CalledOffForGood(c, before, k, tok);
      OffAfter(c, run, tok);
    }
  }

  // ----------------------------------------------------------------------- sends

  /** A registered message is still to be sent, or is queued for its process, or its send was
      refused, because the process was stopping or the call was cancelled; one of the three. */
  ghost predicate SentRightly(s: State, id: int, refused: bool) {
    && (id !in s.born ==> !refused && id !in s.flights)
    && (id in s.born ==>
          var g := s.born[id].g;
          && g < |s.procs|
          && (id in s.flights ==> s.flights[id].unsent == refused && !QueuedFor(s, g, id))
          && (id !in s.flights ==> (QueuedFor(s, g, id) <==> !refused))
          && (refused ==> s.procs[g].stop || s.born[id].tok in s.cancelled))
  }

  lemma StopsStay(c: Config, s: State, t: Step, u: State, g: nat)
    requires Frame(c, s, t, u) && g < |s.procs| && s.procs[g].stop
    ensures g < |u.procs| && u.procs[g].stop
  {
    assert Evolves(c, s, t, g, u.procs[g]);
  }

  lemma OthersSendNothing(c: Config, s: State, t: Step, u: State, id: int, refused: bool)
    requires Frame(c, s, t, u) && !t.Dispatch? && SentRightly(s, id, refused)
    ensures SentRightly(u, id, refused)
  {
    if id in s.born {
      var g := s.born[id].g;
      Queues(c, s, t, u, g, id);
      if s.procs[g].stop { StopsStay(c, s, t, u, g); }
    }
  }

  lemma RegistersRightly(c: Config, s: State, t: CallStep, id: int, refused: bool)
    requires Message(s, id) && Sending(s, id) && Global(c, s) && SentRightly(s, id, refused)
    requires CallEnabled(c, s, t) && t.Register?
    ensures SentRightly(CallNext(c, s, t), id, refused)
  {
    if t.id == id { assert !QueuedFor(s, s.sh.cur.value, id); }
  }

  lemma SendsRightly(c: Config, s: State, x: int, id: int, refused: bool)
    requires SentRightly(s, id, refused) && Message(s, x) && CallEnabled(c, s, SendOk(x))
    ensures SentRightly(CallNext(c, s, SendOk(x)), id, refused)
  {
    var u, g := CallNext(c, s, SendOk(x)), s.flights[x].g;
    if x == id {
      SendsTheNote(c, s, id);
    } else if id in s.born {
      var b := s.born[id].g;
      assert b != g ==> u.procs[b] == s.procs[b];
      assert b == g ==> u.procs[b].queued == s.procs[b].queued + [DeliverNote(x)];
    }
  }

  lemma RefusedIsMarked(c: Config, s: State, x: int, id: int, refused: bool)
    requires SentRightly(s, id, refused) && Message(s, id) && CallEnabled(c, s, SendFail(x))
    ensures SentRightly(CallNext(c, s, SendFail(x)), id, refused || x == id)
  {
    if x == id {}
  }

  lemma ReclaimsRightly(c: Config, s: State, x: int, id: int, refused: bool)
    requires SentRightly(s, id, refused) && CallEnabled(c, s, Reclaim(x))
    ensures SentRightly(CallNext(c, s, Reclaim(x)), id, refused)
  {
    if x in s.sh.msgs && x == id {}
  }

  lemma NeitherSends(c: Config, s: State, t: CallStep, id: int, refused: bool)
    requires SentRightly(s, id, refused) && CallEnabled(c, s, t) && (t.Offer? || t.Refuse? || t.Requeued?)
    ensures SentRightly(CallNext(c, s, t), id, refused)
  {
  }

  lemma CallSendsRightly(c: Config, s: State, t: CallStep, id: int, refused: bool)
    requires Inv(c, s) && Sending(s, id) && SentRightly(s, id, refused) && CallEnabled(c, s, t)
    ensures SentRightly(CallNext(c, s, t), id, refused || t == SendFail(id))
  {
    assert Message(s, id);
    match t
    case Register(_, _, _) => RegistersRightly(c, s, t, id, refused);
    case SendOk(x) =>
      assert Message(s, x);
      SendsRightly(c, s, x, id, refused);
    case SendFail(x) => RefusedIsMarked(c, s, x, id, refused);
    case Reclaim(x) => ReclaimsRightly(c, s, x, id, refused);
    case _ => NeitherSends(c, s, t, id, refused);
  }

  lemma SendsTheNote(c: Config, s: State, id: int)
    requires CallEnabled(c, s, SendOk(id))
    ensures QueuedFor(CallNext(c, s, SendOk(id)), s.flights[id].g, id)
  {
    var g := s.flights[id].g;
    var q := CallNext(c, s, SendOk(id)).procs[g].queued;
    assert q[|q| - 1] == DeliverNote(id);
  }

  lemma {:induction false} AcceptedIsSent(c: Config, tr: seq<Step>, id: int)
    requires Exec(c, tr).Some?
    ensures SentRightly(Exec(c, tr).value, id, Dispatch(SendFail(id)) in tr)
  {
    if tr != [] {
      var before, t := tr[..|tr| - 1], tr[|tr| - 1];
      var s := Exec(c, before).value;
      AcceptedIsSent(c, before, id);
      Reachable(c, before);
      RunSends(c, before, id);
      assert tr == before + [t];
      if t.Dispatch? {
        CallSendsRightly(c, s, t.call, id, Dispatch(SendFail(id)) in before);
      } else {
        StepEvolves(c, s, t);
        OthersSendNothing(c, s, t, Next(c, s, t), id, Dispatch(SendFail(id)) in before);
      }
    }
  }
}
