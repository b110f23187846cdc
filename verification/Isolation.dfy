/** What a late note or timer does, or one that belongs to another process: nothing. */
module Isolation {
  import opened Sections
  import opened Lifecycle
  import opened Invariants
  import opened Evolution
  import opened Disposition

  /** The message a note, a timer section or a reclaim names. */
  function Names(t: Step): Option<int> {
    match t
    case Read(u) =>
      (match u
       case Pickup(id) => Some(id)
       case Done(id, _) => Some(id)
       case EmitNote(e) => Some(e.deliver)
       case _ => None)
    case Time(u) => if u.Section? then Some(u.id) else None
    case Dispatch(u) => if u.Reclaim? then Some(u.id) else None
    case _ => None
  }

  /** The message was never registered, or was registered against another process. */
  ghost predicate Foreign(s: State, id: int) {
    id !in s.born || s.sh.cur != Some(s.born[id].g)
  }

  /** The map is empty without a process, and holds only what was registered against the
      process now being served. */
  lemma EntriesBelongToCurrent(c: Config, s: State)
    requires Inv(c, s)
    ensures s.sh.cur.None? ==> s.sh.msgs == map[]
    ensures forall id :: id in s.sh.msgs ==> !Foreign(s, id)
  {
    forall id | id in s.sh.msgs ensures !Foreign(s, id) { assert Message(s, id); }
    if s.sh.cur.None? { assert forall id :: id in s.sh.msgs ==> false; }
  }

  /** Nothing is settled, claimed or marked. */
  ghost predicate NothingClaimed(s: State, u: State) {
    u.sh == s.sh && u.called == s.called && u.nacking == s.nacking && u.requeueing == s.requeueing
  }

  lemma LateNoteIgnored(c: Config, s: State, t: ReadStep, id: int)
    requires ReadEnabled(s, t) && Names(Read(t)) == Some(id) && id !in s.sh.msgs
    ensures var u := ReadNext(c, s, t);
      && NothingClaimed(s, u)
      && (if t.EmitNote? then u.emits == s.emits + [EmitRead(t.e, [])] else u.sup == s.sup)
  {
  }

  lemma LateSectionIgnored(s: State, id: int)
    requires TimerEnabled(s, Section(id)) && id !in s.sh.msgs
    ensures NothingClaimed(s, TimerNext(s, Section(id)))
  {
  }

  lemma LateReclaimIgnored(c: Config, s: State, id: int)
    requires CallEnabled(c, s, Reclaim(id)) && id !in s.sh.msgs
    ensures NothingClaimed(s, CallNext(c, s, Reclaim(id)))
  {
  }

  /** A done, a pickup, an emit, a timer or a reclaim that names a message no longer in the
      map settles nothing, marks nothing and borrows no chain. */
  lemma LateIsIgnored(c: Config, s: State, t: Step, id: int)
    requires Enabled(c, s, t) && Names(t) == Some(id) && id !in s.sh.msgs
    ensures var u := Next(c, s, t);
      && NothingClaimed(s, u)
      && (t.Read? ==> if t.read.EmitNote? then u.emits == s.emits + [EmitRead(t.read.e, [])] else u.sup == s.sup)
  {
    if t.Read? {
      LateNoteIgnored(c, s, t.read, id);
    } else if t.Time? {
      LateSectionIgnored(s, id);
    } else {
      LateReclaimIgnored(c, s, id);
    }
  }

  /** In particular one that was decided before, and one of another process. */
  lemma {:induction false} DecidedOrForeignIsGone(c: Config, tr: seq<Step>, id: int)
    requires Exec(c, tr).Some?
    requires FateOf(tr, id).Decided? || Foreign(Exec(c, tr).value, id)
    ensures id !in Exec(c, tr).value.sh.msgs
  {
    Reachable(c, tr);
    RunAgrees(c, tr, id);
    assert Invariants.Message(Exec(c, tr).value, id);
  }

  /** What the other messages have: their entries, their callbacks pending, and all the
      callbacks made. */
  ghost predicate OthersKept(s: State, u: State, id: int) {
    && u.called == s.called
    && forall other :: other != id ==> OneKept(s, u, other)
  }

  ghost predicate OneKept(s: State, u: State, x: int) {
    && (x in u.sh.msgs <==> x in s.sh.msgs)
    && (x in s.sh.msgs ==> u.sh.msgs[x] == s.sh.msgs[x])
    && (ReaderHolds(u, x) <==> ReaderHolds(s, x)) && (ReaderHolds(s, x) ==> u.sup.rd.ok == s.sup.rd.ok)
    && (DeathHolds(u, x) <==> DeathHolds(s, x)) && (DeathHolds(s, x) ==> u.sup.stale[x] == s.sup.stale[x])
    && (x in u.nacking <==> x in s.nacking) && (x in u.requeueing <==> x in s.requeueing)
  }

  /** And what it names is all it can touch: it makes no callback, and changes no other
      message's entry nor who is to make its callback, or which. */
  lemma OnlyTheNamed(c: Config, s: State, t: Step, id: int)
    requires Enabled(c, s, t) && Names(t) == Some(id)
    ensures OthersKept(s, Next(c, s, t), id)
  {
    OtherKept(c, s, t, id, id + 1);
    forall other | other != id ensures OneKept(s, Next(c, s, t), other) { OtherKept(c, s, t, id, other); }
  }

  lemma OtherKept(c: Config, s: State, t: Step, id: int, other: int)
    requires Enabled(c, s, t) && Names(t) == Some(id) && other != id
    ensures Next(c, s, t).called == s.called && OneKept(s, Next(c, s, t), other)
  {
    if t.Read? {
      NoteTouchesNamed(c, s, t.read, id, other);
    } else if t.Time? {
      TimerTouchesNamed(s, id, other);
    } else {
      ReclaimTouchesNamed(c, s, id, other);
    }
  }

  lemma NoteTouchesNamed(c: Config, s: State, t: ReadStep, id: int, other: int)
    requires ReadEnabled(s, t) && Names(Read(t)) == Some(id) && other != id
    ensures ReadNext(c, s, t).called == s.called && OneKept(s, ReadNext(c, s, t), other)
  {
    if id in s.sh.msgs {}
  }

  lemma ReclaimTouchesNamed(c: Config, s: State, id: int, other: int)
    requires CallEnabled(c, s, Reclaim(id)) && other != id
    ensures CallNext(c, s, Reclaim(id)).called == s.called && OneKept(s, CallNext(c, s, Reclaim(id)), other)
  {
    if id in s.sh.msgs {}
  }

  lemma TimerTouchesNamed(s: State, id: int, other: int)
    requires TimerEnabled(s, Section(id)) && other != id
    ensures TimerNext(s, Section(id)).called == s.called && OneKept(s, TimerNext(s, Section(id)), other)
  {
    if id in s.sh.msgs {}
  }

  /** Over a run: a step that names a message already decided, or never registered against the
      process now served, changes no entry and no mark, claims nothing, makes no callback and
      lends no chain, whatever message it may be about; and no message's fate moves. */
  lemma {:induction false} LateStepsChangeNothing(c: Config, tr: seq<Step>, t: Step, id: int, other: int)
    requires Exec(c, tr).Some? && Enabled(c, Exec(c, tr).value, t) && Names(t) == Some(id)
    requires FateOf(tr, id).Decided? || Foreign(Exec(c, tr).value, id)
    ensures var s, u := Exec(c, tr).value, Next(c, Exec(c, tr).value, t);
      && NothingClaimed(s, u) && OneKept(s, u, other)
      && (t.Read? && t.read.EmitNote? ==> u.emits == s.emits + [EmitRead(t.read.e, [])])
      && FateOf(tr + [t], other) == FateOf(tr, other)
  {
    var s := Exec(c, tr).value;
    DecidedOrForeignIsGone(c, tr, id);
    LateIsIgnored(c, s, t, id);
    LateKeeps(c, s, t, id, other);
    Reachable(c, tr);
    RunAgrees(c, tr, id);
    assert (tr + [t])[..|tr|] == tr;
    FateStays(s, t, id, other, FateOf(tr, other), FateOf(tr, id));
  }

  lemma LateKeeps(c: Config, s: State, t: Step, id: int, other: int)
    requires Enabled(c, s, t) && Names(t) == Some(id) && id !in s.sh.msgs
    ensures OneKept(s, Next(c, s, t), other)
  {
    if other != id {
      OtherKept(c, s, t, id, other);
    } else if t.Read? {
      LateNoteKeeps(c, s, t.read, id);
    } else if t.Time? {
      LateSectionIgnored(s, id);
    } else {
      LateReclaimIgnored(c, s, id);
    }
  }

  lemma LateNoteKeeps(c: Config, s: State, t: ReadStep, id: int)
    requires ReadEnabled(s, t) && Names(Read(t)) == Some(id) && id !in s.sh.msgs
    ensures OneKept(s, ReadNext(c, s, t), id)
  {
  }

  lemma FateStays(s: State, t: Step, id: int, other: int, f: Fate, named: Fate)
    requires Names(t) == Some(id) && id !in s.sh.msgs && Agrees(s, id, named)
    requires other == id ==> f == named
    ensures FateStep(f, t, other) == f
  {
    assert !named.Live?;
  }

  lemma CallKeepsBirths(c: Config, s: State, t: CallStep, id: int)
    requires CallEnabled(c, s, t) && Message(s, id) && id in s.born
    ensures id in CallNext(c, s, t).born && CallNext(c, s, t).born[id] == s.born[id]
  {
    match t
    case Reclaim(x) => if x in s.sh.msgs {}
    case _ =>
  }

  /** An id keeps its delivery, process and chain for the rest of the run, across every
      respawn. */
  lemma {:induction false} IdsAreNeverReused(c: Config, tr: seq<Step>, later: seq<Step>, id: int)
    requires Exec(c, tr).Some? && Exec(c, tr + later).Some? && id in Exec(c, tr).value.born
    ensures id in Exec(c, tr + later).value.born
    ensures Exec(c, tr + later).value.born[id] == Exec(c, tr).value.born[id]
  {
    if later == [] {
      assert tr + later == tr;
    } else {
      var n := |later| - 1;
      assert (tr + later)[..|tr + later| - 1] == tr + later[..n];
      IdsAreNeverReused(c, tr, later[..n], id);
      Reachable(c, tr + later[..n]);
      var s := Exec(c, tr + later[..n]).value;
      assert Message(s, id);
      StepEvolves(c, s, later[n]);
      if later[n].Dispatch? { CallKeepsBirths(c, s, later[n].call, id); }
    }
  }
}
