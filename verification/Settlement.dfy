/** The settlement contract of a delivery, over all interleavings. */
module Settlement {
  import opened Sections
  import opened Lifecycle
  import opened Invariants
  import opened Disposition

  /** Exactly one of Ack, Nack and Requeue is called, once: in every reachable state a
      registered message is in the map, or claimed by exactly one party whose callback is
      still to come, or has had exactly one callback; and a Dispatch that has not
      registered, in particular one that returned false, has called none. */
  lemma {:induction false} SettledAtMostOnce(c: Config, tr: seq<Step>)
    requires Exec(c, tr).Some?
    ensures var s := Exec(c, tr).value;
      && (forall id :: id in s.born ==> Holdings(s, id) == 1)
      && (forall tok :: Called(s, tok) <= 1)
      && (forall tok :: tok !in s.calls || !s.calls[tok].Taken? ==> Called(s, tok) == 0)
  {
    Reachable(c, tr);
    var s := Exec(c, tr).value;
    forall id | id in s.born ensures Holdings(s, id) == 1 { assert Message(s, id); }
    forall tok ensures Called(s, tok) <= 1
      ensures tok !in s.calls || !s.calls[tok].Taken? ==> Called(s, tok) == 0
    {
      assert Delivery(s, tok);
      if tok in s.calls && s.calls[tok].Taken? { assert Message(s, s.calls[tok].id); }
    }
  }

  /** The callback a message gets is the one its automaton decided: while the automaton
      has not decided the message is in the map with the chain and the mark the automaton
      gives it; afterwards that one callback is pending or made, and no other ever is. */
  lemma {:induction false} SettledAsDecided(c: Config, tr: seq<Step>, id: int)
    requires Exec(c, tr).Some?
    ensures var s := Exec(c, tr).value;
      match FateOf(tr, id)
      case Unborn => id !in s.born
      case Live(tok, chain, picked) =>
        && id in s.sh.msgs && s.sh.msgs[id].tok == tok && s.sh.msgs[id].chain == chain
        && s.sh.msgs[id].picked == picked && Called(s, tok) == 0
        && (forall k :: !Pending(s, id, k))
      case Decided(tok, kind) =>
        && id !in s.sh.msgs
        && (forall k :: Times(s.called, tok, k) + One(Pending(s, id, k)) == One(k == kind))
  {
    Reachable(c, tr);
    RunAgrees(c, tr, id);
    var s := Exec(c, tr).value;
    assert Message(s, id);
    match FateOf(tr, id)
    case Decided(tok, kind) =>
      forall k ensures Times(s.called, tok, k) + One(Pending(s, id, k)) == One(k == kind) {
        match k case _ => match kind case _ =>
      }
    case _ =>
  }

  lemma {:induction false} FateIsFinal(tr: seq<Step>, later: seq<Step>, id: int)
    requires FateOf(tr, id).Decided?
    ensures FateOf(tr + later, id) == FateOf(tr, id)
  {
    if later == [] {
      assert tr + later == tr;
    } else {
      var n := |later| - 1;
      assert (tr + later)[..|tr + later| - 1] == tr + later[..n];
      FateIsFinal(tr, later[..n], id);
    }
  }

  /** Once a message is decided no later event changes what it gets: in every continuation
      of the run the one callback decided is pending or made, once, and no other ever is. */
  lemma {:induction false} DecisionIsFinal(c: Config, tr: seq<Step>, later: seq<Step>, id: int)
    requires Exec(c, tr + later).Some? && FateOf(tr, id).Decided?
    ensures var u, f := Exec(c, tr + later).value, FateOf(tr, id);
      && id !in u.sh.msgs
      && forall k :: Times(u.called, f.tok, k) + One(Pending(u, id, k)) == One(k == f.kind)
  {
    FateIsFinal(tr, later, id);
    SettledAsDecided(c, tr + later, id);
  }

  /** Of all callbacks of the message, this one alone is pending or made, once. */
  ghost predicate OnlyEver(s: State, id: int, tok: nat, kind: Kind) {
    forall k :: Times(s.called, tok, k) + One(Pending(s, id, k)) == One(k == kind)
  }

  /** What each claiming event does to a live message, in every continuation of the run: a
      done acks it or nacks it, a timeout nacks it, the death of its process nacks it if its
      pickup was read and requeues it if not, and a failed send requeues it. */
  lemma {:induction false} ClaimSettles(c: Config, tr: seq<Step>, t: Step, later: seq<Step>, id: int)
    requires Exec(c, tr + [t] + later).Some? && FateOf(tr, id).Live?
    ensures var u, f := Exec(c, tr + [t] + later).value, FateOf(tr, id);
      && (t == Read(Done(id, true)) ==> OnlyEver(u, id, f.tok, Ack))
      && (t == Read(Done(id, false)) ==> OnlyEver(u, id, f.tok, Nack))
      && (t == Time(Section(id)) ==> OnlyEver(u, id, f.tok, Nack))
      && (t == Supervise(Reap) && f.picked ==> OnlyEver(u, id, f.tok, Nack))
      && (t == Supervise(Reap) && !f.picked ==> OnlyEver(u, id, f.tok, Requeue))
      && (t == Dispatch(Reclaim(id)) ==> OnlyEver(u, id, f.tok, Requeue))
  {
    assert (tr + [t])[..|tr|] == tr;
    if FateOf(tr + [t], id).Decided? { DecisionIsFinal(c, tr + [t], later, id); }
  }

  // ------------------------------------------------------------- conservation

  /** Claimed by some party, with the callback still to make. */
  function ClaimedPending(s: State): nat {
    One(s.sup.Reading? && s.sup.rd.Settling?) + (if s.sup.Burying? then |s.sup.stale| else 0)
    + |s.nacking| + |s.requeueing|
  }

  function Settled(called: Calls): nat {
    |called.acks| + |called.nacks| + |called.requeues|
  }

  ghost predicate Conserved(s: State) {
    |s.born| == |s.sh.msgs| + ClaimedPending(s) + Settled(s.called)
  }

  lemma OneMoreSettled(called: Calls, tok: nat, kind: Kind)
    ensures Settled(Made(called, tok, kind)) == Settled(called) + 1
  {
    match kind case _ =>
  }

  lemma MapSizes<V>(m: map<int, V>, id: int, v: V)
    ensures id !in m ==> |m[id := v]| == |m| + 1
    ensures id in m ==> |m - {id}| == |m| - 1
  {
    assert m[id := v].Keys == m.Keys + {id};
    assert (m - {id}).Keys == m.Keys - {id};
  }

  lemma SupConserves(s: State, t: SupStep)
    requires Conserved(s) && SupEnabled(s, t)
    ensures Conserved(SupNext(s, t))
  {
    match t
    case BuryOne(x) =>
      MapSizes(s.sup.stale, x, s.sup.stale[x]);
      OneMoreSettled(s.called, s.sup.stale[x].tok, DeathKind(s.sup.stale[x]));
    case _ =>
  }

  lemma ReadConserves(c: Config, s: State, t: ReadStep)
    requires Conserved(s) && ReadEnabled(s, t)
    ensures Conserved(ReadNext(c, s, t))
  {
    match t
    case Pickup(x) => PickupKeepsSize(s.sh, x);
    case Done(x, ok) => if x in s.sh.msgs { ClaimFreesASlot(s.sh, x); }
    case Settle => OneMoreSettled(s.called, s.sup.rd.m.tok, DoneKind(s.sup.rd.ok));
    case _ =>
  }

  lemma CallConserves(c: Config, s: State, t: CallStep)
    requires Conserved(s) && CallEnabled(c, s, t)
    requires t.Register? || t.Reclaim? || t.Requeued? ==> Message(s, t.id)
    ensures Conserved(CallNext(c, s, t))
  {
    match t
    case Register(tok, x, chain) =>
      RegisterTakesASlot(s.sh, Entry(tok, chain, c.timed, false));
      MapSizes(s.born, x, Birth(tok, s.sh.cur.value, chain));
    case Reclaim(x) =>
      if x in s.sh.msgs {
        ClaimFreesASlot(s.sh, x);
        MapSizes(s.requeueing, x, s.flights[x]);
      }
    case Requeued(x) =>
      MapSizes(s.requeueing, x, s.requeueing[x]);
      OneMoreSettled(s.called, s.requeueing[x].tok, Requeue);
    case _ =>
  }

  lemma TimerConserves(s: State, t: TimerStep)
    requires Conserved(s) && TimerEnabled(s, t)
    requires t.Section? ==> Message(s, t.id)
    ensures Conserved(TimerNext(s, t))
  {
    match t
    case Section(x) =>
      if x in s.sh.msgs {
        ClaimFreesASlot(s.sh, x);
        MapSizes(s.nacking, x, s.sh.msgs[x]);
      }
    case Nacked(x) =>
      MapSizes(s.nacking, x, s.nacking[x]);
      OneMoreSettled(s.called, s.nacking[x].tok, Nack);
    case _ =>
  }

  lemma CloseConserves(s: State, t: CloseStep)
    requires Conserved(s) && CloseEnabled(s, t)
    ensures Conserved(CloseNext(s, t))
  {
  }

  lemma WriterConserves(c: Config, s: State, t: Step)
    requires Conserved(s) && Enabled(c, s, t) && t.Write?
    ensures Conserved(Next(c, s, t))
  {
  }

  /** Accepted = in flight + claimed with the callback pending + acked + nacked + requeued,
      and the messages in flight never exceed the capacity, for any number of dispatchers. */
  lemma {:induction false} AcceptedIsConserved(c: Config, tr: seq<Step>)
    requires Exec(c, tr).Some?
    ensures var s := Exec(c, tr).value; Conserved(s) && |s.sh.msgs| <= c.cap
  {
    Reachable(c, tr);
    if tr != [] {
      var before := tr[..|tr| - 1];
      AcceptedIsConserved(c, before);
      Reachable(c, before);
      var s, t := Exec(c, before).value, tr[|tr| - 1];
      match t {
        case Supervise(u) => SupConserves(s, u);
        case Read(u) => ReadConserves(c, s, u);
        case Dispatch(u) =>
          assert u.Register? || u.Reclaim? || u.Requeued? ==> Message(s, u.id);
          CallConserves(c, s, u);
        case Time(u) =>
          assert u.Section? ==> Message(s, u.id);
          TimerConserves(s, u);
        case Close(u) => CloseConserves(s, u);
        case Write(g, u) => WriterConserves(c, s, t);
      }
    }
  }
}
