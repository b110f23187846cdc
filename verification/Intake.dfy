/** The way of one delivery into the pool: the bus decodes it, the engine admits it. */
module Intake {
  import opened Sections
  import opened Lifecycle
  import opened WorkerCode
  import opened Pool
  import opened Admission
  import opened Engine
  import opened Window

  /** What became of a delivery that was handed to the pool: at which worker, with which
      outcome, and on which loads read. */
  datatype Placement = Placement(best: nat, r: Waited)

  /** Admits a decoded delivery and hands it to the pool, or acks and drops it; the result is
      None if the pool never saw it. The ghost results are those of the scan. */
  method Handle(u: Setup, pool: WorkerPool, broker: Broker, tok: nat, chain: seq<string>, turns: nat, cancelAt: nat)
    returns (placed: Option<Placement>, ghost read: seq<nat>, ghost mid: seq<nat>)
    requires pool.Valid()
    modifies broker, pool.workers
    ensures pool.Valid() && (placed.Some? <==> Admits(chain, u.agent, u.limits))
    ensures broker.calls == if placed.Some? then old(broker.calls)
                            else old(broker.calls).(acks := old(broker.calls).acks + multiset{tok})
    ensures placed.None? ==> forall w :: w in pool.workers ==> unchanged(w)
    ensures placed.Some? ==> PlacedRightly(old(pool.Loads()), read, mid, pool, placed.value, tok, chain)
  {
    ghost var before := pool.Loads();
    var ok := Admit(chain, u.agent, u.limits);
    assert pool.Loads() == before;
    read, mid := [], [];
    if !ok {
      broker.Ack(tok);
      placed := None;
      return;
    }
    var best, r;
    best, r, read, mid := pool.Dispatch(tok, chain, turns, cancelAt);
    placed := Some(Placement(best, r));
  }

  /** The delivery went to the worker the scan picked, as it was given, and to no other; and it
      waits at a live worker only if all were full. */
  ghost predicate PlacedRightly(before: seq<nat>, read: seq<nat>, mid: seq<nat>, pool: WorkerPool, at: Placement,
                                tok: nat, chain: seq<string>)
    reads pool, pool.workers, set w, m | w in pool.workers && m in w.msgs.Values :: m
  {
    && Picked(before, read, mid, at.best) && Registers(mid, pool.Loads(), at.best, at.r.Accepted?)
    && pool.Holds(at.best, at.r, tok, chain)
    && (at.r.MustWait? && pool.workers[at.best].cur.Some? ==> Full(before, pool.cap))
  }

  /** Decodes a delivery and hands it on, or nacks and drops it. The decoder is a parameter;
      it gives the chain, or nothing if the envelope or the body does not decode. */
  method DispatchDelivery(u: Setup, pool: WorkerPool, broker: Broker, tok: nat, decoded: Option<seq<string>>,
                          turns: nat, cancelAt: nat)
    returns (placed: Option<Placement>, ghost read: seq<nat>, ghost mid: seq<nat>)
    requires pool.Valid()
    modifies broker, pool.workers
    ensures pool.Valid() && (placed.Some? <==> decoded.Some? && Admits(decoded.value, u.agent, u.limits))
    ensures broker.calls ==
            if placed.Some? then old(broker.calls)
            else if decoded.Some? then old(broker.calls).(acks := old(broker.calls).acks + multiset{tok})
            else old(broker.calls).(nacks := old(broker.calls).nacks + multiset{tok})
    ensures placed.None? ==> forall w :: w in pool.workers ==> unchanged(w)
    ensures placed.Some? ==> PlacedRightly(old(pool.Loads()), read, mid, pool, placed.value, tok, decoded.value)
  {
    read, mid := [], [];
    if decoded.None? {
      broker.Nack(tok);
      placed := None;
      return;
    }
    placed, read, mid := Handle(u, pool, broker, tok, decoded.value, turns, cancelAt);
  }

  /** Unless the two clamps disagree, and so for any settings of at least 1, the window the
      broker is given keeps every delivery from waiting for a slot. */
  lemma {:induction false} WindowFitsThePool(size: int, capacity: int, u: Setup, tr: seq<PStep>)
    requires !ClampsDisagree(size, capacity) && u.size == Max1(size) && u.w.cap == Max1(capacity)
    requires PExec(u, tr).Some? && Windowed(u, tr, Prefetch(size, capacity))
    ensures var p := PExec(u, tr).value;
      forall i, tok: nat :: 0 <= i < |p.ws| && Knows(p.ws[i], tok) && p.ws[i].calls[tok].Waiting? ==>
        (HasRoom(p.ws[i].sh, u.w.cap) <==> p.ws[i].sh.cur.Some?)
  {
    PrefetchExceedsExactly(size, capacity);
    WaitsOnlyForAProcess(u, tr, Prefetch(size, capacity));
  }

  /** Some run within the window leads to a delivery that waits for a slot. */
  ghost predicate MayWaitForASlot(u: Setup, prefetch: nat) {
    exists tr :: PExec(u, tr).Some? && Windowed(u, tr, prefetch) && WaitsForASlot(u, PExec(u, tr).value)
  }

  /** A delivery may have to wait for a slot exactly if the two clamps disagree. */
  lemma WaitsForASlotExactly(size: int, capacity: int, u: Setup)
    requires u.size == Max1(size) && u.w.cap == Max1(capacity)
    ensures MayWaitForASlot(u, Prefetch(size, capacity)) <==> ClampsDisagree(size, capacity)
  {
    var prefetch := Prefetch(size, capacity);
    PrefetchExceedsExactly(size, capacity);
    if ClampsDisagree(size, capacity) {
      var tr := LargerWindowWaits(u, prefetch);
      assert PExec(u, tr).Some?;
    } else if MayWaitForASlot(u, prefetch) {
      var tr :| PExec(u, tr).Some? && Windowed(u, tr, prefetch) && WaitsForASlot(u, PExec(u, tr).value);
      NoneIsStuck(u, tr, prefetch);
    }
  }

  lemma NoneIsStuck(u: Setup, tr: seq<PStep>, prefetch: nat)
    requires PExec(u, tr).Some? && Windowed(u, tr, prefetch) && prefetch <= u.size * u.w.cap
    ensures !WaitsForASlot(u, PExec(u, tr).value)
  {
    WaitsOnlyForAProcess(u, tr, prefetch);
  }
}
