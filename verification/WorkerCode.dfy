/** A worker's fields and the sections that change them, in place. Each method is one
    section under the mutex, or one callback or channel operation between sections, and is
    proved to do what its step of the transition system does to those fields. */
module WorkerCode {
  import opened Common
  import opened Sections
  import opened Lifecycle
  import opened Invariants
  import opened Wire
  import opened WireIO

  /** One in-flight message; `picked` is set through the map's reference. */
  class Inflight {
    const tok: nat
    const chain: seq<string>
    const timed: bool
    var picked: bool

    constructor (tok: nat, chain: seq<string>, timed: bool)
      ensures this.tok == tok && this.chain == chain && this.timed == timed && !picked
    {
      this.tok, this.chain, this.timed := tok, chain, timed;
      picked := false;
    }

    ghost function Value(): Entry reads this {
      Entry(tok, chain, timed, picked)
    }
  }

  /** The messages of a map of references, which a mark must not be able to share. */
  ghost predicate Separate(msgs: map<int, Inflight>) {
    forall i, j :: i in msgs && j in msgs && i != j ==> msgs[i] != msgs[j]
  }

  ghost function Values(msgs: map<int, Inflight>): map<int, Entry>
    reads msgs.Values
  {
    map id | id in msgs :: msgs[id].Value()
  }

  lemma ValuesAdded(msgs: map<int, Inflight>, id: int, m: Inflight)
    ensures Values(msgs[id := m]) == Values(msgs)[id := m.Value()]
  {
  }

  /** The broker as the callbacks see it. */
  class Broker {
    var calls: Calls

    constructor ()
      ensures calls == INIT.called
    {
      calls := INIT.called;
    }

    method Ack(tok: nat)
      modifies this
      ensures calls == old(calls).(acks := old(calls).acks + multiset{tok})
      ensures calls == Made(old(calls), tok, Kind.Ack)
    {
      calls := calls.(acks := calls.acks + multiset{tok});
    }

    method Nack(tok: nat)
      modifies this
      ensures calls == old(calls).(nacks := old(calls).nacks + multiset{tok})
      ensures calls == Made(old(calls), tok, Kind.Nack)
    {
      calls := calls.(nacks := calls.nacks + multiset{tok});
    }

    method Requeue(tok: nat)
      modifies this
      ensures calls == old(calls).(requeues := old(calls).requeues + multiset{tok})
      ensures calls == Made(old(calls), tok, Kind.Requeue)
    {
      calls := calls.(requeues := calls.requeues + multiset{tok});
    }
  }

  datatype Waited = TurnedAway | MustWait | Accepted(id: int, g: nat)

  class Worker {
    const cap: nat
    const timed: bool
    var cur: Option<nat>
    var proc: Process?
    var msgs: map<int, Inflight>
    var nextID: int
    var closing: bool

    ghost predicate Valid() reads this {
      && Separate(msgs) && (forall id :: id in msgs ==> id < nextID)
      && (proc == null <==> cur.None?)
    }

    ghost function State(): Shared
      reads this, msgs.Values
    {
      Shared(cur, Values(msgs), nextID, closing)
    }

    /** The current process, if there is one. */
    ghost function Procs(): set<Process> reads this {
      if proc == null then {} else {proc}
    }

    constructor (capacity: int, timed: bool)
      ensures Valid() && State() == FRESH && cap == Max1(capacity) && this.timed == timed
    {
      cap := Max1(capacity);
      this.timed := timed;
      cur, proc, msgs, nextID, closing := None, null, map[], 1, false;
    }

    /** A delivery that was accepted is in flight, as it was given. */
    ghost predicate HoldsAs(r: Waited, tok: nat, chain: seq<string>)
      reads this, msgs.Values
    {
      r.Accepted? ==> r.id in State().msgs && State().msgs[r.id] == Entry(tok, chain, timed, false)
    }

    method Install(g: nat, p: Process)
      requires Valid()
      modifies this
      ensures Valid() && proc == p && msgs == old(msgs) && State() == Installed(old(State()), g)
    {
      cur, proc := Some(g), p;
    }

    /** One turn of Dispatch's wait: give up, wait on, or register. */
    method TryRegister(tok: nat, chain: seq<string>, cancelled: bool) returns (r: Waited)
      requires Valid()
      modifies this
      ensures Valid()
      ensures r == TurnedAway <==> old(closing) || cancelled
      ensures r == MustWait <==> !(old(closing) || cancelled) && !HasRoom(old(State()), cap)
      ensures r.Accepted? ==> r.id == old(nextID) && Some(r.g) == old(cur)
      ensures State() == if r.Accepted? then Registered(old(State()), Entry(tok, chain, timed, false)) else old(State())
      ensures !r.Accepted? ==> msgs == old(msgs)
      ensures |msgs| == |old(msgs)| + (if r.Accepted? then 1 else 0)
      ensures !r.Accepted? ==> cur == old(cur)
    {
      if closing || cancelled { return TurnedAway; }
      assert Values(msgs).Keys == msgs.Keys;
      if !(cur.Some? && |msgs| < cap) { return MustWait; }
      var m := new Inflight(tok, chain, timed);
      r := Accepted(nextID, cur.value);
      ValuesAdded(msgs, nextID, m);
      msgs := msgs[nextID := m];
      nextID := nextID + 1;
    }

    /** The same turn, as the pool sees it. */
    method Attempt(tok: nat, chain: seq<string>, cancelled: bool) returns (r: Waited)
      requires Valid()
      modifies this
      ensures Valid() && |msgs| == |old(msgs)| + (if r.Accepted? then 1 else 0)
      ensures r.TurnedAway? <==> closing || cancelled
      ensures r.MustWait? ==> cur.None? || |msgs| >= cap
      ensures HoldsAs(r, tok, chain)
    {
      assert Values(msgs).Keys == msgs.Keys;
      r := TryRegister(tok, chain, cancelled);
    }

    method OnPickup(id: int)
      requires Valid()
      modifies msgs.Values
      ensures Valid() && msgs == old(msgs) && State() == PickedUp(old(State()), id)
    {
      if id in msgs {
        ghost var before := Values(msgs);
        var m := msgs[id];
        m.picked := true;
        assert before.Keys == msgs.Keys;
        forall i | i in msgs ensures Values(msgs)[i] == if i == id then before[i].(picked := true) else before[i] {
          assert i != id ==> msgs[i] != m;
        }
        assert Values(msgs) == before[id := before[id].(picked := true)];
      }
    }

    /** The section a done, a timeout and a reclaim have in common: whoever deletes the entry
        owns the settlement. */
    method Claim(id: int) returns (m: Inflight?)
      requires Valid()
      modifies this`msgs
      ensures Valid() && msgs == old(msgs) - {id} && State() == Claimed(old(State()), id)
      ensures m != null <==> id in old(msgs)
      ensures m != null ==> m == old(msgs)[id]
    {
      m := null;
      if id in msgs {
        m := msgs[id];
        msgs := msgs - {id};
      }
      assert Values(msgs) == old(Values(msgs)) - {id};
    }

    /** A done: the claim and then the callback. */
    method OnDone(id: int, ok: bool, broker: Broker)
      requires Valid()
      modifies this`msgs, broker
      ensures Valid() && State() == Claimed(old(State()), id)
      ensures id !in old(msgs) ==> broker.calls == old(broker.calls)
      ensures id in old(msgs) && ok ==>
                broker.calls == old(broker.calls).(acks := old(broker.calls).acks + multiset{old(msgs[id].tok)})
      ensures id in old(msgs) && !ok ==>
                broker.calls == old(broker.calls).(nacks := old(broker.calls).nacks + multiset{old(msgs[id].tok)})
    {
      var m := Claim(id);
      if m == null { return; }
      if ok {
        broker.Ack(m.tok);
      } else {
        broker.Nack(m.tok);
      }
    }

    method OnTimeout(id: int, broker: Broker)
      requires Valid()
      modifies this`msgs, broker
      ensures Valid() && State() == Claimed(old(State()), id)
      ensures broker.calls ==
              if id in old(msgs) then
                old(broker.calls).(nacks := old(broker.calls).nacks + multiset{old(msgs[id].tok)})
              else old(broker.calls)
    {
      var m := Claim(id);
      if m != null { broker.Nack(m.tok); }
    }

    /** What Dispatch does when its send was refused. */
    method OnUnsent(id: int, tok: nat, broker: Broker)
      requires Valid()
      modifies this`msgs, broker
      ensures Valid() && State() == Claimed(old(State()), id)
      ensures broker.calls ==
              if id in old(msgs) then old(broker.calls).(requeues := old(broker.calls).requeues + multiset{tok})
              else old(broker.calls)
    {
      var m := Claim(id);
      if m != null { broker.Requeue(tok); }
    }

    method ChainFor(id: int) returns (chain: seq<string>)
      requires Valid()
      ensures chain == ChainOf(State(), id)
    {
      chain := if id in msgs then msgs[id].chain else [];
    }

    method Outstanding() returns (n: nat)
      requires Valid()
      ensures n == |msgs| == |State().msgs|
    {
      assert Values(msgs).Keys == msgs.Keys;
      n := |msgs|;
    }

    /** The death path's section: the process is dropped and the whole map taken. */
    method Reap(cancelled: bool) returns (stale: map<int, Inflight>, last: bool)
      requires Valid()
      modifies this
      ensures Valid() && State() == Reaped(old(State()))
      ensures proc == null && msgs == map[] && stale == old(msgs) && last == (old(closing) || cancelled)
    {
      cur, proc := None, null;
      stale := msgs;
      msgs := map[];
      last := closing || cancelled;
    }

    /** The section of a close; its process is asked to stop outside the mutex. */
    method MarkClosing() returns (p: Process?)
      requires Valid()
      modifies this`closing
      ensures Valid() && State() == Closing(old(State())) && p == proc
    {
      closing := true;
      p := proc;
    }

    /** Closes the worker and asks the process it finds, if it finds one, to stop. */
    method BeginClose()
      requires Valid()
      modifies this`closing, Procs()`stop
      ensures Valid() && State() == Closing(old(State()))
      ensures proc != null ==> proc.stop
    {
      var p := MarkClosing();
      if p != null { p.RequestStop(); }
    }

    /** Kills the process it finds, if it finds one. */
    method Kill()
      requires Valid()
      modifies Procs()`killed
      ensures Valid() && State() == old(State())
      ensures proc != null ==> proc.killed
    {
      if proc != null { proc.Kill(); }
    }
  }

  // ------------------------------------------------------------- the death path

  /** Those of the messages `ids` left behind that settle the delivery `tok` as `k`. */
  ghost function Fallen(stale: map<int, Entry>, ids: set<int>, tok: nat, k: Kind): set<int> {
    set id | id in ids && id in stale && stale[id].tok == tok && k == if stale[id].picked then Nack else Requeue
  }

  ghost function Falling(stale: map<int, Entry>, ids: set<int>, tok: nat, k: Kind): nat {
    |Fallen(stale, ids, tok, k)|
  }

  lemma OneFewer(stale: map<int, Entry>, ids: set<int>, id: int, tok: nat, k: Kind)
    requires id in ids && id in stale
    ensures Falling(stale, ids, tok, k) ==
            Falling(stale, ids - {id}, tok, k) + One(stale[id].tok == tok && DeathKind(stale[id]) == k)
  {
    var all, rest := Fallen(stale, ids, tok, k), Fallen(stale, ids - {id}, tok, k);
    if stale[id].tok == tok && DeathKind(stale[id]) == k {
      assert all == rest + {id};
    } else {
      assert all == rest;
    }
  }

  lemma OneMade(calls: Calls, made: nat, kind: Kind, tok: nat, k: Kind)
    ensures Times(Made(calls, made, kind), tok, k) == Times(calls, tok, k) + One(made == tok && kind == k)
  {
    match kind case _ => match k case _ =>
  }

  /** From `before`, all of `stale` but `left` has had its callback. */
  ghost predicate Paid(before: Calls, stale: map<int, Entry>, calls: Calls, left: set<int>) {
    forall tok, k ::
      Times(calls, tok, k) + Falling(stale, left, tok, k) == Times(before, tok, k) + Falling(stale, stale.Keys, tok, k)
  }

  lemma PayOne(before: Calls, stale: map<int, Entry>, calls: Calls, left: set<int>, id: int)
    requires Paid(before, stale, calls, left) && id in left && id in stale
    ensures Paid(before, stale, Made(calls, stale[id].tok, DeathKind(stale[id])), left - {id})
  {
    forall tok, k
      ensures Times(Made(calls, stale[id].tok, DeathKind(stale[id])), tok, k) + Falling(stale, left - {id}, tok, k)
              == Times(before, tok, k) + Falling(stale, stale.Keys, tok, k)
    {
      OneFewer(stale, left, id, tok, k);
      OneMade(calls, stale[id].tok, DeathKind(stale[id]), tok, k);
    }
  }

  lemma AllPaid(before: Calls, stale: map<int, Entry>, calls: Calls)
    requires Paid(before, stale, calls, {})
    ensures forall tok, k ::
              Times(calls, tok, k) == Times(before, tok, k) + Falling(stale, stale.Keys, tok, k)
  {
    forall tok, k ensures Falling(stale, {}, tok, k) == 0 { assert Fallen(stale, {}, tok, k) == {}; }
  }

  /** Every message a dead process leaves gets one callback: dropped if it was picked up,
      requeued if not, in whatever order the map is ranged over. */
  method Bury(stale: map<int, Inflight>, broker: Broker)
    modifies broker
    ensures forall tok, k :: Times(broker.calls, tok, k) ==
              Times(old(broker.calls), tok, k) + Falling(Values(stale), Values(stale).Keys, tok, k)
  {
    ghost var values := Values(stale);
    var ids := stale.Keys;
    assert values.Keys == ids;
    while ids != {}
      invariant ids <= stale.Keys
      invariant Paid(old(broker.calls), values, broker.calls, ids)
      decreases |ids|
    {
      ghost var _ := AnElement(ids);
      var id :| id in ids;
      PayOne(old(broker.calls), values, broker.calls, ids, id);
      SettleStale(stale[id], broker);
      ids := ids - {id};
    }
    AllPaid(old(broker.calls), values, broker.calls);
  }

  method SettleStale(m: Inflight, broker: Broker)
    modifies broker
    ensures broker.calls == Made(old(broker.calls), m.tok, if m.picked then Kind.Nack else Kind.Requeue)
  {
    if m.picked {
      broker.Nack(m.tok);
    } else {
      broker.Requeue(m.tok);
    }
  }

  // ------------------------------------------------------------------ a process

  datatype SendResult = Sent | GaveUp | Blocked

  /** A handler process: the queue in front of its stdin, and whether it was asked to stop or
      killed. */
  class Process {
    const cap: nat
    var out: seq<OutNote>
    var stop: bool
    var killed: bool

    constructor (cap: nat)
      ensures out == [] && !stop && !killed && this.cap == cap
    {
      this.cap := cap;
      out, stop, killed := [], false, false;
    }

    method Kill()
      modifies this`killed
      ensures killed
    {
      killed := true;
    }

    method RequestStop()
      modifies this`stop
      ensures stop
    {
      stop := true;
    }

    /** The select takes any branch that is ready, so a note may still be queued for a
        process that is stopping. */
    method Send(o: OutNote, cancelled: bool) returns (r: SendResult)
      modifies this`out
      ensures out == if r.Sent? then old(out) + [o] else old(out)
      ensures r.Sent? ==> |old(out)| < cap + 1
      ensures r.GaveUp? ==> stop || cancelled
      ensures r.Blocked? <==> !stop && !cancelled && |old(out)| >= cap + 1
    {
      if {
        case stop || cancelled => r := GaveUp;
        case |out| < cap + 1 =>
          out := out + [o];
          r := Sent;
        case !stop && !cancelled && |out| >= cap + 1 => r := Blocked;
      }
    }

    /** Queues an emit_ack, or drops it if the queue is full. */
    method AckEmit(o: OutNote) returns (queued: bool)
      modifies this`out
      ensures queued <==> |old(out)| < cap + 1
      ensures out == if queued then old(out) + [o] else old(out)
    {
      queued := |out| < cap + 1;
      if queued { out := out + [o]; }
    }

    /** What the writer does once it has seen the stop: everything still queued goes out, in
        order, and a note that cannot be written is skipped. */
    method Drain(sink: Sink, encode: OutNote -> seq<byte>)
      requires sink.Valid()
      modifies this`out, sink
      ensures sink.Valid() && out == []
      ensures sink.written == Upto(old(sink.written) + Frames(Bodies(old(out), encode)), sink.limit)
    {
      ghost var queue := out;
      ghost var done := 0;
      while out != []
        invariant sink.Valid() && done <= |queue| && out == queue[done..]
        invariant sink.written == Upto(old(sink.written) + Frames(Bodies(queue[..done], encode)), sink.limit)
        decreases |out|
      {
        var o := out[0];
        out := out[1..];
        WriteOne(o, sink, encode);
        assert queue[..done + 1] == queue[..done] + [o];
        NoteAppend(old(sink.written), queue[..done], o, encode, sink.limit);
        done := done + 1;
      }
      assert queue[..done] == queue;
    }
  }

  /** Writes one note; an error is only logged. */
  method WriteOne(o: OutNote, sink: Sink, encode: OutNote -> seq<byte>)
    requires sink.Valid()
    modifies sink
    ensures sink.Valid()
    ensures sink.written == Upto(old(sink.written) + NoteBytes(o, encode), sink.limit)
  {
    var _ := sink.WriteFrame(encode(o));
  }

  function NoteBytes(o: OutNote, encode: OutNote -> seq<byte>): seq<byte> {
    if |encode(o)| <= MAX_FRAME_SIZE then Frame(encode(o)) else []
  }

  lemma UptoTwice(a: seq<byte>, b: seq<byte>, limit: nat)
    ensures Upto(Upto(a, limit) + b, limit) == Upto(a + b, limit)
  {
  }

  lemma BytesAppend(notes: seq<OutNote>, o: OutNote, encode: OutNote -> seq<byte>)
    ensures Frames(Bodies(notes + [o], encode)) == Frames(Bodies(notes, encode)) + NoteBytes(o, encode)
  {
    BodiesAppend(notes, o, encode);
    if |encode(o)| <= MAX_FRAME_SIZE {
      FramesAppend(Bodies(notes, encode), encode(o));
    } else {
      assert Bodies(notes, encode) + [] == Bodies(notes, encode);
      assert Frames(Bodies(notes, encode)) + [] == Frames(Bodies(notes, encode));
    }
  }

  lemma NoteAppend(start: seq<byte>, notes: seq<OutNote>, o: OutNote, encode: OutNote -> seq<byte>, limit: nat)
    ensures Upto(Upto(start + Frames(Bodies(notes, encode)), limit) + NoteBytes(o, encode), limit)
            == Upto(start + Frames(Bodies(notes + [o], encode)), limit)
  {
    BytesAppend(notes, o, encode);
    UptoThrice(start, Frames(Bodies(notes, encode)), NoteBytes(o, encode), limit);
  }

  lemma UptoThrice(start: seq<byte>, so: seq<byte>, more: seq<byte>, limit: nat)
    ensures Upto(Upto(start + so, limit) + more, limit) == Upto(start + (so + more), limit)
  {
    UptoTwice(start + so, more, limit);
    assert start + so + more == start + (so + more);
  }

  /** The bodies of the notes that are not too large. */
  function Bodies(notes: seq<OutNote>, encode: OutNote -> seq<byte>): seq<seq<byte>> {
    if notes == [] then [] else BodyOf(notes[0], encode) + Bodies(notes[1..], encode)
  }

  function BodyOf(o: OutNote, encode: OutNote -> seq<byte>): seq<seq<byte>> {
    if |encode(o)| <= MAX_FRAME_SIZE then [encode(o)] else []
  }

  lemma {:induction false} BodiesAppend(notes: seq<OutNote>, o: OutNote, encode: OutNote -> seq<byte>)
    ensures Bodies(notes + [o], encode) == Bodies(notes, encode) + BodyOf(o, encode)
  {
    if notes == [] {
      assert notes + [o] == [o] && [o][1..] == [];
    } else {
      assert (notes + [o])[1..] == notes[1..] + [o];
      BodiesAppend(notes[1..], o, encode);
    }
  }

  lemma {:induction false} FramesAppend(bodies: seq<seq<byte>>, body: seq<byte>)
    ensures Frames(bodies + [body]) == Frames(bodies) + Frame(body)
  {
    if bodies != [] {
      assert (bodies + [body])[1..] == bodies[1..] + [body];
      FramesAppend(bodies[1..], body);
    } else {
      assert [body][1..] == [];
    }
  }

  // -------------------------------------------------------------------- emits

  /** The bus as a worker sees it: what was published, and whether the next publish fails. */
  class Publisher {
    var log: seq<(seq<string>, string, string)>
    var failing: bool

    constructor (failing: bool)
      ensures log == [] && this.failing == failing
    {
      log, this.failing := [], failing;
    }

    method Publish(chain: seq<string>, selector: string, data: string) returns (ok: bool)
      modifies this`log
      ensures log == old(log) + [(chain, selector, data)] && ok == !failing
    {
      log := log + [(chain, selector, data)];
      ok := !failing;
    }
  }

  /** One emit: at most one publish, of a declared selector, with the chain of the message
      it answers; and one acknowledgement, ok only after a successful publish. */
  method OnEmit(w: Worker, p: Process, e: Emit, outputs: set<string>, pub: Publisher)
    requires w.Valid()
    modifies p`out, pub`log
    ensures pub.log == if e.selector !in outputs then old(pub.log)
                       else old(pub.log) + [(ChainOf(w.State(), e.deliver), e.selector, e.data)]
    ensures var ack := AckNote(e.id, e.selector in outputs && !pub.failing);
      p.out == if |old(p.out)| < p.cap + 1 then old(p.out) + [ack] else old(p.out)
  {
    var chain := w.ChainFor(e.deliver);
    if e.selector !in outputs {
      var _ := p.AckEmit(AckNote(e.id, false));
      return;
    }
    var ok := pub.Publish(chain, e.selector, e.data);
    var _ := p.AckEmit(AckNote(e.id, ok));
  }

  function Max1(n: int): nat {
    if n < 1 then 1 else n
  }
}
