/** What reaches a handler's stdin: the queued notes, in queue order, through one writer
    that drains before it closes. */
module Stdin {
  import opened Lifecycle
  import opened Evolution

  /** `a` is `b` with some elements left out. */
  predicate Subsequence<T(==)>(a: seq<T>, b: seq<T>) {
    if a == [] then true
    else if b == [] then false
    else if a[|a| - 1] == b[|b| - 1] && Subsequence(a[..|a| - 1], b[..|b| - 1]) then true
    else Subsequence(a, b[..|b| - 1])
  }

  function Held(p: Proc): seq<OutNote> {
    if p.writer.Writing? then [p.writer.o] else []
  }

  /** What the writer has finished with. */
  function Finished(p: Proc): seq<OutNote>
    requires Held(p) == [] || p.taken != []
  {
    if p.writer.Writing? then p.taken[..|p.taken| - 1] else p.taken
  }

  /** First in, first out, within the channel's capacity; stdin is what the writer
      finished with, less the failed writes, in the same order; and a writer that has
      closed stdin has received everything queued before the stop. */
  ghost predicate Flow(c: Config, p: Proc) {
    && p.queued == p.taken + p.out
    && |p.out| <= c.cap + 1
    && (p.writer.Writing? ==> p.taken != [] && p.taken[|p.taken| - 1] == p.writer.o)
    && Subsequence(p.stdin, Finished(p))
    && |p.stdin| + p.failures == |Finished(p)|
    && p.beforeStop <= |p.queued|
    && (!p.writer.Closed? && p.writer.draining ==> p.stop)
    && (p.writer.Closed? ==> p.stop && p.beforeStop <= |p.taken|)
  }

  lemma AppendBoth<T>(a: seq<T>, b: seq<T>, x: T)
    requires Subsequence(a, b)
    ensures Subsequence(a + [x], b + [x])
  {
    assert (a + [x])[..|a|] == a && (b + [x])[..|b|] == b;
  }

  lemma AppendRight<T>(a: seq<T>, b: seq<T>, x: T)
    requires Subsequence(a, b)
    ensures Subsequence(a, b + [x])
  {
    assert (b + [x])[..|b|] == b;
  }

  lemma WriterKeepsFlow(c: Config, p: Proc, t: WriteStep)
    requires Flow(c, p) && WriteEnabled(p, t)
    ensures Flow(c, WriteNext(p, t))
  {
    var q := WriteNext(p, t);
    match t
    case Take =>
      assert p.out == [p.out[0]] + p.out[1..];
      assert Finished(q) == Finished(p);
    case WriteNote(ok) =>
      assert p.taken == Finished(p) + [p.writer.o];
      if ok { AppendBoth(p.stdin, Finished(p), p.writer.o); } else { AppendRight(p.stdin, Finished(p), p.writer.o); }
    case _ =>
  }

  lemma EvolutionKeepsFlow(c: Config, s: State, t: Step, g: nat, q: Proc)
    requires g < |s.procs| && Flow(c, s.procs[g]) && Evolves(c, s, t, g, q)
    ensures Flow(c, q)
  {
    if w :| WriteEnabled(s.procs[g], w) && q == WriteNext(s.procs[g], w) {
      WriterKeepsFlow(c, s.procs[g], w);
    }
  }

  ghost predicate AllFlow(c: Config, s: State) {
    forall p :: p in s.procs ==> Flow(c, p)
  }

  lemma StepKeepsFlow(c: Config, s: State, t: Step)
    requires Enabled(c, s, t) && AllFlow(c, s)
    ensures AllFlow(c, Next(c, s, t))
  {
    StepEvolves(c, s, t);
    var u := Next(c, s, t);
    forall g | 0 <= g < |u.procs| ensures Flow(c, u.procs[g]) {
      if g < |s.procs| { EvolutionKeepsFlow(c, s, t, g, u.procs[g]); }
    }
  }

  /** Every process of every run keeps to the flow. */
  lemma {:induction false} FlowAlways(c: Config, tr: seq<Step>)
    requires Exec(c, tr).Some?
    ensures AllFlow(c, Exec(c, tr).value)
  {
    if tr != [] {
      FlowAlways(c, tr[..|tr| - 1]);
      StepKeepsFlow(c, Exec(c, tr[..|tr| - 1]).value, tr[|tr| - 1]);
    }
  }

  // ------------------------------------------------------ what a handler is sent

  /** Without a write error stdin is what the writer finished with, and once the writer
      has closed it, everything queued before the stop is on it. */
  lemma NothingLostBeforeStop(c: Config, p: Proc)
    requires Flow(c, p) && p.failures == 0
    ensures p.stdin + Held(p) + p.out == p.queued
    ensures p.writer.Closed? ==> p.queued[..p.beforeStop] <= p.stdin
  {
    SameLength(p.stdin, Finished(p));
  }

  lemma {:induction false} SameLength<T>(a: seq<T>, b: seq<T>)
    requires Subsequence(a, b) && |a| == |b|
    ensures a == b
  {
    if a != [] {
      if a[|a| - 1] == b[|b| - 1] && Subsequence(a[..|a| - 1], b[..|b| - 1]) {
        SameLength(a[..|a| - 1], b[..|b| - 1]);
      } else {
        Shorter(a, b[..|b| - 1]);
      }
    }
  }

  lemma {:induction false} Shorter<T>(a: seq<T>, b: seq<T>)
    requires Subsequence(a, b)
    ensures |a| <= |b|
  {
    if a != [] {
      if a[|a| - 1] == b[|b| - 1] && Subsequence(a[..|a| - 1], b[..|b| - 1]) {
        Shorter(a[..|a| - 1], b[..|b| - 1]);
      } else {
        Shorter(a, b[..|b| - 1]);
      }
    }
  }

  lemma {:induction false} SubsequenceMember<T>(a: seq<T>, b: seq<T>, x: T)
    requires Subsequence(a, b) && x in a
    ensures x in b
  {
    var a', b' := a[..|a| - 1], b[..|b| - 1];
    if a[|a| - 1] == b[|b| - 1] && Subsequence(a', b') {
      if x in a' { SubsequenceMember(a', b', x); }
    } else {
      SubsequenceMember(a, b', x);
    }
  }

  // ------------------------------------------------------------ one dispatcher

  /** The engine consumes serially: a Dispatch begins only after the last one returned. */
  ghost predicate OneDispatcher(c: Config, tr: seq<Step>)
    requires Exec(c, tr).Some?
  {
    tr == [] ||
    var before, t := tr[..|tr| - 1], tr[|tr| - 1];
    OneDispatcher(c, before) && (t.Dispatch? && t.call.Register? ==> Exec(c, before).value.flights == map[])
  }

  predicate Below(q: seq<OutNote>, bound: int) {
    forall i :: 0 <= i < |q| && q[i].DeliverNote? ==> q[i].id < bound
  }

  predicate Increasing(q: seq<OutNote>) {
    forall i, j :: 0 <= i < j < |q| && q[i].DeliverNote? && q[j].DeliverNote? ==> q[i].id < q[j].id
  }

  function Bound(s: State): int {
    if s.flights == map[] then s.sh.nextID else s.sh.nextID - 1
  }

  /** At most the newest message is still to be queued, and all queued ones are older. */
  ghost predicate Ordered(s: State) {
    && (forall id :: id in s.flights ==> id == s.sh.nextID - 1)
    && (forall p :: p in s.procs ==> Below(p.queued, Bound(s)) && Increasing(p.queued))
  }

  lemma EvolutionKeepsOrder(c: Config, s: State, t: Step, g: nat, q: Proc, bound: int)
    requires g < |s.procs| && Evolves(c, s, t, g, q)
    requires Below(s.procs[g].queued, bound) && Increasing(s.procs[g].queued)
    requires Delivers(s, t, g) ==> bound <= t.call.id
    ensures Below(q.queued, if Delivers(s, t, g) then t.call.id + 1 else bound) && Increasing(q.queued)
  {
  }

  lemma CallKeepsFlightBound(c: Config, s: State, t: CallStep)
    requires CallEnabled(c, s, t) && Ordered(s)
    requires t.Register? ==> s.flights == map[]
    ensures forall id :: id in CallNext(c, s, t).flights ==> id == CallNext(c, s, t).sh.nextID - 1
    ensures Bound(s) <= Bound(CallNext(c, s, t))
    ensures t.SendOk? ==> t.id in s.flights && Bound(s) == t.id && Bound(CallNext(c, s, t)) == t.id + 1
  {
    match t
    case SendOk(x) =>
      assert InFlight(s, x, false);
      assert forall y :: y in s.flights - {x} ==> y in s.flights;
    case Reclaim(x) => if x in s.sh.msgs {}
    case _ =>
  }

  lemma StepKeepsOrder(c: Config, s: State, t: Step)
    requires Enabled(c, s, t) && Ordered(s)
    requires t.Dispatch? && t.call.Register? ==> s.flights == map[]
    ensures Ordered(Next(c, s, t))
  {
    var u := Next(c, s, t);
    StepEvolves(c, s, t);
    if t.Dispatch? { CallKeepsFlightBound(c, s, t.call); }
    forall g | 0 <= g < |u.procs| ensures Below(u.procs[g].queued, Bound(u)) && Increasing(u.procs[g].queued) {
      if g < |s.procs| { EvolutionKeepsOrder(c, s, t, g, u.procs[g], Bound(s)); }
    }
  }

  lemma {:induction false} OrderedAlways(c: Config, tr: seq<Step>)
    requires Exec(c, tr).Some? && OneDispatcher(c, tr)
    ensures Ordered(Exec(c, tr).value)
  {
    if tr != [] {
      OrderedAlways(c, tr[..|tr| - 1]);
      StepKeepsOrder(c, Exec(c, tr[..|tr| - 1]).value, tr[|tr| - 1]);
    }
  }

  lemma {:induction false} SubsequenceIncreasing(a: seq<OutNote>, b: seq<OutNote>)
    requires Subsequence(a, b) && Increasing(b)
    ensures Increasing(a)
  {
    if a != [] {
      var a', b' := a[..|a| - 1], b[..|b| - 1];
      if a[|a| - 1] == b[|b| - 1] && Subsequence(a', b') {
        SubsequenceIncreasing(a', b');
        forall x | x in a' ensures x in b' { SubsequenceMember(a', b', x); }
        assert forall i :: 0 <= i < |a'| ==> a[i] in a';
      } else {
        SubsequenceIncreasing(a, b');
      }
    }
  }

  lemma StdinIncreasing(c: Config, p: Proc)
    requires Flow(c, p) && Increasing(p.queued)
    ensures Increasing(p.stdin)
  {
    assert Finished(p) <= p.queued;
    SubsequenceIncreasing(p.stdin, Finished(p));
  }

  /** With one dispatcher the ids of the delivers on any process's stdin strictly increase. */
  lemma {:induction false} DeliverIdsIncrease(c: Config, tr: seq<Step>)
    requires Exec(c, tr).Some? && OneDispatcher(c, tr)
    ensures forall p :: p in Exec(c, tr).value.procs ==> Increasing(p.stdin)
  {
    OrderedAlways(c, tr);
    FlowAlways(c, tr);
    forall p | p in Exec(c, tr).value.procs ensures Increasing(p.stdin) { StdinIncreasing(c, p); }
  }
}
