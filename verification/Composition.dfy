/** What holds of every worker inside the engine because one goroutine dispatches: stdin
    in increasing order, and chains that were admitted. */
module Composition {
  import opened Common
  import opened Lifecycle
  import opened Evolution
  import opened Stdin
  import opened Emits
  import opened Admission
  import opened Engine

  /** A worker's chains are those of the deliveries that arrived. */
  ghost predicate Traced(arrivals: seq<Incoming>, s: State) {
    && (forall tok: nat :: Knows(s, tok) && s.calls[tok].Waiting? ==>
          tok < |arrivals| && arrivals[tok] == Incoming.Message(s.calls[tok].chain))
    && (forall id :: id in s.born ==>
          s.born[id].tok < |arrivals| && arrivals[s.born[id].tok] == Incoming.Message(s.born[id].chain))
  }

  /** Only the dispatcher's current call can have registered and not sent, or have a requeue
      still to make. */
  ghost predicate InTheCall(disp: Disp, i: nat, s: State) {
    && (forall id :: id in s.flights ==> disp == Handing(s.flights[id].tok, i))
    && (forall id :: id in s.requeueing ==> disp == Handing(s.requeueing[id].tok, i))
  }

  ghost predicate Facts(u: Setup, p: PState, i: nat, s: State) {
    && AllFlow(u.w, s) && Ordered(s) && EmitBook(u.w, s) && Borrowed(s)
    && Traced(p.arrivals, s) && InTheCall(p.disp, i, s)
  }

  ghost predicate AllFacts(u: Setup, p: PState) {
    forall i :: 0 <= i < |p.ws| ==> Facts(u, p, i, p.ws[i])
  }

  lemma NoOtherFlight(u: Setup, p: PState, i: nat, tok: nat)
    requires PInv(u, p) && i < |p.ws| && InTheCall(p.disp, i, p.ws[i])
    requires Knows(p.ws[i], tok) && p.ws[i].calls[tok].Waiting?
    ensures p.ws[i].flights == map[]
  {
    var s := p.ws[i];
    assert Tracked(u, p, tok);
    forall id ensures id !in s.flights { assert Invariants.Message(s, id); }
  }

  lemma CallKeepsTraced(c: Config, s: State, t: CallStep, arrivals: seq<Incoming>)
    requires CallEnabled(c, s, t) && Traced(arrivals, s)
    requires t.Offer? ==> t.tok < |arrivals| && arrivals[t.tok] == Incoming.Message(t.chain)
    ensures Traced(arrivals, CallNext(c, s, t))
  {
    match t
    case Reclaim(x) => if x in s.sh.msgs {}
    case Register(tok, _, _) => assert Knows(s, tok);
    case _ =>
  }

  lemma CallKeepsFlights(c: Config, s: State, t: CallStep, id: int)
    requires CallEnabled(c, s, t)
    ensures id in CallNext(c, s, t).flights ==>
              (id in s.flights && CallNext(c, s, t).flights[id].tok == s.flights[id].tok)
              || (t.Register? && t.id == id && CallNext(c, s, t).flights[id].tok == t.tok)
    ensures id in CallNext(c, s, t).requeueing ==>
              (id in s.requeueing && CallNext(c, s, t).requeueing[id] == s.requeueing[id])
              || (id in s.flights && CallNext(c, s, t).requeueing[id] == s.flights[id])
  {
    match t
    case Reclaim(x) => if x in s.sh.msgs {}
    case _ =>
  }

  lemma WorkerKeepsFacts(u: Setup, p: PState, i: nat, t: Step)
    requires PInv(u, p) && i < |p.ws| && Facts(u, p, i, p.ws[i])
    requires Enabled(u.w, p.ws[i], t) && !(t.Dispatch? && t.call.Offer?)
    ensures Facts(u, p, i, Next(u.w, p.ws[i], t))
  {
    var s, v := p.ws[i], Next(u.w, p.ws[i], t);
    if t.Dispatch? && t.call.Register? {
      NoOtherFlight(u, p, i, t.call.tok);
      assert Tracked(u, p, t.call.tok);
    }
    StepKeepsFlow(u.w, s, t);
    StepKeepsOrder(u.w, s, t);
    StepKeepsBook(u.w, s, t);
    StepKeepsBorrowed(u.w, s, t);
    StepEvolves(u.w, s, t);
    if t.Dispatch? {
      CallKeepsTraced(u.w, s, t.call, p.arrivals);
      forall id | id in v.flights ensures p.disp == Handing(v.flights[id].tok, i) {
        CallKeepsFlights(u.w, s, t.call, id);
      }
      forall id | id in v.requeueing ensures p.disp == Handing(v.requeueing[id].tok, i) {
        CallKeepsFlights(u.w, s, t.call, id);
      }
    }
  }

  lemma ArrivalsKeepTraced(arrivals: seq<Incoming>, d: Incoming, s: State)
    requires Traced(arrivals, s)
    ensures Traced(arrivals + [d], s)
  {
  }

  /** Only the dispatcher moves: fewer flights can be open, so none is out of the call. */
  lemma DispatcherKeepsFacts(u: Setup, p: PState, t: PStep, i: nat)
    requires PInv(u, p) && i < |p.ws| && Facts(u, p, i, p.ws[i])
    requires PEnabled(u, p, t) && (t.Arrive? || t.ScanOne? || t.CallReturned?)
    ensures Facts(u, PNext(u, p, t), i, PNext(u, p, t).ws[i])
  {
    var s := p.ws[i];
    if t.Arrive? { ArrivalsKeepTraced(p.arrivals, t.d, s); }
    if t.CallReturned? {
      var tok := p.disp.tok;
      forall id ensures id !in s.flights && id !in s.requeueing { assert Invariants.Message(s, id); }
    }
  }

  lemma OfferKeepsFacts(u: Setup, p: PState, i: nat)
    requires PInv(u, p) && i < |p.ws| && Facts(u, p, i, p.ws[i]) && PEnabled(u, p, HandOver)
    requires p.disp.tok < |p.arrivals| && p.arrivals[p.disp.tok] == Incoming.Message(p.disp.chain)
    ensures Facts(u, PNext(u, p, HandOver), i, PNext(u, p, HandOver).ws[i])
  {
    if i == p.disp.best {
      var s, t := p.ws[i], Dispatch(Offer(p.disp.tok, p.disp.chain));
      StepKeepsFlow(u.w, s, t);
      StepKeepsOrder(u.w, s, t);
      StepKeepsBook(u.w, s, t);
      StepKeepsBorrowed(u.w, s, t);
      CallKeepsTraced(u.w, s, t.call, p.arrivals);
    }
  }

  /** The dispatcher carries the chain that arrived. */
  ghost predicate CarriesArrival(p: PState) {
    p.disp.Scanning? ==> p.disp.tok < |p.arrivals| && p.arrivals[p.disp.tok] == Incoming.Message(p.disp.chain)
  }

  lemma OneKeepsFacts(u: Setup, p: PState, t: PStep, i: nat)
    requires PInv(u, p) && PEnabled(u, p, t) && i < |p.ws| && Facts(u, p, i, p.ws[i]) && CarriesArrival(p)
    ensures Facts(u, PNext(u, p, t), i, PNext(u, p, t).ws[i])
  {
    match t
    case OfWorker(j, w) => if i == j { WorkerKeepsFacts(u, p, i, w); }
    case CloseOne => if i == p.shut.i { WorkerKeepsFacts(u, p, i, Close(BeginClose)); }
    case KillOne => if i == p.shut.i { WorkerKeepsFacts(u, p, i, Close(Kill)); }
    case HandOver => OfferKeepsFacts(u, p, i);
    case Shutdown =>
    case AwaitOne =>
    case _ => DispatcherKeepsFacts(u, p, t, i);
  }

  lemma StepCarriesArrival(u: Setup, p: PState, t: PStep)
    requires PEnabled(u, p, t) && CarriesArrival(p)
    ensures CarriesArrival(PNext(u, p, t))
  {
  }

  lemma StepKeepsFacts(u: Setup, p: PState, t: PStep)
    requires PInv(u, p) && PEnabled(u, p, t) && AllFacts(u, p) && CarriesArrival(p)
    ensures AllFacts(u, PNext(u, p, t)) && CarriesArrival(PNext(u, p, t))
  {
    StepCarriesArrival(u, p, t);
    var q := PNext(u, p, t);
    forall i | 0 <= i < |q.ws| ensures Facts(u, q, i, q.ws[i]) { OneKeepsFacts(u, p, t, i); }
  }

  lemma {:induction false} FactsAlways(u: Setup, tr: seq<PStep>)
    requires PExec(u, tr).Some?
    ensures AllFacts(u, PExec(u, tr).value) && CarriesArrival(PExec(u, tr).value)
  {
    if tr != [] {
      var before := tr[..|tr| - 1];
      FactsAlways(u, before);
      PReachable(u, before);
      StepKeepsFacts(u, PExec(u, before).value, tr[|tr| - 1]);
    }
  }

  /** The engine dispatches serially, so on every stdin the deliver ids strictly increase. */
  lemma {:induction false} StdinIdsIncrease(u: Setup, tr: seq<PStep>)
    requires PExec(u, tr).Some?
    ensures forall s, q :: s in PExec(u, tr).value.ws && q in s.procs ==> Increasing(q.stdin)
  {
    FactsAlways(u, tr);
    forall s, q | s in PExec(u, tr).value.ws && q in s.procs ensures Increasing(q.stdin) {
      StdinIncreasing(u.w, q);
    }
  }

  /** Every publish is of a declared selector and carries either no chain, or the chain of a
      delivery that this agent admitted: so what is published, with the agent appended, is
      one more hop of that delivery's cascade. */
  lemma {:induction false} PublishesExtendAdmittedChains(u: Setup, tr: seq<PStep>, i: nat, k: nat)
    requires PExec(u, tr).Some? && i < |PExec(u, tr).value.ws| && k < |PExec(u, tr).value.ws[i].pubs|
    ensures var p := PExec(u, tr).value;
      var pub := p.ws[i].pubs[k];
      && pub.selector in u.w.outputs
      && (pub.chain == [] ||
          exists tok: nat :: tok < |p.arrivals| && p.arrivals[tok] == Incoming.Message(pub.chain)
                             && Admits(pub.chain, u.agent, u.limits))
  {
    FactsAlways(u, tr);
    PReachable(u, tr);
    var p := PExec(u, tr).value;
    var s := p.ws[i];
    var pub := s.pubs[k];
    var e := s.emits[pub.index];
    if pub.chain != [] {
      var id :| id in s.born && s.born[id].chain == e.chain;
      var tok := s.born[id].tok;
      assert Invariants.Message(s, id);
      assert Knows(s, tok);
      assert Tracked(u, p, tok);
    }
  }

  lemma OneMoreHop(chain: seq<string>, hops: seq<Hop>, agent: string, l: Limits)
    requires Admission.Cascade(chain, hops) && Admits(ChainAfter(chain, hops), agent, l)
    ensures Admission.Cascade(chain, hops + [Hop(agent, l, false)])
    ensures ChainAfter(chain, hops + [Hop(agent, l, false)]) == Outgoing(ChainAfter(chain, hops), agent)
  {
    assert (hops + [Hop(agent, l, false)])[..|hops|] == hops;
  }

  /** In every run, what a worker publishes is a hop: if the chain it publishes with ends any
      cascade, then the chain it sends out ends that cascade with one hop more, of this agent
      under its limits, and keeps those limits. */
  lemma {:induction false} PublishesAreHops(u: Setup, tr: seq<PStep>, i: nat, k: nat,
                                            start: seq<string>, hops: seq<Hop>)
    requires PExec(u, tr).Some? && i < |PExec(u, tr).value.ws| && k < |PExec(u, tr).value.ws[i].pubs|
    requires Admission.Cascade(start, hops)
    requires ChainAfter(start, hops) == PExec(u, tr).value.ws[i].pubs[k].chain
    ensures var sent := Outgoing(PExec(u, tr).value.ws[i].pubs[k].chain, u.agent);
      var more := hops + [Hop(u.agent, u.limits, false)];
      && Admission.Cascade(start, more) && sent == ChainAfter(start, more)
      && (u.limits.depth != 0 && |sent| <= TWO32 ==> |sent| <= u.limits.depth)
      && (u.limits.cyclic != 0 && |sent| <= TWO32 ==> Occurrences(sent, u.agent) <= u.limits.cyclic)
  {
    PublishesExtendAdmittedChains(u, tr, i, k);
    var chain := PExec(u, tr).value.ws[i].pubs[k].chain;
    assert Admits(chain, u.agent, u.limits);
    OneMoreHop(start, hops, u.agent, u.limits);
    if |chain| < TWO32 { KeepsLimits(chain, u.agent, u.limits); }
  }

  lemma KeepsLimits(chain: seq<string>, agent: string, l: Limits)
    requires Admits(chain, agent, l) && |chain| < TWO32
    ensures var sent := Outgoing(chain, agent);
      && (l.depth != 0 ==> |sent| <= l.depth)
      && (l.cyclic != 0 ==> Occurrences(sent, agent) <= l.cyclic)
  {
    OccurrencesBounded(chain, agent);
    assert Outgoing(chain, agent)[..|chain|] == chain;
  }
}
