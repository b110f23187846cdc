/** Where the engine places deliveries while nothing is settled: round and round the
    workers, however their processes come and go. */
module Balance {
  import opened Sections
  import opened Lifecycle
  import opened Invariants
  import opened Evolution
  import opened Engine
  import Pool

  /** No step of the run lowered a worker's load. */
  ghost predicate Calm(u: Setup, tr: seq<PStep>)
    requires PExec(u, tr).Some?
  {
    tr == [] ||
    var before, t := tr[..|tr| - 1], tr[|tr| - 1];
    Calm(u, before) && NoneFell(PExec(u, before).value.ws, PExec(u, tr).value.ws)
  }

  ghost predicate NoneFell(ws: seq<State>, vs: seq<State>) {
    |ws| == |vs| && forall i :: 0 <= i < |ws| ==> Load(ws[i]) <= Load(vs[i])
  }

  predicate Registers(t: PStep) {
    t.OfWorker? && t.t.Dispatch? && t.t.call.Register?
  }

  predicate Refuses(t: PStep) {
    t.OfWorker? && t.t.Dispatch? && t.t.call.Refuse?
  }

  function Registrations(tr: seq<PStep>): nat {
    if tr == [] then 0 else Registrations(tr[..|tr| - 1]) + One(Registers(tr[|tr| - 1]))
  }

  function Refusals(tr: seq<PStep>): nat {
    if tr == [] then 0 else Refusals(tr[..|tr| - 1]) + One(Refuses(tr[|tr| - 1]))
  }

  function HandOvers(tr: seq<PStep>): nat {
    if tr == [] then 0 else HandOvers(tr[..|tr| - 1]) + One(tr[|tr| - 1].HandOver?)
  }

  /** The dispatcher's call is still waiting in its worker. */
  predicate Waits(p: PState) {
    p.disp.Handing? && p.disp.best < |p.ws| && IsWaiting(p.ws[p.disp.best], p.disp.tok)
  }

  predicate IsWaiting(s: State, tok: nat) {
    Knows(s, tok) && s.calls[tok].Waiting?
  }

  /** The loads are these, and the scan is on its way to their first least. */
  ghost predicate Balanced(p: PState, loads: seq<nat>) {
    && loads != [] && Loads(p.ws) == loads
    && match p.disp
       case Ready => true
       case Scanning(_, _, i, best, bestN) =>
         0 < i ==> i <= |loads| && Pool.IsFirstMin(loads[..i], best) && bestN == loads[best]
       case Handing(_, best) => Waits(p) ==> best == Pool.FirstMin(loads)
  }

  // --------------------------------------------------------------- a worker's step

  lemma CallsKept(c: Config, s: State, t: CallStep, tok: nat)
    requires CallEnabled(c, s, t) && !t.Offer?
    ensures IsWaiting(CallNext(c, s, t), tok) <==>
            IsWaiting(s, tok) && !((t.Register? || t.Refuse?) && t.tok == tok)
  {
    match t
    case Reclaim(x) => if x in s.sh.msgs {}
    case _ =>
  }

  /** Only a registration or a refusal ends a wait, and it is the dispatcher's call's. */
  lemma WaitsKept(u: Setup, p: PState, i: nat, w: Step)
    requires PInv(u, p) && PEnabled(u, p, OfWorker(i, w))
    ensures var t := OfWorker(i, w);
      && (Registers(t) || Refuses(t) ==> Waits(p) && i == p.disp.best)
      && (Waits(PNext(u, p, t)) <==> Waits(p) && !Registers(t) && !Refuses(t))
  {
    if w.Dispatch? {
      if w.call.Register? || w.call.Refuse? { assert Tracked(u, p, w.call.tok); }
      if p.disp.Handing? { CallsKept(u.w, p.ws[i], w.call, p.disp.tok); }
    } else {
      StepEvolves(u.w, p.ws[i], w);
    }
  }

  lemma LoadsUpdated(ws: seq<State>, i: nat, v: State)
    requires i < |ws|
    ensures Loads(ws[i := v]) == Loads(ws)[i := Load(v)]
  {
  }

  lemma RegisterAddsOne(c: Config, s: State, t: CallStep)
    requires Inv(c, s) && CallEnabled(c, s, t) && t.Register?
    ensures Load(CallNext(c, s, t)) == Load(s) + 1
  {
    assert Invariants.Message(s, t.id);
    RegisterTakesASlot(s.sh, Entry(t.tok, t.chain, c.timed, false));
  }

  lemma CalmKeepsLoad(c: Config, s: State, t: Step)
    requires Inv(c, s) && Enabled(c, s, t) && !(t.Dispatch? && t.call.Register?)
    requires Load(s) <= Load(Next(c, s, t))
    ensures Load(Next(c, s, t)) == Load(s)
  {
    StepKeepsInv(c, s, t);
  }

  lemma RegistrationKeepsBalance(u: Setup, p: PState, i: nat, w: Step, loads: seq<nat>)
    requires Balanced(p, loads) && i < |p.ws| && Inv(u.w, p.ws[i])
    requires Enabled(u.w, p.ws[i], w) && w.Dispatch? && w.call.Register?
    requires Waits(p) && i == p.disp.best
    requires !Waits(p.(ws := p.ws[i := Next(u.w, p.ws[i], w)]))
    ensures Balanced(p.(ws := p.ws[i := Next(u.w, p.ws[i], w)]), Pool.Filled(loads))
  {
    LoadsUpdated(p.ws, i, Next(u.w, p.ws[i], w));
    RegisterAddsOne(u.w, p.ws[i], w.call);
  }

  /** A worker that keeps its load, and the dispatcher's call if it waits there, as they are. */
  lemma SameLoadKeepsBalance(u: Setup, p: PState, i: nat, v: State, loads: seq<nat>)
    requires Balanced(p, loads) && i < |p.ws| && Load(v) == Load(p.ws[i])
    requires Waits(p.(ws := p.ws[i := v])) ==> Waits(p)
    ensures Balanced(p.(ws := p.ws[i := v]), loads)
  {
    LoadsUpdated(p.ws, i, v);
    assert Loads(p.ws)[i := Load(v)] == Loads(p.ws);
  }

  lemma WorkerKeepsBalance(u: Setup, p: PState, i: nat, w: Step, loads: seq<nat>)
    requires PInv(u, p) && PEnabled(u, p, OfWorker(i, w)) && Balanced(p, loads)
    requires Load(p.ws[i]) <= Load(Next(u.w, p.ws[i], w))
    ensures Balanced(PNext(u, p, OfWorker(i, w)), if Registers(OfWorker(i, w)) then Pool.Filled(loads) else loads)
  {
    WaitsKept(u, p, i, w);
    if Registers(OfWorker(i, w)) {
      RegistrationKeepsBalance(u, p, i, w, loads);
    } else {
      CalmKeepsLoad(u.w, p.ws[i], w);
      SameLoadKeepsBalance(u, p, i, Next(u.w, p.ws[i], w), loads);
    }
  }

  /** What one step of a calm run does to the loads and to the wait. */
  ghost predicate Counts(p: PState, t: PStep, q: PState, loads: seq<nat>)
    requires loads != []
  {
    && Balanced(q, if Registers(t) then Pool.Filled(loads) else loads)
    && One(Waits(q)) + One(Registers(t)) + One(Refuses(t)) == One(Waits(p)) + One(t.HandOver?)
  }

  // ----------------------------------------------------------- the dispatcher's step

  lemma ScanPicks(ns: seq<nat>, i: nat, best: nat)
    requires i < |ns| && (0 < i ==> Pool.IsFirstMin(ns[..i], best))
    ensures Pool.IsFirstMin(ns[..i + 1], if i == 0 || ns[i] < ns[best] then i else best)
  {
    assert ns[..i + 1] == ns[..i] + [ns[i]];
    if i > 0 { Pool.PickOne(ns[..i], best, ns[i]); }
  }

  lemma ScanCounts(u: Setup, p: PState, loads: seq<nat>)
    requires PEnabled(u, p, ScanOne) && Balanced(p, loads)
    ensures Counts(p, ScanOne, PNext(u, p, ScanOne), loads)
  {
    ScanPicks(loads, p.disp.i, p.disp.best);
  }

  /** A scan that is over has found the first least load. */
  lemma ScanFinds(u: Setup, p: PState, loads: seq<nat>)
    requires PEnabled(u, p, HandOver) && Balanced(p, loads)
    ensures p.disp.best == Pool.FirstMin(loads)
  {
    assert loads[..|loads|] == loads;
    Pool.FirstMinIsUnique(loads, p.disp.best, Pool.FirstMin(loads));
  }

  lemma HandOverCounts(u: Setup, p: PState, loads: seq<nat>)
    requires PEnabled(u, p, HandOver) && Balanced(p, loads)
    ensures Counts(p, HandOver, PNext(u, p, HandOver), loads)
  {
    var b := p.disp.best;
    var v := PNext(u, p, HandOver).ws[b];
    ScanFinds(u, p, loads);
    assert v.sh == p.ws[b].sh && IsWaiting(v, p.disp.tok);
    LoadsUpdated(p.ws, b, v);
    assert Loads(p.ws)[b := Load(v)] == Loads(p.ws);
  }

  lemma CloseCounts(u: Setup, p: PState, loads: seq<nat>)
    requires Balanced(p, loads) && PEnabled(u, p, CloseOne)
    ensures Counts(p, CloseOne, PNext(u, p, CloseOne), loads)
  {
    var v := Next(u.w, p.ws[p.shut.i], Close(BeginClose));
    assert v.calls == p.ws[p.shut.i].calls && Load(v) == Load(p.ws[p.shut.i]);
    SameLoadKeepsBalance(u, p, p.shut.i, v, loads);
  }

  lemma DispatcherCounts(u: Setup, p: PState, t: PStep, loads: seq<nat>)
    requires Balanced(p, loads) && PEnabled(u, p, t)
    requires t.Arrive? || t.CallReturned? || t.Shutdown? || t.KillOne? || t.AwaitOne?
    ensures Counts(p, t, PNext(u, p, t), loads)
  {
    if t.KillOne? { assert PNext(u, p, t).ws == p.ws; }
  }

  lemma WorkerStepCounts(u: Setup, p: PState, i: nat, w: Step, loads: seq<nat>)
    requires PInv(u, p) && PEnabled(u, p, OfWorker(i, w)) && Balanced(p, loads)
    requires Load(p.ws[i]) <= Load(Next(u.w, p.ws[i], w))
    ensures Counts(p, OfWorker(i, w), PNext(u, p, OfWorker(i, w)), loads)
  {
    WorkerKeepsBalance(u, p, i, w, loads);
    WaitsKept(u, p, i, w);
  }

  lemma StepCounts(u: Setup, p: PState, t: PStep, loads: seq<nat>)
    requires PInv(u, p) && PEnabled(u, p, t) && Balanced(p, loads)
    requires t.OfWorker? ==> Load(p.ws[t.i]) <= Load(Next(u.w, p.ws[t.i], t.t))
    ensures Counts(p, t, PNext(u, p, t), loads)
  {
    match t
    case OfWorker(i, w) => WorkerStepCounts(u, p, i, w, loads);
    case ScanOne => ScanCounts(u, p, loads);
    case HandOver => HandOverCounts(u, p, loads);
    case CloseOne => CloseCounts(u, p, loads);
    case _ => DispatcherCounts(u, p, t, loads);
  }

  lemma NoneFellAt(u: Setup, p: PState, i: nat, w: Step)
    requires PEnabled(u, p, OfWorker(i, w)) && NoneFell(p.ws, PNext(u, p, OfWorker(i, w)).ws)
    ensures Load(p.ws[i]) <= Load(Next(u.w, p.ws[i], w))
  {
    assert PNext(u, p, OfWorker(i, w)).ws[i] == Next(u.w, p.ws[i], w);
  }

  /** The state of a calm run, and its counts so far. */
  ghost predicate Tallied(u: Setup, p: PState, tr: seq<PStep>)
    requires u.size >= 1
  {
    && Balanced(p, Pool.Placed(u.size, Registrations(tr)))
    && HandOvers(tr) == Registrations(tr) + Refusals(tr) + One(Waits(p))
  }

  lemma OneMoreTallied(u: Setup, p: PState, q: PState, tr: seq<PStep>)
    requires u.size >= 1 && tr != [] && Tallied(u, p, tr[..|tr| - 1])
    requires Counts(p, tr[|tr| - 1], q, Pool.Placed(u.size, Registrations(tr[..|tr| - 1])))
    ensures Tallied(u, q, tr)
  {
    var m, t := Registrations(tr[..|tr| - 1]), tr[|tr| - 1];
    assert Registrations(tr) == if Registers(t) then m + 1 else m;
    Pool.PlacedOneMore(u.size, m);
  }

  lemma {:induction false} TalliedAlways(u: Setup, tr: seq<PStep>)
    requires u.size >= 1 && PExec(u, tr).Some? && Calm(u, tr)
    ensures Tallied(u, PExec(u, tr).value, tr)
  {
    if tr != [] {
      var before, t := tr[..|tr| - 1], tr[|tr| - 1];
      var p := PExec(u, before).value;
      TalliedAlways(u, before);
      PReachable(u, before);
      if t.OfWorker? { NoneFellAt(u, p, t.i, t.t); }
      StepCounts(u, p, t, Pool.Placed(u.size, Registrations(before)));
      OneMoreTallied(u, p, PNext(u, p, t), tr);
    }
  }

  lemma LoadsAreEven(ws: seq<State>, size: nat, n: nat, q: nat, r: nat)
    requires size >= 1 && q == n / size && r == n % size && Loads(ws) == Pool.Placed(size, n)
    ensures |ws| == size && forall i :: 0 <= i < |ws| ==> Load(ws[i]) == if i < r then q + 1 else q
  {
    Pool.BalancedPlacement(size, n, q, r);
    assert forall i :: 0 <= i < |ws| ==> Loads(ws)[i] == Load(ws[i]);
  }

  lemma NextPlace(size: nat, n: nat, r: nat)
    requires size >= 1 && r == n % size
    ensures Pool.FirstMin(Pool.Placed(size, n)) == r
  {
    Pool.BalancedPlacement(size, n, n / size, r);
  }

  /** In every run of the engine in which no load falls, with spawns, installs, closes and the
      deaths of idle workers in between: after n registrations every load is the average,
      rounded down, or up for the first n mod size workers; and the next delivery is handed
      to worker n mod size, where there is room if the pool is not full. Without refusals n is
      the number of deliveries handed over. */
  lemma {:induction false} PlacedRoundRobin(u: Setup, tr: seq<PStep>, n: nat, q: nat, r: nat)
    requires u.size >= 1 && PExec(u, tr).Some? && Calm(u, tr)
    requires n == Registrations(tr) && q == n / u.size && r == n % u.size
    ensures var p := PExec(u, tr).value;
      && (forall i :: 0 <= i < |p.ws| ==> Load(p.ws[i]) == if i < r then q + 1 else q)
      && (PEnabled(u, p, HandOver) ==> p.disp.best == r && HandOvers(tr) == n + Refusals(tr))
      && (n < u.size * u.w.cap ==> q < u.w.cap)
  {
    var p := PExec(u, tr).value;
    PReachable(u, tr);
    TalliedAlways(u, tr);
    LoadsAreEven(p.ws, u.size, n, q, r);
    NextPlace(u.size, n, r);
    Pool.BelowAverage(n, u.size, u.w.cap, q);
    if PEnabled(u, p, HandOver) { ScanFinds(u, p, Pool.Placed(u.size, n)); }
  }
}
