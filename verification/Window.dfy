/** What a window larger than the pool leads to: a delivery that waits for a slot. */
module Window {
  import opened Common
  import opened Sections
  import opened Lifecycle
  import opened Invariants
  import opened Admission
  import opened Engine

  // ----------------------------------------------------------- a worker filling up

  /** A worker with a live process that takes deliveries and settles none. */
  predicate Steady(c: Config, s: State) {
    && s.sup.Reading? && s.sup.rd.Idle? && s.sh.cur == Some(s.sup.g) && s.sup.g < |s.procs|
    && !s.sh.closing && s.cancelled == {} && s.flights == map[] && s.requeueing == map[]
    && s.called == INIT.called && |s.procs[s.sup.g].out| <= Load(s)
  }

  function Offered(s: State, tok: nat): State {
    s.(calls := s.calls[tok := Waiting([])])
  }

  function Registered(c: Config, s: State, tok: nat): State
    requires CallEnabled(c, s, Register(tok, s.sh.nextID, []))
  {
    CallNext(c, s, Register(tok, s.sh.nextID, []))
  }

  function Sent(c: Config, s: State, id: int): State
    requires CallEnabled(c, s, SendOk(id))
  {
    CallNext(c, s, SendOk(id))
  }

  lemma RegistersOne(c: Config, s: State, tok: nat)
    requires Inv(c, s) && Steady(c, s) && Load(s) < c.cap
    ensures var o := Offered(s, tok);
      && CallEnabled(c, o, Register(tok, s.sh.nextID, []))
      && Load(Registered(c, o, tok)) == Load(s) + 1
      && CallEnabled(c, Registered(c, o, tok), SendOk(s.sh.nextID))
  {
    assert Invariants.Message(s, s.sh.nextID);
    RegisterTakesASlot(s.sh, Entry(tok, [], c.timed, false));
  }

  lemma SendsOne(c: Config, s: State, tok: nat)
    requires Inv(c, s) && Steady(c, s) && Load(s) < c.cap
    requires CallEnabled(c, Offered(s, tok), Register(tok, s.sh.nextID, []))
    requires CallEnabled(c, Registered(c, Offered(s, tok), tok), SendOk(s.sh.nextID))
    requires Load(Registered(c, Offered(s, tok), tok)) == Load(s) + 1
    ensures var v := Sent(c, Registered(c, Offered(s, tok), tok), s.sh.nextID);
      Steady(c, v) && Load(v) == Load(s) + 1 && HasReturned(v, tok)
  {
  }

  // --------------------------------------------------------------- the pool, filling up

  /** A run of the engine that keeps within the window, and where it has led. */
  ghost predicate At(u: Setup, tr: seq<PStep>, prefetch: nat, p: PState) {
    PExec(u, tr) == Some(p) && Windowed(u, tr, prefetch)
  }

  lemma OneMoreAt(u: Setup, tr: seq<PStep>, prefetch: nat, p: PState, t: PStep)
    requires At(u, tr, prefetch, p) && PEnabled(u, p, t) && (t.Arrive? ==> |Unsettled(p)| < prefetch)
    ensures At(u, tr + [t], prefetch, PNext(u, p, t))
  {
    assert (tr + [t])[..|tr + [t]| - 1] == tr;
  }

  predicate AllSteady(u: Setup, p: PState) {
    && |p.ws| == u.size
    && forall i :: 0 <= i < |p.ws| ==> Steady(u.w, p.ws[i])
  }

  /** Everything that arrived is in flight. */
  ghost predicate Filling(u: Setup, p: PState) {
    p.disp.Ready? && AllSteady(u, p) && |p.arrivals| == TotalLoad(p.ws)
  }

  lemma {:induction false} Naturals(n: nat) returns (s: set<nat>)
    ensures |s| == n && forall k: nat :: k in s <==> k < n
  {
    if n == 0 {
      s := {};
    } else {
      s := Naturals(n - 1);
      s := s + {n - 1};
    }
  }

  lemma UnsettledArrived(p: PState)
    ensures |Unsettled(p)| <= |p.arrivals|
  {
    var s := Naturals(|p.arrivals|);
    SubsetSize(Unsettled(p), s);
  }

  lemma {:induction false} TotalUpdated(ws: seq<State>, i: nat, v: State)
    requires i < |ws|
    ensures TotalLoad(ws[i := v]) == TotalLoad(ws) - Load(ws[i]) + Load(v)
  {
    var n := |ws| - 1;
    if i == n {
      assert ws[i := v][..n] == ws[..n];
    } else {
      TotalUpdated(ws[..n], i, v);
      assert ws[i := v][..n] == ws[..n][i := v];
    }
  }

  lemma {:induction false} TotalAtMost(ws: seq<State>, cap: nat)
    requires forall i :: 0 <= i < |ws| ==> Load(ws[i]) <= cap
    ensures TotalLoad(ws) <= |ws| * cap
    ensures (exists i :: 0 <= i < |ws| && Load(ws[i]) < cap) ==> TotalLoad(ws) < |ws| * cap
  {
    if ws != [] {
      var n := |ws| - 1;
      TotalAtMost(ws[..n], cap);
      assert (n + 1) * cap == n * cap + cap;
      if i :| 0 <= i < |ws| && Load(ws[i]) < cap && i != n { assert ws[..n][i] == ws[i]; }
    }
  }

  /** A delivery that decodes and is admitted, whatever the limits. */
  const PLAIN := Incoming.Message([])

  lemma {:induction false} ScansOn(u: Setup, tr: seq<PStep>, prefetch: nat, p: PState)
    returns (more: seq<PStep>, q: PState)
    requires At(u, tr, prefetch, p) && p.disp.Scanning? && p.disp.i <= |p.ws|
    ensures At(u, more, prefetch, q) && q.disp.Scanning? && q.disp.i == |p.ws|
    ensures q == p.(disp := p.disp.(i := q.disp.i, best := q.disp.best, bestN := q.disp.bestN))
    decreases |p.ws| - p.disp.i
  {
    if p.disp.i == |p.ws| {
      more, q := tr, p;
    } else {
      OneMoreAt(u, tr, prefetch, p, ScanOne);
      more, q := ScansOn(u, tr + [ScanOne], prefetch, PNext(u, p, ScanOne));
    }
  }

  /** One more delivery arrives at a pool that settles nothing, and is placed. */
  lemma Places(u: Setup, tr: seq<PStep>, prefetch: nat, p: PState)
    returns (more: seq<PStep>, q: PState)
    requires u.size >= 1 && At(u, tr, prefetch, p) && Filling(u, p) && |p.arrivals| < prefetch
    ensures At(u, more, prefetch, q) && PInv(u, q)
    ensures q.disp.Scanning? && q.disp.tok == |p.arrivals| && q.disp.chain == [] && q.disp.i == |p.ws|
    ensures q.disp.best < |p.ws| && q.disp.tok !in p.ws[q.disp.best].calls
    ensures q.ws == p.ws && q.start == Loads(p.ws) && q.arrivals == p.arrivals + [PLAIN]
  {
    AdmitsTheFirst(u.agent, u.limits);
    UnsettledArrived(p);
    OneMoreAt(u, tr, prefetch, p, Arrive(PLAIN));
    more, q := ScansOn(u, tr + [Arrive(PLAIN)], prefetch, PNext(u, p, Arrive(PLAIN)));
    PReachable(u, more);
    PGuardsNeverBlock(u, more);
  }

  lemma PickHasRoom(u: Setup, q: PState)
    requires PInv(u, q) && q.disp.Scanning? && q.disp.i == |q.ws| && q.start == Loads(q.ws)
    requires exists j :: 0 <= j < |q.ws| && Load(q.ws[j]) < u.w.cap
    ensures q.disp.best < |q.ws| && Load(q.ws[q.disp.best]) < u.w.cap
  {
    var j :| 0 <= j < |q.ws| && Load(q.ws[j]) < u.w.cap;
    assert q.start[j] == Load(q.ws[j]);
  }

  /** The state of the pool once the delivery is handed over, with worker `b` then in `v`. */
  function Given(q: PState, b: nat, v: State): PState
    requires q.disp.Scanning? && b < |q.ws|
  {
    q.(ws := q.ws[b := v], disp := Handing(q.disp.tok, b))
  }

  lemma HandsOver(u: Setup, tr: seq<PStep>, prefetch: nat, q: PState)
    requires At(u, tr, prefetch, q) && q.disp.Scanning? && q.disp.i == |q.ws| && q.disp.chain == []
    requires q.disp.best < |q.ws| && q.disp.tok !in q.ws[q.disp.best].calls
    ensures var b := q.disp.best;
      At(u, tr + [HandOver], prefetch, Given(q, b, Offered(q.ws[b], q.disp.tok)))
  {
    OneMoreAt(u, tr, prefetch, q, HandOver);
  }

  /** One more step of the worker that was handed the delivery. */
  lemma WorkerGoesOn(u: Setup, tr: seq<PStep>, prefetch: nat, q: PState, b: nat, v: State, w: Step)
    requires q.disp.Scanning? && b < |q.ws| && At(u, tr, prefetch, Given(q, b, v))
    requires !ByTheEngine(w) && Enabled(u.w, v, w)
    ensures At(u, tr + [OfWorker(b, w)], prefetch, Given(q, b, Next(u.w, v, w)))
  {
    OneMoreAt(u, tr, prefetch, Given(q, b, v), OfWorker(b, w));
    assert q.ws[b := v][b := Next(u.w, v, w)] == q.ws[b := Next(u.w, v, w)];
  }

  /** The worker's part of taking and sending it. */
  lemma Takes(u: Setup, tr: seq<PStep>, prefetch: nat, q: PState, b: nat) returns (more: seq<PStep>, v: State)
    requires q.disp.Scanning? && b < |q.ws| && Inv(u.w, q.ws[b]) && Steady(u.w, q.ws[b]) && Load(q.ws[b]) < u.w.cap
    requires At(u, tr, prefetch, Given(q, b, Offered(q.ws[b], q.disp.tok)))
    ensures At(u, more, prefetch, Given(q, b, v))
    ensures Steady(u.w, v) && Load(v) == Load(q.ws[b]) + 1 && HasReturned(v, q.disp.tok)
  {
    var s, tok := q.ws[b], q.disp.tok;
    var id := s.sh.nextID;
    RegistersOne(u.w, s, tok);
    SendsOne(u.w, s, tok);
    var r := Registered(u.w, Offered(s, tok), tok);
    v := Sent(u.w, r, id);
    var t1, t2 := Dispatch(Register(tok, id, [])), Dispatch(SendOk(id));
    WorkerGoesOn(u, tr, prefetch, q, b, Offered(s, tok), t1);
    WorkerGoesOn(u, tr + [OfWorker(b, t1)], prefetch, q, b, r, t2);
    more := tr + [OfWorker(b, t1)] + [OfWorker(b, t2)];
  }

  lemma Returns(u: Setup, tr: seq<PStep>, prefetch: nat, q: PState, b: nat, v: State)
    requires q.disp.Scanning? && b < |q.ws| && HasReturned(v, q.disp.tok) && At(u, tr, prefetch, Given(q, b, v))
    ensures At(u, tr + [CallReturned], prefetch, q.(ws := q.ws[b := v], disp := Ready))
  {
    OneMoreAt(u, tr, prefetch, Given(q, b, v), CallReturned);
  }

  /** The delivery is taken, sent, and stays in flight. */
  lemma Serves(u: Setup, tr: seq<PStep>, prefetch: nat, q: PState) returns (more: seq<PStep>, v: State)
    requires At(u, tr, prefetch, q) && PInv(u, q) && AllSteady(u, q)
    requires q.disp.Scanning? && q.disp.i == |q.ws| && q.disp.chain == []
    requires q.disp.best < |q.ws| && q.disp.tok !in q.ws[q.disp.best].calls
    requires Load(q.ws[q.disp.best]) < u.w.cap
    ensures Steady(u.w, v) && Load(v) == Load(q.ws[q.disp.best]) + 1
    ensures At(u, more, prefetch, q.(ws := q.ws[q.disp.best := v], disp := Ready))
  {
    var b := q.disp.best;
    HandsOver(u, tr, prefetch, q);
    more, v := Takes(u, tr + [HandOver], prefetch, q, b);
    Returns(u, more, prefetch, q, b, v);
    more := more + [CallReturned];
  }

  // ---------------------------------------------------------------------- starting up

  /** The first `k` workers have a process. */
  predicate Started(u: Setup, p: PState, k: nat) {
    && p == PInit(u).(ws := p.ws) && |p.ws| == u.size
    && forall i :: 0 <= i < u.size ==> p.ws[i] == if i < k then UP else INIT
  }

  const UP := INIT.(sup := Reading(0, Idle), procs := [NEW_PROC], sh := Installed(FRESH, 0))

  lemma UpIsSteady(c: Config)
    ensures Steady(c, UP) && Load(UP) == 0
  {
  }

  lemma StartsOne(u: Setup, tr: seq<PStep>, prefetch: nat, p: PState, k: nat)
    returns (more: seq<PStep>, q: PState)
    requires At(u, tr, prefetch, p) && Started(u, p, k) && k < u.size
    ensures At(u, more, prefetch, q) && Started(u, q, k + 1)
  {
    var t1, t2 := OfWorker(k, Supervise(SpawnOk)), OfWorker(k, Supervise(Install));
    OneMoreAt(u, tr, prefetch, p, t1);
    var p1 := PNext(u, p, t1);
    OneMoreAt(u, tr + [t1], prefetch, p1, t2);
    more, q := tr + [t1] + [t2], PNext(u, p1, t2);
    assert q.ws[k] == UP;
  }

  lemma {:induction false} StartsUp(u: Setup, prefetch: nat, k: nat) returns (tr: seq<PStep>, p: PState)
    requires k <= u.size
    ensures At(u, tr, prefetch, p) && Started(u, p, k)
  {
    if k == 0 {
      tr, p := [], PInit(u);
    } else {
      tr, p := StartsUp(u, prefetch, k - 1);
      tr, p := StartsOne(u, tr, prefetch, p, k - 1);
    }
  }

  lemma {:induction false} NoLoad(ws: seq<State>)
    requires forall i :: 0 <= i < |ws| ==> Load(ws[i]) == 0
    ensures TotalLoad(ws) == 0
  {
    if ws != [] { NoLoad(ws[..|ws| - 1]); }
  }

  // ------------------------------------------------------------------------- waiting

  /** A delivery waits at a worker with a live process and no slot. */
  ghost predicate WaitsForASlot(u: Setup, p: PState) {
    exists i, tok: nat :: 0 <= i < |p.ws| && StuckAt(u, p, i, tok)
  }

  predicate StuckAt(u: Setup, p: PState, i: nat, tok: nat)
    requires i < |p.ws|
  {
    Knows(p.ws[i], tok) && p.ws[i].calls[tok].Waiting? && p.ws[i].sh.cur.Some? && Load(p.ws[i]) >= u.w.cap
  }

  predicate HasSlot(u: Setup, p: PState) {
    exists j :: 0 <= j < |p.ws| && Load(p.ws[j]) < u.w.cap
  }

  lemma StillFilling(u: Setup, p: PState, q: PState, b: nat, v: State)
    requires Filling(u, p) && b < |p.ws| && Steady(u.w, v) && Load(v) == Load(p.ws[b]) + 1
    requires q.disp.Ready? && q.ws == p.ws[b := v] && |q.arrivals| == |p.arrivals| + 1
    ensures Filling(u, q) && TotalLoad(q.ws) == TotalLoad(p.ws) + 1
  {
    TotalUpdated(p.ws, b, v);
  }

  /** With a slot left, one more delivery is taken. */
  lemma FillsOne(u: Setup, tr: seq<PStep>, prefetch: nat, p: PState)
    returns (more: seq<PStep>, q: PState)
    requires u.size >= 1 && At(u, tr, prefetch, p) && Filling(u, p) && |p.arrivals| < prefetch && HasSlot(u, p)
    ensures At(u, more, prefetch, q) && Filling(u, q) && TotalLoad(q.ws) == TotalLoad(p.ws) + 1
  {
    more, q := Places(u, tr, prefetch, p);
    PickHasRoom(u, q);
    var b, v := q.disp.best, INIT;
    more, v := Serves(u, more, prefetch, q);
    q := q.(ws := q.ws[b := v], disp := Ready);
    StillFilling(u, p, q, b, v);
  }

  /** With none left, it waits. */
  lemma WaitsAtLast(u: Setup, tr: seq<PStep>, prefetch: nat, p: PState)
    returns (more: seq<PStep>, q: PState)
    requires u.size >= 1 && At(u, tr, prefetch, p) && Filling(u, p) && |p.arrivals| < prefetch && !HasSlot(u, p)
    ensures At(u, more, prefetch, q) && WaitsForASlot(u, q)
  {
    more, q := Places(u, tr, prefetch, p);
    var b, tok := q.disp.best, q.disp.tok;
    HandsOver(u, more, prefetch, q);
    more, q := more + [HandOver], Given(q, b, Offered(q.ws[b], tok));
    assert StuckAt(u, q, b, tok);
  }

  lemma LoadsWithinCapacity(u: Setup, tr: seq<PStep>, p: PState)
    requires PExec(u, tr) == Some(p)
    ensures TotalLoad(p.ws) <= u.size * u.w.cap && (HasSlot(u, p) ==> TotalLoad(p.ws) < u.size * u.w.cap)
  {
    PReachable(u, tr);
    TotalAtMost(p.ws, u.w.cap);
  }

  /** With everything in flight and room left in the window, the pool goes on filling up
      until a delivery waits for a slot. */
  lemma {:induction false} FillsUp(u: Setup, tr: seq<PStep>, prefetch: nat, p: PState)
    returns (more: seq<PStep>, q: PState)
    requires u.size >= 1 && At(u, tr, prefetch, p) && Filling(u, p) && u.size * u.w.cap < prefetch
    ensures At(u, more, prefetch, q) && WaitsForASlot(u, q)
    decreases u.size * u.w.cap - TotalLoad(p.ws)
  {
    LoadsWithinCapacity(u, tr, p);
    if HasSlot(u, p) {
      more, q := FillsOne(u, tr, prefetch, p);
      more, q := FillsUp(u, more, prefetch, q);
    } else {
      more, q := WaitsAtLast(u, tr, prefetch, p);
    }
  }

  /** For any pool and any window larger than it, some run within the window leads to a
      delivery that waits for a slot. */
  lemma LargerWindowWaits(u: Setup, prefetch: nat) returns (tr: seq<PStep>)
    requires u.size >= 1 && u.size * u.w.cap < prefetch
    ensures PExec(u, tr).Some? && Windowed(u, tr, prefetch) && WaitsForASlot(u, PExec(u, tr).value)
  {
    var start, p := StartsUp(u, prefetch, u.size);
    UpIsSteady(u.w);
    NoLoad(p.ws);
    var q;
    tr, q := FillsUp(u, start, prefetch, p);
  }
}
