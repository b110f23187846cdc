/** The whole engine: deliveries arrive one at a time from the broker, are decoded and
    admitted or dropped, placed on the least loaded worker, and settled there, while all
    the workers run and the pool may be shut down. */
module Engine {
  import opened Common
  import opened Sections
  import opened Lifecycle
  import opened Invariants
  import opened Admission
  import opened Evolution
  import opened Closing

  datatype Setup = Setup(w: Config, size: nat, agent: string, limits: Limits)

  /** A delivery that does not decode, or one that does, with the chain it carries. */
  datatype Incoming = Garbage | Message(chain: seq<string>)

  datatype Verdict = DropNacked | DropAcked | HandOn

  /** What becomes of a delivery before it reaches the pool. */
  function Triage(u: Setup, d: Incoming): Verdict {
    match d
    case Garbage => DropNacked
    case Message(chain) => if Admits(chain, u.agent, u.limits) then HandOn else DropAcked
  }

  /** The one dispatching goroutine: waiting for a delivery, scanning the loads, or inside a
      worker's Dispatch. */
  datatype Disp =
    | Ready
    | Scanning(tok: nat, chain: seq<string>, i: nat, best: nat, bestN: nat)
    | Handing(tok: nat, best: nat)

  /** Where Shutdown is: waiting for worker `i` it may have killed it, once the grace is over. */
  datatype Shut = Open | ClosingAll(i: nat) | Awaiting(i: nat, killed: bool) | Returned

  /** A delivery is named by its place among the arrivals. `start` records the loads when
      the last scan began, `early` the callbacks made before the pool was reached. */
  datatype PState = PState(ws: seq<State>, disp: Disp, start: seq<nat>, arrivals: seq<Incoming>,
                           early: Calls, shut: Shut)

  datatype PStep =
    | OfWorker(i: nat, t: Step)
    | Arrive(d: Incoming) | ScanOne | HandOver | CallReturned
    | Shutdown | CloseOne | KillOne | AwaitOne

  function PInit(u: Setup): PState {
    PState(seq(u.size, _ => INIT), Ready, [], [], INIT.called, Open)
  }

  function Load(s: State): nat {
    |s.sh.msgs|
  }

  function Loads(ws: seq<State>): (ns: seq<nat>)
    ensures |ns| == |ws|
  {
    seq(|ws|, i requires 0 <= i < |ws| => Load(ws[i]))
  }

  /** Worker.Dispatch has returned: refused, or registered and done with its send. */
  predicate HasReturned(s: State, tok: nat) {
    tok in s.calls
    && match s.calls[tok]
       case Waiting(_) => false
       case Refused => true
       case Taken(id) => id !in s.flights && id !in s.requeueing
  }

  /** The steps of a worker that only the dispatcher or Shutdown takes. */
  predicate ByTheEngine(w: Step) {
    (w.Dispatch? && w.call.Offer?) || w == Close(BeginClose) || w == Close(Kill)
  }

  predicate PEnabled(u: Setup, p: PState, t: PStep) {
    match t
    case OfWorker(i, w) => i < |p.ws| && !ByTheEngine(w) && Enabled(u.w, p.ws[i], w)
    case Arrive(_) => p.disp.Ready?
    case ScanOne => p.disp.Scanning? && p.disp.i < |p.ws|
    case HandOver =>
      p.disp.Scanning? && p.disp.i == |p.ws| && p.disp.best < |p.ws| && p.disp.tok !in p.ws[p.disp.best].calls
    case CallReturned => p.disp.Handing? && p.disp.best < |p.ws| && HasReturned(p.ws[p.disp.best], p.disp.tok)
    case Shutdown => p.shut.Open?
    case CloseOne => p.shut.ClosingAll? && p.shut.i < |p.ws|
    case KillOne => p.shut.Awaiting? && !p.shut.killed && p.shut.i < |p.ws|
    case AwaitOne => p.shut.Awaiting? && p.shut.i < |p.ws| && p.ws[p.shut.i].sup.Stopped?
  }

  function PNext(u: Setup, p: PState, t: PStep): PState
    requires PEnabled(u, p, t)
  {
    match t
    case OfWorker(i, w) => p.(ws := p.ws[i := Next(u.w, p.ws[i], w)])
    case Arrive(d) =>
      var tok := |p.arrivals|;
      var q := p.(arrivals := p.arrivals + [d]);
      (match Triage(u, d)
       case DropNacked => q.(early := Made(p.early, tok, Nack))
       case DropAcked => q.(early := Made(p.early, tok, Kind.Ack))
       case HandOn => q.(disp := Scanning(tok, d.chain, 0, 0, 0), start := Loads(p.ws)))
    case ScanOne =>
      var n := Load(p.ws[p.disp.i]);
      var better := p.disp.i == 0 || n < p.disp.bestN;
      p.(disp := p.disp.(i := p.disp.i + 1, best := if better then p.disp.i else p.disp.best,
                         bestN := if better then n else p.disp.bestN))
    case HandOver =>
      var b := p.disp.best;
      p.(ws := p.ws[b := Next(u.w, p.ws[b], Dispatch(Offer(p.disp.tok, p.disp.chain)))],
         disp := Handing(p.disp.tok, b))
    case CallReturned => p.(disp := Ready)
    case Shutdown => p.(shut := ClosingAll(0))
    case CloseOne =>
      var i := p.shut.i;
      p.(ws := p.ws[i := Next(u.w, p.ws[i], Close(BeginClose))],
         shut := if i + 1 < |p.ws| then ClosingAll(i + 1) else Awaiting(0, false))
    case KillOne =>
      var i := p.shut.i;
      p.(ws := p.ws[i := Next(u.w, p.ws[i], Close(Kill))], shut := Awaiting(i, true))
    case AwaitOne => p.(shut := if p.shut.i + 1 < |p.ws| then Awaiting(p.shut.i + 1, false) else Returned)
  }

  function PExec(u: Setup, tr: seq<PStep>): Option<PState> {
    if tr == [] then Some(PInit(u))
    else
      match PExec(u, tr[..|tr| - 1])
      case None => None
      case Some(p) =>
        var t := tr[|tr| - 1];
        if PEnabled(u, p, t) then Some(PNext(u, p, t)) else None
  }

  // ---------------------------------------------------------------- invariants

  function EarlyCalled(p: PState, tok: nat): nat {
    p.early.acks[tok] + p.early.nacks[tok] + p.early.requeues[tok]
  }

  predicate Knows(s: State, tok: nat) {
    tok in s.calls
  }

  /** A delivery is known to at most one worker, to none if it was dropped early or is still
      being placed, and is waiting only in the dispatcher's current call; and its early
      callbacks are exactly those of the triage. */
  ghost predicate Tracked(u: Setup, p: PState, tok: nat) {
    && (forall i :: 0 <= i < |p.ws| && Knows(p.ws[i], tok) ==>
          && tok < |p.arrivals| && Triage(u, p.arrivals[tok]).HandOn?
          && !(p.disp.Scanning? && p.disp.tok == tok)
          && (p.ws[i].calls[tok].Waiting? ==> p.disp == Handing(tok, i)))
    && (forall i, j :: 0 <= i < j < |p.ws| && Knows(p.ws[i], tok) ==> !Knows(p.ws[j], tok))
    && (if tok < |p.arrivals| then
          && p.early.acks[tok] == One(Triage(u, p.arrivals[tok]).DropAcked?)
          && p.early.nacks[tok] == One(Triage(u, p.arrivals[tok]).DropNacked?)
          && p.early.requeues[tok] == 0
        else
          EarlyCalled(p, tok) == 0)
  }

  ghost predicate Current(u: Setup, p: PState) {
    match p.disp
    case Ready => true
    case Scanning(tok, _, _, _, _) => tok < |p.arrivals| && Triage(u, p.arrivals[tok]).HandOn?
    case Handing(tok, best) => best < |p.ws| && Knows(p.ws[best], tok)
  }

  /** The scan's best load so far is a bound for the worker it stands for and is below every
      load read, and loads have only fallen since the scan began. */
  ghost predicate Scanned(p: PState) {
    match p.disp
    case Ready => true
    case Scanning(_, _, i, best, bestN) =>
      && |p.start| == |p.ws| && i <= |p.ws|
      && (forall j :: 0 <= j < |p.ws| ==> Load(p.ws[j]) <= p.start[j])
      && (0 < i ==> best < i && Load(p.ws[best]) <= bestN)
      && (forall j :: 0 <= j < i ==> bestN <= p.start[j])
    case Handing(tok, best) =>
      best < |p.ws| && |p.start| == |p.ws|
      && (Knows(p.ws[best], tok) && p.ws[best].calls[tok].Waiting? ==>
            forall j :: 0 <= j < |p.ws| ==> Load(p.ws[best]) <= p.start[j])
  }

  /** The workers told to close so far, and those Shutdown has seen stop. */
  function Told(p: PState): nat {
    match p.shut case Open => 0 case ClosingAll(i) => i case _ => |p.ws|
  }

  function SeenStopped(p: PState): nat {
    match p.shut case Awaiting(i, _) => i case Returned => |p.ws| case _ => 0
  }

  ghost predicate Stops(p: PState) {
    && SeenStopped(p) <= |p.ws| && Told(p) <= |p.ws|
    && (|p.ws| > 0 && (p.shut.ClosingAll? || p.shut.Awaiting?) ==> p.shut.i < |p.ws|)
    && (forall j :: 0 <= j < Told(p) ==> p.ws[j].sh.closing)
    && (forall j :: 0 <= j < SeenStopped(p) ==> p.ws[j].sup.Stopped?)
  }

  ghost predicate PInv(u: Setup, p: PState) {
    && |p.ws| == u.size
    && (forall i :: 0 <= i < |p.ws| ==> Inv(u.w, p.ws[i]))
    && (forall tok: nat :: Tracked(u, p, tok))
    && Current(u, p) && Scanned(p) && Stops(p)
  }

  /** What a worker's step may do that the others notice: no new calls, none back to
      waiting, and no rise in load unless a waiting call registers. */
  ghost predicate Quiet(s: State, v: State) {
    && (forall tok :: Knows(v, tok) <==> Knows(s, tok))
    && (forall tok :: Knows(v, tok) && v.calls[tok].Waiting? ==> s.calls[tok].Waiting?)
    && (s.sup.Stopped? ==> v.sup.Stopped?) && (s.sh.closing ==> v.sh.closing)
    && (Load(v) <= Load(s) || exists tok :: Knows(s, tok) && s.calls[tok].Waiting? && v.calls[tok].Taken?)
  }

  lemma QuietCall(c: Config, s: State, t: CallStep, tok: nat)
    requires CallEnabled(c, s, t) && !t.Offer?
    ensures var v := CallNext(c, s, t);
      && (Knows(v, tok) <==> Knows(s, tok))
      && (Knows(v, tok) && v.calls[tok].Waiting? ==> s.calls[tok].Waiting?)
      && (t.Register? && t.tok == tok ==> Knows(s, tok) && s.calls[tok].Waiting? && v.calls[tok].Taken?)
  {
    match t
    case Reclaim(x) => if x in s.sh.msgs {}
    case _ =>
  }

  lemma QuietStep(c: Config, s: State, t: Step)
    requires Inv(c, s) && Enabled(c, s, t) && !(t.Dispatch? && t.call.Offer?)
    ensures Inv(c, Next(c, s, t)) && Quiet(s, Next(c, s, t))
  {
    StepKeepsInv(c, s, t);
    StepEvolves(c, s, t);
    if t.Dispatch? {
      forall tok ensures
        var v := CallNext(c, s, t.call);
        && (Knows(v, tok) <==> Knows(s, tok))
        && (Knows(v, tok) && v.calls[tok].Waiting? ==> s.calls[tok].Waiting?)
      {
        QuietCall(c, s, t.call, tok);
      }
      if t.call.Register? { QuietCall(c, s, t.call, t.call.tok); }
    }
    if s.sup.Stopped? {
      StoppedIsComplete(c, s);
      StaysOver(c, s, t);
    }
    if s.sh.closing { EndingStep(c, s, t); }
  }

  /** Replacing one worker by what it quietly becomes keeps everything. */
  lemma QuietKeepsPInv(u: Setup, p: PState, i: nat, v: State)
    requires PInv(u, p) && i < |p.ws| && Inv(u.w, v) && Quiet(p.ws[i], v)
    ensures PInv(u, p.(ws := p.ws[i := v]))
  {
    var q := p.(ws := p.ws[i := v]);
    forall tok: nat ensures Tracked(u, q, tok) {
      assert Tracked(u, p, tok);
      assert Knows(v, tok) <==> Knows(p.ws[i], tok);
    }
    QuietKeepsScanned(u, p, i, v);
  }

  lemma QuietKeepsScanned(u: Setup, p: PState, i: nat, v: State)
    requires PInv(u, p) && i < |p.ws| && Quiet(p.ws[i], v)
    ensures Scanned(p.(ws := p.ws[i := v]))
  {
    if !(Load(v) <= Load(p.ws[i])) {
      var tok: nat :| Knows(p.ws[i], tok) && p.ws[i].calls[tok].Waiting? && v.calls[tok].Taken?;
      assert Tracked(u, p, tok);
    }
  }

  lemma OneMoreEarly(calls: Calls, made: nat, kind: Kind, tok: nat)
    ensures var more := Made(calls, made, kind);
      && more.acks[tok] == calls.acks[tok] + One(tok == made && kind == Kind.Ack)
      && more.nacks[tok] == calls.nacks[tok] + One(tok == made && kind == Nack)
      && more.requeues[tok] == calls.requeues[tok] + One(tok == made && kind == Requeue)
  {
    match kind case _ =>
  }

  lemma ArriveTracks(u: Setup, p: PState, d: Incoming, tok: nat)
    requires PEnabled(u, p, Arrive(d)) && Tracked(u, p, tok)
    ensures Tracked(u, PNext(u, p, Arrive(d)), tok)
  {
    var n := |p.arrivals|;
    OneMoreEarly(p.early, n, Nack, tok);
    OneMoreEarly(p.early, n, Kind.Ack, tok);
    assert tok < n ==> (p.arrivals + [d])[tok] == p.arrivals[tok];
    assert (p.arrivals + [d])[n] == d;
  }

  lemma ArriveKeepsPInv(u: Setup, p: PState, d: Incoming)
    requires PInv(u, p) && PEnabled(u, p, Arrive(d))
    ensures PInv(u, PNext(u, p, Arrive(d)))
  {
    forall tok: nat ensures Tracked(u, PNext(u, p, Arrive(d)), tok) {
      assert Tracked(u, p, tok);
      ArriveTracks(u, p, d, tok);
    }
  }

  lemma OfferKeepsInv(c: Config, s: State, tok: nat, chain: seq<string>)
    requires Inv(c, s) && tok !in s.calls
    ensures var v := Next(c, s, Dispatch(Offer(tok, chain)));
      && Inv(c, v) && v.calls == s.calls[tok := Waiting(chain)] && v.sh == s.sh && v.sup == s.sup
  {
    StepKeepsInv(c, s, Dispatch(Offer(tok, chain)));
  }

  lemma HandOverTracks(u: Setup, p: PState, tok: nat)
    requires PEnabled(u, p, HandOver) && Tracked(u, p, tok) && Tracked(u, p, p.disp.tok) && Current(u, p)
    ensures Tracked(u, PNext(u, p, HandOver), tok)
  {
    var q, b := PNext(u, p, HandOver), p.disp.best;
    assert q.ws[b].calls == p.ws[b].calls[p.disp.tok := Waiting(p.disp.chain)];
    forall i | 0 <= i < |p.ws|
      ensures Knows(q.ws[i], tok) <==> Knows(p.ws[i], tok) || (i == b && tok == p.disp.tok)
    {
    }
  }

  lemma HandOverScans(u: Setup, p: PState, v: State)
    requires PEnabled(u, p, HandOver) && Scanned(p) && v.sh == p.ws[p.disp.best].sh
    ensures Scanned(p.(ws := p.ws[p.disp.best := v], disp := Handing(p.disp.tok, p.disp.best)))
  {
  }

  lemma HandOverKeepsPInv(u: Setup, p: PState)
    requires PInv(u, p) && PEnabled(u, p, HandOver)
    ensures PInv(u, PNext(u, p, HandOver))
  {
    var q, b := PNext(u, p, HandOver), p.disp.best;
    OfferKeepsInv(u.w, p.ws[b], p.disp.tok, p.disp.chain);
    HandOverScans(u, p, q.ws[b]);
    assert Tracked(u, p, p.disp.tok);
    forall tok: nat ensures Tracked(u, q, tok) {
      assert Tracked(u, p, tok);
      HandOverTracks(u, p, tok);
    }
    assert Knows(q.ws[b], p.disp.tok);
  }

  lemma ScanTracks(u: Setup, p: PState, tok: nat)
    requires PEnabled(u, p, ScanOne) && Tracked(u, p, tok)
    ensures Tracked(u, PNext(u, p, ScanOne), tok)
  {
  }

  lemma ScanScans(u: Setup, p: PState)
    requires PEnabled(u, p, ScanOne) && Scanned(p)
    ensures Scanned(PNext(u, p, ScanOne))
  {
  }

  lemma ScanKeepsPInv(u: Setup, p: PState)
    requires PInv(u, p) && PEnabled(u, p, ScanOne)
    ensures PInv(u, PNext(u, p, ScanOne))
  {
    ScanScans(u, p);
    forall tok: nat ensures Tracked(u, PNext(u, p, ScanOne), tok) {
      assert Tracked(u, p, tok);
      ScanTracks(u, p, tok);
    }
  }

  lemma ReturnKeepsPInv(u: Setup, p: PState)
    requires PInv(u, p) && PEnabled(u, p, CallReturned)
    ensures PInv(u, PNext(u, p, CallReturned))
  {
    forall tok: nat ensures Tracked(u, PNext(u, p, CallReturned), tok) { assert Tracked(u, p, tok); }
  }

  lemma ShutdownKeepsPInv(u: Setup, p: PState, t: PStep)
    requires PInv(u, p) && PEnabled(u, p, t) && (t.Shutdown? || t.CloseOne? || t.KillOne? || t.AwaitOne?)
    ensures PInv(u, PNext(u, p, t))
  {
    var q := p;
    if t.CloseOne? {
      var v := Next(u.w, p.ws[p.shut.i], Close(BeginClose));
      QuietStep(u.w, p.ws[p.shut.i], Close(BeginClose));
      QuietKeepsPInv(u, p, p.shut.i, v);
      q := p.(ws := p.ws[p.shut.i := v]);
    }
    if t.KillOne? { assert PNext(u, p, t).ws == p.ws; }
    ShutKeepsPInv(u, q, PNext(u, p, t).shut);
  }

  lemma ShutKeepsPInv(u: Setup, p: PState, shut: Shut)
    requires PInv(u, p) && Stops(p.(shut := shut))
    ensures PInv(u, p.(shut := shut))
  {
    forall tok: nat ensures Tracked(u, p.(shut := shut), tok) { assert Tracked(u, p, tok); }
  }

  lemma PStepKeepsPInv(u: Setup, p: PState, t: PStep)
    requires PInv(u, p) && PEnabled(u, p, t)
    ensures PInv(u, PNext(u, p, t))
  {
    match t
    case OfWorker(i, w) =>
      QuietStep(u.w, p.ws[i], w);
      QuietKeepsPInv(u, p, i, Next(u.w, p.ws[i], w));
    case Arrive(d) => ArriveKeepsPInv(u, p, d);
    case ScanOne => ScanKeepsPInv(u, p);
    case HandOver => HandOverKeepsPInv(u, p);
    case CallReturned => ReturnKeepsPInv(u, p);
    case _ => ShutdownKeepsPInv(u, p, t);
  }

  lemma {:induction false} PReachable(u: Setup, tr: seq<PStep>)
    requires PExec(u, tr).Some?
    ensures PInv(u, PExec(u, tr).value)
  {
    if tr == [] {
      Reachable(u.w, []);
    } else {
      PReachable(u, tr[..|tr| - 1]);
      PStepKeepsPInv(u, PExec(u, tr[..|tr| - 1]).value, tr[|tr| - 1]);
    }
  }

  /** In every reachable state of an engine with a worker, the bounds in its guards hold, and
      a delivery being placed is new to the worker it is placed on: no guard is false for
      their sake. */
  lemma {:induction false} PGuardsNeverBlock(u: Setup, tr: seq<PStep>)
    requires u.size >= 1 && PExec(u, tr).Some?
    ensures var p := PExec(u, tr).value;
      && (p.disp.Scanning? ==> p.disp.i <= |p.ws|)
      && (p.disp.Scanning? && p.disp.i == |p.ws| ==>
            p.disp.best < |p.ws| && p.disp.tok !in p.ws[p.disp.best].calls)
      && (p.disp.Handing? ==> p.disp.best < |p.ws|)
      && (p.shut.ClosingAll? || p.shut.Awaiting? ==> p.shut.i < |p.ws|)
  {
    PReachable(u, tr);
    var p := PExec(u, tr).value;
    if p.disp.Scanning? { assert Tracked(u, p, p.disp.tok); }
  }

  // ---------------------------------------------------------------- settlement

  function CalledBy(ws: seq<State>, tok: nat): nat {
    if ws == [] then 0 else CalledBy(ws[..|ws| - 1], tok) + Called(ws[|ws| - 1], tok)
  }

  /** Callbacks made for one delivery, by anyone. */
  function Settlements(p: PState, tok: nat): nat {
    EarlyCalled(p, tok) + CalledBy(p.ws, tok)
  }

  lemma {:induction false} CalledByOwner(ws: seq<State>, tok: nat)
    requires forall i :: 0 <= i < |ws| ==> Called(ws[i], tok) <= One(Knows(ws[i], tok))
    requires forall i, j :: 0 <= i < j < |ws| && Knows(ws[i], tok) ==> !Knows(ws[j], tok)
    ensures CalledBy(ws, tok) <= 1
    ensures (forall i :: 0 <= i < |ws| ==> !Knows(ws[i], tok)) ==> CalledBy(ws, tok) == 0
    ensures CalledBy(ws, tok) == 1 <==> exists i :: 0 <= i < |ws| && Called(ws[i], tok) == 1
  {
    if ws != [] { CalledByOwner(ws[..|ws| - 1], tok); }
  }

  lemma OwnersOnly(u: Setup, p: PState, tok: nat)
    requires PInv(u, p)
    ensures forall i :: 0 <= i < |p.ws| ==> Called(p.ws[i], tok) <= One(Knows(p.ws[i], tok))
    ensures forall i, j :: 0 <= i < j < |p.ws| && Knows(p.ws[i], tok) ==> !Knows(p.ws[j], tok)
  {
    assert Tracked(u, p, tok);
    forall i | 0 <= i < |p.ws| ensures Called(p.ws[i], tok) <= One(Knows(p.ws[i], tok)) {
      var s := p.ws[i];
      assert Delivery(s, tok);
      if Knows(s, tok) && s.calls[tok].Taken? { assert Invariants.Message(s, s.calls[tok].id); }
    }
  }

  /** From the broker to the last callback a delivery is settled at most once: nacked at
      once if it does not decode, acked at once if it is not admitted, otherwise only by the
      worker it was handed to, and by nobody if the pool refused it. */
  lemma {:induction false} SettledAtMostOnceEndToEnd(u: Setup, tr: seq<PStep>, tok: nat)
    requires PExec(u, tr).Some?
    ensures var p := PExec(u, tr).value;
      && Settlements(p, tok) <= 1
      && (tok < |p.arrivals| ==>
            match p.arrivals[tok]
            case Garbage => p.early.nacks[tok] == 1 && CalledBy(p.ws, tok) == 0
            case Message(chain) =>
              if Admits(chain, u.agent, u.limits) then EarlyCalled(p, tok) == 0
              else p.early.acks[tok] == 1 && CalledBy(p.ws, tok) == 0)
      && (forall i :: 0 <= i < |p.ws| && Knows(p.ws[i], tok) && p.ws[i].calls[tok].Refused? ==>
            Settlements(p, tok) == 0)
  {
    PReachable(u, tr);
    var p := PExec(u, tr).value;
    assert Tracked(u, p, tok);
    OwnersOnly(u, p, tok);
    CalledByOwner(p.ws, tok);
    forall i | 0 <= i < |p.ws| && Knows(p.ws[i], tok) && p.ws[i].calls[tok].Refused?
      ensures Settlements(p, tok) == 0
    {
      assert Delivery(p.ws[i], tok);
      forall j | 0 <= j < |p.ws| ensures Called(p.ws[j], tok) == 0 { assert j != i ==> !Knows(p.ws[j], tok); }
    }
  }

  // ------------------------------------------------------------------ shutdown

  /** Every worker was told to close and has no process and no message in flight; and every
      message it ever accepted is settled, but for callbacks a timer or a Dispatch holds. */
  ghost predicate Complete(p: PState) {
    forall i :: 0 <= i < |p.ws| ==>
      && Over(p.ws[i]) && p.ws[i].sh.closing
      && forall id :: id in p.ws[i].born ==>
           Called(p.ws[i], p.ws[i].born[id].tok) + One(HeldByTimerOrCall(p.ws[i], id)) == 1
  }

  /** When Shutdown has returned, all that is so. */
  lemma {:induction false} ShutdownIsComplete(u: Setup, tr: seq<PStep>)
    requires PExec(u, tr).Some? && PExec(u, tr).value.shut.Returned?
    ensures Complete(PExec(u, tr).value)
  {
    PReachable(u, tr);
    var p := PExec(u, tr).value;
    forall i | 0 <= i < |p.ws|
      ensures Over(p.ws[i]) && p.ws[i].sh.closing
      ensures forall id :: id in p.ws[i].born ==>
                Called(p.ws[i], p.ws[i].born[id].tok) + One(HeldByTimerOrCall(p.ws[i], id)) == 1
    {
      StoppedIsComplete(u.w, p.ws[i]);
    }
  }

  /** And it stays so, however the run goes on. */
  lemma {:induction false} ReturnedForever(u: Setup, tr: seq<PStep>, later: seq<PStep>)
    requires PExec(u, tr).Some? && PExec(u, tr + later).Some?
    requires PExec(u, tr).value.shut.Returned?
    ensures PExec(u, tr + later).value.shut.Returned? && Complete(PExec(u, tr + later).value)
  {
    if later == [] {
      assert tr + later == tr;
    } else {
      var n := |later| - 1;
      assert (tr + later)[..|tr + later| - 1] == tr + later[..n];
      ReturnedForever(u, tr, later[..n]);
    }
    ShutdownIsComplete(u, tr + later);
  }

  // --------------------------------------------------------- the broker's window

  /** The deliveries the broker is still waiting on. */
  ghost function Unsettled(p: PState): set<nat> {
    set tok: nat | tok < |p.arrivals| && Settlements(p, tok) == 0
  }

  /** The broker never has more than `prefetch` deliveries unsettled. */
  ghost predicate Windowed(u: Setup, tr: seq<PStep>, prefetch: nat)
    requires PExec(u, tr).Some?
  {
    tr == [] ||
    var before, t := tr[..|tr| - 1], tr[|tr| - 1];
    Windowed(u, before, prefetch) && (t.Arrive? ==> |Unsettled(PExec(u, before).value)| < prefetch)
  }

  ghost function Toks(s: State): set<nat> {
    set id | id in s.sh.msgs :: s.sh.msgs[id].tok
  }

  ghost function FlightToks(ws: seq<State>): set<nat> {
    if ws == [] then {} else FlightToks(ws[..|ws| - 1]) + Toks(ws[|ws| - 1])
  }

  function TotalLoad(ws: seq<State>): nat {
    if ws == [] then 0 else TotalLoad(ws[..|ws| - 1]) + Load(ws[|ws| - 1])
  }

  /** An injective image of a set is as large as the set. */
  lemma {:induction false} ImageSize(ids: set<int>, f: map<int, nat>, image: set<nat>)
    requires ids <= f.Keys
    requires forall i, j :: i in ids && j in ids && i != j ==> f[i] != f[j]
    requires forall tok :: tok in image <==> exists i :: i in ids && f[i] == tok
    ensures |image| == |ids|
    decreases |ids|
  {
    if ids == {} {
      assert forall tok :: tok !in image;
      if image != {} { var _ := AnElement(image); }
    } else {
      var id := AnElement(ids);
      var rest, left := ids - {id}, image - {f[id]};
      forall tok | tok in left ensures exists i :: i in rest && f[i] == tok {
        var i :| i in ids && f[i] == tok;
        assert i in rest;
      }
      ImageSize(rest, f, left);
    }
  }

  lemma InFlightToks(u: Setup, p: PState, i: nat)
    requires PInv(u, p) && i < |p.ws|
    ensures |Toks(p.ws[i])| == Load(p.ws[i])
    ensures forall tok :: tok in Toks(p.ws[i]) ==> Knows(p.ws[i], tok) && Called(p.ws[i], tok) == 0
  {
    var s := p.ws[i];
    forall id | id in s.sh.msgs
      ensures Knows(s, s.sh.msgs[id].tok) && s.calls[s.sh.msgs[id].tok] == Taken(id)
      ensures Called(s, s.sh.msgs[id].tok) == 0
    {
      assert Invariants.Message(s, id);
    }
    ImageSize(s.sh.msgs.Keys, map id | id in s.sh.msgs :: s.sh.msgs[id].tok, Toks(s));
  }

  lemma {:induction false} FlightTokMember(ws: seq<State>, tok: nat)
    ensures tok in FlightToks(ws) <==> exists i :: 0 <= i < |ws| && tok in Toks(ws[i])
  {
    if ws != [] {
      var n := |ws| - 1;
      FlightTokMember(ws[..n], tok);
      assert forall i :: 0 <= i < n ==> ws[..n][i] == ws[i];
    }
  }

  lemma {:induction false} FlightSize(ws: seq<State>)
    requires forall i :: 0 <= i < |ws| ==> |Toks(ws[i])| == Load(ws[i])
    requires forall i, j :: 0 <= i < j < |ws| ==> Toks(ws[i]) !! Toks(ws[j])
    ensures |FlightToks(ws)| == TotalLoad(ws)
  {
    if ws != [] {
      var n := |ws| - 1;
      FlightSize(ws[..n]);
      forall tok | tok in Toks(ws[n]) ensures tok !in FlightToks(ws[..n]) {
        FlightTokMember(ws[..n], tok);
        assert forall i :: 0 <= i < n ==> Toks(ws[i]) !! Toks(ws[n]);
      }
    }
  }

  lemma {:induction false} FullLoad(ws: seq<State>, cap: nat)
    requires forall i :: 0 <= i < |ws| ==> Load(ws[i]) >= cap
    ensures TotalLoad(ws) >= |ws| * cap
  {
    if ws != [] { FullLoad(ws[..|ws| - 1], cap); }
  }

  lemma FlightsAreUnsettled(u: Setup, p: PState)
    requires PInv(u, p)
    ensures TotalLoad(p.ws) <= |Unsettled(p)|
  {
    forall i | 0 <= i < |p.ws| ensures |Toks(p.ws[i])| == Load(p.ws[i]) { InFlightToks(u, p, i); }
    forall i, j | 0 <= i < j < |p.ws| ensures Toks(p.ws[i]) !! Toks(p.ws[j]) {
      InFlightToks(u, p, i);
      InFlightToks(u, p, j);
      forall tok | tok in Toks(p.ws[i]) ensures tok !in Toks(p.ws[j]) { assert Tracked(u, p, tok); }
    }
    FlightSize(p.ws);
    forall tok | tok in FlightToks(p.ws) ensures tok in Unsettled(p) {
      FlightTokMember(p.ws, tok);
      var i :| 0 <= i < |p.ws| && tok in Toks(p.ws[i]);
      InFlightIsUnsettled(u, p, i, tok);
    }
    SubsetSize(FlightToks(p.ws), Unsettled(p));
  }

  lemma InFlightIsUnsettled(u: Setup, p: PState, i: nat, tok: nat)
    requires PInv(u, p) && i < |p.ws| && tok in Toks(p.ws[i])
    ensures tok in Unsettled(p)
  {
    InFlightToks(u, p, i);
    assert Tracked(u, p, tok);
    OwnersOnly(u, p, tok);
    CalledByOwner(p.ws, tok);
    forall j | 0 <= j < |p.ws| ensures Called(p.ws[j], tok) == 0 { assert j != i ==> !Knows(p.ws[j], tok); }
  }

  /** Fewer unsettled deliveries than the pool can hold leave some worker with a slot. */
  lemma RoomOnArrival(u: Setup, p: PState)
    requires PInv(u, p) && |Unsettled(p)| < u.size * u.w.cap
    ensures exists j :: 0 <= j < |p.ws| && Load(p.ws[j]) < u.w.cap
  {
    FlightsAreUnsettled(u, p);
    if forall j :: 0 <= j < |p.ws| ==> Load(p.ws[j]) >= u.w.cap {
      FullLoad(p.ws, u.w.cap);
      assert false;
    }
  }

  /** When the scan that is being acted on began, some worker had a slot. */
  ghost predicate HadRoom(u: Setup, p: PState) {
    p.disp.Ready? || exists j :: 0 <= j < |p.start| && p.start[j] < u.w.cap
  }

  lemma ArrivalHasRoom(u: Setup, p: PState, d: Incoming)
    requires PInv(u, p) && PEnabled(u, p, Arrive(d)) && |Unsettled(p)| < u.size * u.w.cap
    ensures HadRoom(u, PNext(u, p, Arrive(d)))
  {
    RoomOnArrival(u, p);
    var j :| 0 <= j < |p.ws| && Load(p.ws[j]) < u.w.cap;
    assert Loads(p.ws)[j] < u.w.cap;
  }

  lemma StepKeepsRoom(u: Setup, p: PState, t: PStep)
    requires PEnabled(u, p, t) && !t.Arrive? && HadRoom(u, p)
    ensures HadRoom(u, PNext(u, p, t))
  {
  }

  lemma {:induction false} WindowLeavesRoom(u: Setup, tr: seq<PStep>, prefetch: nat)
    requires PExec(u, tr).Some? && Windowed(u, tr, prefetch) && prefetch <= u.size * u.w.cap
    ensures HadRoom(u, PExec(u, tr).value)
  {
    if tr != [] {
      var before, t := tr[..|tr| - 1], tr[|tr| - 1];
      WindowLeavesRoom(u, before, prefetch);
      PReachable(u, before);
      if t.Arrive? {
        ArrivalHasRoom(u, PExec(u, before).value, t.d);
      } else {
        StepKeepsRoom(u, PExec(u, before).value, t);
      }
    }
  }

  /** With a window no larger than the pool every delivery is handed to a worker that has a
      slot for as long as it waits there, whatever the workers do meanwhile: it waits only
      for a live process. */
  lemma {:induction false} WaitsOnlyForAProcess(u: Setup, tr: seq<PStep>, prefetch: nat)
    requires PExec(u, tr).Some? && Windowed(u, tr, prefetch) && prefetch <= u.size * u.w.cap
    ensures var p := PExec(u, tr).value;
      forall i, tok: nat :: 0 <= i < |p.ws| && Knows(p.ws[i], tok) && p.ws[i].calls[tok].Waiting? ==>
        Load(p.ws[i]) < u.w.cap && (HasRoom(p.ws[i].sh, u.w.cap) <==> p.ws[i].sh.cur.Some?)
  {
    PReachable(u, tr);
    WindowLeavesRoom(u, tr, prefetch);
    var p := PExec(u, tr).value;
    forall i, tok: nat | 0 <= i < |p.ws| && Knows(p.ws[i], tok) && p.ws[i].calls[tok].Waiting?
      ensures Load(p.ws[i]) < u.w.cap
    {
      assert Tracked(u, p, tok);
    }
  }
}
