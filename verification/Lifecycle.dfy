/** One worker as a transition system. Every section under the mutex is one step, and so
    is every settle callback, every branch of a select, every receive and write of a
    writer goroutine, every timer firing, every outcome of a spawn and every
    requestStop. The parties interleave freely, and any number of Dispatch calls may be
    in progress. */
module Lifecycle {
  import opened Sections

  datatype Config = Config(cap: nat, timed: bool, outputs: set<string>)

  // ---------------------------------------------------------------- processes

  datatype OutNote = DeliverNote(id: int) | AckNote(id: int, ok: bool)

  /** The writer goroutine: in its select (before or after it saw the stop), holding a
      note it has received, or gone with stdin closed. */
  datatype Writer = Looping(draining: bool) | Writing(o: OutNote, draining: bool) | Closed

  /** `out` is the channel's buffer. The last five fields are history: everything ever
      queued, everything the writer received, what reached stdin, how many writes failed,
      and how much was queued when stop was closed. */
  datatype Proc = Proc(out: seq<OutNote>, stop: bool, writer: Writer,
                       queued: seq<OutNote>, taken: seq<OutNote>, stdin: seq<OutNote>,
                       failures: nat, beforeStop: nat)

  const NEW_PROC := Proc([], false, Looping(false), [], [], [], 0, 0)

  function Enqueue(p: Proc, o: OutNote): Proc {
    p.(out := p.out + [o], queued := p.queued + [o])
  }

  function Stop(p: Proc): Proc {
    if p.stop then p else p.(stop := true, beforeStop := |p.queued|)
  }

  // ------------------------------------------------------------------ parties

  /** The data stands for whatever the handler wants published. */
  datatype Emit = Emit(id: int, deliver: int, selector: string, data: string)

  /** Where the read loop is between two notes. */
  datatype Reader =
    | Idle
    | Settling(id: int, m: Entry, ok: bool)
    | Publishing(e: Emit, chain: seq<string>)
    | Acking(emit: int, ok: bool)

  /** Where the supervisor goroutine is. */
  datatype Sup =
    | Spawning
    | SpawnFailed
    | Backoff
    | Installing(g: nat)
    | Reading(g: nat, rd: Reader)
    | Exited(g: nat)
    | Reaping(g: nat)
    | Burying(stale: map<int, Entry>, last: bool)
    | Stopping
    | Stopped

  /** One Dispatch call, named by its delivery. A call that is Taken has registered. */
  datatype Call = Waiting(chain: seq<string>) | Refused | Taken(id: int)

  /** What a Dispatch call remembers once it has registered, and whether its select has
      refused the note. */
  datatype Flight = Flight(tok: nat, g: nat, unsent: bool)

  /** The callbacks made so far: how often each delivery was acked, nacked and requeued. */
  datatype Calls = Calls(acks: multiset<nat>, nacks: multiset<nat>, requeues: multiset<nat>)

  function Made(calls: Calls, tok: nat, kind: Kind): Calls {
    match kind
    case Ack => calls.(acks := calls.acks + multiset{tok})
    case Nack => calls.(nacks := calls.nacks + multiset{tok})
    case Requeue => calls.(requeues := calls.requeues + multiset{tok})
  }

  function Times(calls: Calls, tok: nat, kind: Kind): nat {
    match kind
    case Ack => calls.acks[tok]
    case Nack => calls.nacks[tok]
    case Requeue => calls.requeues[tok]
  }

  // History of registrations, emits, publishes and emit acknowledgements.
  datatype Birth = Birth(tok: nat, g: nat, chain: seq<string>)
  datatype EmitRead = EmitRead(e: Emit, chain: seq<string>)
  datatype Pub = Pub(index: nat, chain: seq<string>, selector: string, data: string, ok: bool)
  datatype AckSent = AckSent(index: nat, g: nat, id: int, ok: bool, queued: bool)

  /** `flights` are the Dispatch calls that have registered, and `requeueing` those that
      have reclaimed their entry with the callback still to make. `armed`, `fired` and
      `nacking` are the timers waiting, past firing but before their section, and past it
      with the callback still to make. `called` counts the callbacks made. */
  datatype State = State(
    sh: Shared,
    sup: Sup,
    procs: seq<Proc>,
    calls: map<nat, Call>,
    cancelled: set<nat>,
    flights: map<int, Flight>,
    requeueing: map<int, Flight>,
    armed: set<int>,
    fired: set<int>,
    nacking: map<int, Entry>,
    stopReqs: set<nat>,
    runCtx: bool,
    called: Calls,
    born: map<int, Birth>,
    pickups: set<int>,
    emits: seq<EmitRead>,
    pubs: seq<Pub>,
    acks: seq<AckSent>)

  const INIT := State(FRESH, Spawning, [], map[], {}, map[], map[], {}, {}, map[], {},
                      false, Calls(multiset{}, multiset{}, multiset{}), map[], {}, [], [], [])

  // -------------------------------------------------------------------- steps

  datatype Step =
    | Supervise(sup: SupStep)
    | Read(read: ReadStep)
    | Dispatch(call: CallStep)
    | Time(timer: TimerStep)
    | Close(close: CloseStep)
    | Write(g: nat, write: WriteStep)

  datatype SupStep =
    | SpawnOk | SpawnErr | CheckShutdown | BackoffOver | BackoffCancelled | Install
    | ReadEnd | StopAfterExit | Reap | BuryOne(id: int) | BuryDone | MarkStopped

  datatype ReadStep =
    | Pickup(id: int) | Done(id: int, ok: bool) | Settle
    | EmitNote(e: Emit) | PublishResult(ok: bool) | AckEmit

  datatype CallStep =
    | Offer(tok: nat, chain: seq<string>) | Refuse(tok: nat)
    | Register(tok: nat, id: int, chain: seq<string>)
    | SendOk(id: int) | SendFail(id: int) | Reclaim(id: int) | Requeued(id: int)

  datatype TimerStep = Fire(id: int) | Section(id: int) | Nacked(id: int)

  // A kill is its section, which only looks for a process; the signal that follows makes the
  // process exit, which it could do at any time anyway.
  datatype CloseStep = BeginClose | Kill | RequestStop(g: nat) | CancelRun | CancelCall(tok: nat)

  datatype WriteStep = Take | SeeStop | WriteNote(ok: bool) | CloseStdin

  /** The generation the supervisor is serving, if it has installed one. */
  function ServedBy(sup: Sup): Option<nat> {
    match sup
    case Reading(g, _) => Some(g)
    case Exited(g) => Some(g)
    case Reaping(g) => Some(g)
    case _ => None
  }

  predicate ReaderIdle(s: State) {
    s.sup.Reading? && s.sup.rd.Idle?
  }

  // The bounds on generations and the nonempty emit history asked for below hold in every
  // reachable state (Guards.GuardsNeverBlock); they only keep the functions total.

  predicate SupEnabled(s: State, t: SupStep) {
    match t
    case SpawnOk => s.sup.Spawning?
    case SpawnErr => s.sup.Spawning?
    case CheckShutdown => s.sup.SpawnFailed?
    case BackoffOver => s.sup.Backoff?
    case BackoffCancelled => s.sup.Backoff? && s.runCtx
    case Install => s.sup.Installing?
    case ReadEnd => ReaderIdle(s)
    case StopAfterExit => s.sup.Exited? && s.sup.g < |s.procs|
    case Reap => s.sup.Reaping?
    case BuryOne(id) => s.sup.Burying? && id in s.sup.stale
    case BuryDone => s.sup.Burying? && s.sup.stale == map[]
    case MarkStopped => s.sup.Stopping?
  }

  function SupNext(s: State, t: SupStep): State
    requires SupEnabled(s, t)
  {
    match t
    case SpawnOk => s.(sup := Installing(|s.procs|), procs := s.procs + [NEW_PROC])
    case SpawnErr => s.(sup := SpawnFailed)
    case CheckShutdown => s.(sup := if s.sh.closing || s.runCtx then Stopping else Backoff)
    case BackoffOver => s.(sup := Spawning)
    case BackoffCancelled => s.(sup := Stopping)
    case Install => s.(sup := Reading(s.sup.g, Idle), sh := Installed(s.sh, s.sup.g))
    case ReadEnd => s.(sup := Exited(s.sup.g))
    case StopAfterExit =>
      s.(sup := Reaping(s.sup.g), procs := s.procs[s.sup.g := Stop(s.procs[s.sup.g])])
    case Reap => s.(sup := Burying(s.sh.msgs, s.sh.closing || s.runCtx), sh := Reaped(s.sh))
    case BuryOne(id) =>
      // stopping the timer and making the callback are one step: no other party can tell
      var m := s.sup.stale[id];
      s.(sup := Burying(s.sup.stale - {id}, s.sup.last), armed := s.armed - {id},
         called := Made(s.called, m.tok, DeathKind(m)))
    case BuryDone => s.(sup := if s.sup.last then Stopping else Spawning)
    case MarkStopped => s.(sup := Stopped)
  }

  predicate ReadEnabled(s: State, t: ReadStep) {
    match t
    case Pickup(_) => ReaderIdle(s)
    case Done(_, _) => ReaderIdle(s)
    case Settle => s.sup.Reading? && s.sup.rd.Settling?
    case EmitNote(_) => ReaderIdle(s)
    case PublishResult(_) => s.sup.Reading? && s.sup.rd.Publishing? && s.emits != []
    case AckEmit => s.sup.Reading? && s.sup.rd.Acking? && s.sup.g < |s.procs| && s.emits != []
  }

  function ReadNext(c: Config, s: State, t: ReadStep): State
    requires ReadEnabled(s, t)
  {
    match t
    case Pickup(id) => s.(sh := PickedUp(s.sh, id), pickups := s.pickups + {id})
    case Done(id, ok) =>
      if id in s.sh.msgs then
        s.(sh := Claimed(s.sh, id), armed := s.armed - {id},
           sup := Reading(s.sup.g, Settling(id, s.sh.msgs[id], ok)))
      else s
    case Settle =>
      s.(sup := Reading(s.sup.g, Idle),
         called := Made(s.called, s.sup.rd.m.tok, DoneKind(s.sup.rd.ok)))
    case EmitNote(e) =>
      var chain := ChainOf(s.sh, e.deliver);
      s.(emits := s.emits + [EmitRead(e, chain)],
         sup := Reading(s.sup.g, if e.selector in c.outputs then Publishing(e, chain) else Acking(e.id, false)))
    case PublishResult(ok) =>
      s.(pubs := s.pubs + [Pub(|s.emits| - 1, s.sup.rd.chain, s.sup.rd.e.selector, s.sup.rd.e.data, ok)],
         sup := Reading(s.sup.g, Acking(s.sup.rd.e.id, ok)))
    case AckEmit =>
      var room := |s.procs[s.sup.g].out| < c.cap + 1;
      var note := AckNote(s.sup.rd.emit, s.sup.rd.ok);
      s.(acks := s.acks + [AckSent(|s.emits| - 1, s.sup.g, s.sup.rd.emit, s.sup.rd.ok, room)],
         procs := if room then s.procs[s.sup.g := Enqueue(s.procs[s.sup.g], note)] else s.procs,
         sup := Reading(s.sup.g, Idle))
  }

  predicate InFlight(s: State, id: int, unsent: bool) {
    id in s.flights && s.flights[id].unsent == unsent
  }

  predicate CallEnabled(c: Config, s: State, t: CallStep) {
    match t
    case Offer(tok, _) => tok !in s.calls
    case Refuse(tok) => tok in s.calls && s.calls[tok].Waiting? && (s.sh.closing || tok in s.cancelled)
    case Register(tok, id, chain) =>
      tok in s.calls && s.calls[tok] == Waiting(chain) && id == s.sh.nextID
      && !s.sh.closing && tok !in s.cancelled && HasRoom(s.sh, c.cap)
    case SendOk(id) =>
      InFlight(s, id, false) && s.flights[id].g < |s.procs| && |s.procs[s.flights[id].g].out| < c.cap + 1
    case SendFail(id) =>
      InFlight(s, id, false) && s.flights[id].g < |s.procs|
      && (s.procs[s.flights[id].g].stop || s.flights[id].tok in s.cancelled)
    case Reclaim(id) => InFlight(s, id, true)
    case Requeued(id) => id in s.requeueing
  }

  function CallNext(c: Config, s: State, t: CallStep): State
    requires CallEnabled(c, s, t)
  {
    match t
    case Offer(tok, chain) => s.(calls := s.calls[tok := Waiting(chain)])
    case Refuse(tok) => s.(calls := s.calls[tok := Refused])
    case Register(tok, id, chain) =>
      s.(sh := Registered(s.sh, Entry(tok, chain, c.timed, false)),
         calls := s.calls[tok := Taken(id)],
         flights := s.flights[id := Flight(tok, s.sh.cur.value, false)],
         armed := if c.timed then s.armed + {id} else s.armed,
         born := s.born[id := Birth(tok, s.sh.cur.value, chain)])
    case SendOk(id) =>
      var g := s.flights[id].g;
      s.(flights := s.flights - {id}, procs := s.procs[g := Enqueue(s.procs[g], DeliverNote(id))])
    case SendFail(id) => s.(flights := s.flights[id := s.flights[id].(unsent := true)])
    case Reclaim(id) =>
      if id in s.sh.msgs then
        s.(sh := Claimed(s.sh, id), armed := s.armed - {id}, flights := s.flights - {id},
           requeueing := s.requeueing[id := s.flights[id]])
      else s.(flights := s.flights - {id})
    case Requeued(id) =>
      s.(requeueing := s.requeueing - {id}, called := Made(s.called, s.requeueing[id].tok, Requeue))
  }

  predicate TimerEnabled(s: State, t: TimerStep) {
    match t
    case Fire(id) => id in s.armed
    case Section(id) => id in s.fired
    case Nacked(id) => id in s.nacking
  }

  function TimerNext(s: State, t: TimerStep): State
    requires TimerEnabled(s, t)
  {
    match t
    case Fire(id) => s.(armed := s.armed - {id}, fired := s.fired + {id})
    case Section(id) =>
      if id in s.sh.msgs then
        s.(sh := Claimed(s.sh, id), fired := s.fired - {id}, nacking := s.nacking[id := s.sh.msgs[id]])
      else s.(fired := s.fired - {id})
    case Nacked(id) =>
      s.(nacking := s.nacking - {id}, called := Made(s.called, s.nacking[id].tok, Nack))
  }

  predicate CloseEnabled(s: State, t: CloseStep) {
    t.RequestStop? ==> t.g in s.stopReqs && t.g < |s.procs|
  }

  function CloseNext(s: State, t: CloseStep): State
    requires CloseEnabled(s, t)
  {
    match t
    case BeginClose =>
      s.(sh := Closing(s.sh), stopReqs := s.stopReqs + (if s.sh.cur.Some? then {s.sh.cur.value} else {}))
    case Kill => s
    case RequestStop(g) => s.(stopReqs := s.stopReqs - {g}, procs := s.procs[g := Stop(s.procs[g])])
    case CancelRun => s.(runCtx := true)
    case CancelCall(tok) => s.(cancelled := s.cancelled + {tok})
  }

  predicate WriteEnabled(p: Proc, t: WriteStep) {
    match t
    case Take => p.writer.Looping? && p.out != []
    case SeeStop => p.writer == Looping(false) && p.stop
    case WriteNote(_) => p.writer.Writing?
    case CloseStdin => p.writer == Looping(true) && p.out == []
  }

  function WriteNext(p: Proc, t: WriteStep): Proc
    requires WriteEnabled(p, t)
  {
    match t
    case Take => p.(out := p.out[1..], taken := p.taken + [p.out[0]],
                    writer := Writing(p.out[0], p.writer.draining))
    case SeeStop => p.(writer := Looping(true))
    case WriteNote(ok) =>
      if ok then p.(writer := Looping(p.writer.draining), stdin := p.stdin + [p.writer.o])
      else p.(writer := Looping(p.writer.draining), failures := p.failures + 1)
    case CloseStdin => p.(writer := Closed)
  }

  predicate Enabled(c: Config, s: State, t: Step) {
    match t
    case Supervise(u) => SupEnabled(s, u)
    case Read(u) => ReadEnabled(s, u)
    case Dispatch(u) => CallEnabled(c, s, u)
    case Time(u) => TimerEnabled(s, u)
    case Close(u) => CloseEnabled(s, u)
    case Write(g, u) => g < |s.procs| && WriteEnabled(s.procs[g], u)
  }

  function Next(c: Config, s: State, t: Step): State
    requires Enabled(c, s, t)
  {
    match t
    case Supervise(u) => SupNext(s, u)
    case Read(u) => ReadNext(c, s, u)
    case Dispatch(u) => CallNext(c, s, u)
    case Time(u) => TimerNext(s, u)
    case Close(u) => CloseNext(s, u)
    case Write(g, u) => s.(procs := s.procs[g := WriteNext(s.procs[g], u)])
  }

  /** The state after the run `tr`, or None if some step of it was not enabled. */
  function Exec(c: Config, tr: seq<Step>): Option<State> {
    if tr == [] then Some(INIT)
    else
      match Exec(c, tr[..|tr| - 1])
      case None => None
      case Some(s) =>
        var t := tr[|tr| - 1];
        if Enabled(c, s, t) then Some(Next(c, s, t)) else None
  }

  lemma OneMore(c: Config, tr: seq<Step>, t: Step)
    requires Exec(c, tr).Some? && Enabled(c, Exec(c, tr).value, t)
    ensures Exec(c, tr + [t]) == Some(Next(c, Exec(c, tr).value, t))
  {
    assert (tr + [t])[..|tr + [t]| - 1] == tr;
  }

  lemma OneMoreTo(c: Config, tr: seq<Step>, s: State, t: Step, u: State)
    requires Exec(c, tr) == Some(s) && Enabled(c, s, t) && Next(c, s, t) == u
    ensures Exec(c, tr + [t]) == Some(u)
  {
    OneMore(c, tr, t);
  }
}
