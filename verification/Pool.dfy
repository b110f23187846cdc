/** Placement: the least-loaded scan, the balance it gives, and the size of the broker's
    window. */
module Pool {
  import opened Common
  import opened Sections
  import opened WorkerCode

  // ------------------------------------------------------- the scan, as a function

  /** `b` is the first index of a least element. */
  predicate IsFirstMin(ns: seq<nat>, b: nat) {
    && b < |ns|
    && (forall j :: 0 <= j < |ns| ==> ns[b] <= ns[j])
    && (forall j :: 0 <= j < b ==> ns[b] < ns[j])
  }

  function FirstMin(ns: seq<nat>): (b: nat)
    requires ns != []
    ensures IsFirstMin(ns, b)
  {
    if |ns| == 1 then 0
    else
      var b := FirstMin(ns[..|ns| - 1]);
      if ns[|ns| - 1] < ns[b] then |ns| - 1 else b
  }

  lemma FirstMinIsUnique(ns: seq<nat>, a: nat, b: nat)
    requires IsFirstMin(ns, a) && IsFirstMin(ns, b)
    ensures a == b
  {
    assert ns[a] <= ns[b] <= ns[a];
  }

  /** Loads that have only fallen. */
  predicate NoneRose(before: seq<nat>, now: seq<nat>) {
    |before| == |now| && forall i :: 0 <= i < |now| ==> now[i] <= before[i]
  }

  /** The loads read by a scan that began at `before`, of the first workers: each lies
      between what it was then and what it is now. */
  predicate Sampled(before: seq<nat>, read: seq<nat>, now: seq<nat>) {
    |read| <= |now| <= |before| && forall i :: 0 <= i < |read| ==> now[i] <= read[i] <= before[i]
  }

  /** A scan under way: what it has read, and the first least of that. */
  predicate Scanned(before: seq<nat>, read: seq<nat>, now: seq<nat>, best: nat) {
    NoneRose(before, now) && Sampled(before, read, now) && IsFirstMin(read, best)
  }

  lemma SampleOne(before: seq<nat>, read: seq<nat>, mid: seq<nat>, now: seq<nat>, best: nat)
    requires Scanned(before, read, mid, best) && NoneRose(mid, now) && |read| < |now|
    ensures var n := now[|read|];
      Scanned(before, read + [n], now, if n < read[best] then |read| else best)
  {
    assert forall i :: 0 <= i < |read| ==> now[i] <= mid[i];
    PickOne(read, best, now[|read|]);
  }

  lemma PickOne(read: seq<nat>, best: nat, n: nat)
    requires IsFirstMin(read, best)
    ensures IsFirstMin(read + [n], if n < read[best] then |read| else best)
  {
  }

  /** If any load was below `cap` before, the load of `best` is now. */
  predicate LeavesRoom(before: seq<nat>, now: seq<nat>, best: nat, cap: nat) {
    best < |now| && forall i :: 0 <= i < |before| && before[i] < cap ==> now[best] < cap
  }

  lemma PickHasRoom(before: seq<nat>, read: seq<nat>, now: seq<nat>, best: nat, cap: nat)
    requires Sampled(before, read, now) && |read| == |before| && IsFirstMin(read, best)
    ensures LeavesRoom(before, now, best, cap)
  {
    forall i | 0 <= i < |before| && before[i] < cap ensures now[best] < cap {
      assert read[best] <= read[i];
    }
  }

  lemma QuietScan(before: seq<nat>, read: seq<nat>, now: seq<nat>, best: nat)
    requires Sampled(before, read, now) && |read| == |now| && IsFirstMin(read, best)
    ensures now == before ==> best == FirstMin(now)
  {
    if now == before {
      assert read == now;
      FirstMinIsUnique(now, best, FirstMin(now));
    }
  }

  /** The first `k` workers were told to close, and nothing else. */
  predicate AllClosing(before: seq<Shared>, now: seq<Shared>, k: nat) {
    && |before| == |now|
    && forall i :: 0 <= i < |now| ==> now[i] == if i < k then Closing(before[i]) else before[i]
  }

  lemma OneMoreClosing(before: seq<Shared>, now: seq<Shared>, k: nat)
    requires AllClosing(before, now, k) && k < |now|
    ensures AllClosing(before, now[k := Closing(now[k])], k + 1)
  {
  }

  /** What a finished scan has picked: the first least of the loads read, each of which lies
      between what it was when the scan began and what it is when it ends. */
  predicate Picked(before: seq<nat>, read: seq<nat>, now: seq<nat>, best: nat) {
    Scanned(before, read, now, best) && |read| == |before|
  }

  /** One worker may have registered one message; nothing else has raised a load. */
  predicate Registers(before: seq<nat>, now: seq<nat>, b: nat, registered: bool) {
    && |before| == |now| && b < |now|
    && (forall i :: 0 <= i < |now| && i != b ==> now[i] <= before[i])
    && now[b] <= before[b] + (if registered then 1 else 0)
  }

  lemma RegistersOne(before: seq<nat>, mid: seq<nat>, b: nat, registered: bool)
    requires NoneRose(before, mid) && b < |mid|
    ensures Registers(before, mid[b := mid[b] + (if registered then 1 else 0)], b, registered)
  {
  }

  lemma RegistersLater(before: seq<nat>, mid: seq<nat>, now: seq<nat>, b: nat, registered: bool)
    requires Registers(before, mid, b, false) && Registers(mid, now, b, registered)
    ensures Registers(before, now, b, registered)
  {
  }

  lemma FirstSample(before: seq<nat>, now: seq<nat>)
    requires NoneRose(before, now) && now != []
    ensures Scanned(before, [now[0]], now, 0)
  {
  }

  lemma ScanDone(before: seq<nat>, read: seq<nat>, now: seq<nat>, best: nat, cap: nat)
    requires Scanned(before, read, now, best) && |read| == |now|
    ensures LeavesRoom(before, now, best, cap) && (now == before ==> best == FirstMin(now))
  {
    PickHasRoom(before, read, now, best, cap);
    QuietScan(before, read, now, best);
  }

  lemma FewerWithout<V>(m: map<int, V>, id: int)
    ensures |m - {id}| <= |m|
  {
    assert (m - {id}).Keys <= m.Keys;
    SubsetSize((m - {id}).Keys, m.Keys);
  }

  // ------------------------------------------------------------ the pool, in place

  /** What can happen to a worker while the dispatcher is between two of its steps: a done,
      a timeout or a reclaim claims a message, its process dies, a new one is installed, or
      it is told to close. */
  datatype Event = Freed(id: int) | Died | CameUp(g: nat, p: Process) | Closed

  class WorkerPool {
    const workers: seq<Worker>
    const cap: nat

    ghost predicate Valid()
      reads this, workers
    {
      && workers != []
      && (forall i, j :: 0 <= i < j < |workers| ==> workers[i] != workers[j])
      && (forall i :: 0 <= i < |workers| ==> workers[i].Valid() && workers[i].cap == cap)
    }

    /** How many messages each worker has in flight. */
    ghost function Loads(): (ns: seq<nat>)
      reads workers
      ensures |ns| == |workers| && forall i :: 0 <= i < |ns| ==> ns[i] == |workers[i].msgs|
    {
      seq(|workers|, i requires 0 <= i < |workers| reads workers => |workers[i].msgs|)
    }

    constructor (size: int, capacity: int, timed: bool)
      ensures Valid() && fresh(workers)
      ensures |workers| == (if size < 1 then 1 else size) && cap == (if capacity < 1 then 1 else capacity)
      ensures forall i :: 0 <= i < |workers| ==> workers[i].State() == FRESH && workers[i].timed == timed
    {
      var ws: seq<Worker> := [];
      while |ws| < Max1(size)
        invariant |ws| <= Max1(size)
        invariant fresh(ws)
        invariant forall i, j :: 0 <= i < j < |ws| ==> ws[i] != ws[j]
        invariant forall w :: w in ws ==> w.Valid() && w.cap == Max1(capacity) && w.State() == FRESH && w.timed == timed
      {
        var w := new Worker(capacity, timed);
        ws := ws + [w];
      }
      workers := ws;
      cap := Max1(capacity);
    }

    method Happen(i: nat, e: Event)
      requires Valid() && i < |workers|
      modifies workers[i]
      ensures Valid() && NoneRose(old(Loads()), Loads())
    {
      match e
      case Freed(id) =>
        FewerWithout(workers[i].msgs, id);
        var _ := workers[i].Claim(id);
      case Died =>
        var _, _ := workers[i].Reap(false);
      case CameUp(g, p) =>
        workers[i].Install(g, p);
      case Closed =>
        var _ := workers[i].MarkClosing();
    }

    /** Whatever the other goroutines do between two steps of a scan: any number of events,
        on any workers. */
    method Interfere()
      requires Valid()
      modifies workers
      ensures Valid() && NoneRose(old(Loads()), Loads())
    {
      var events: nat := *;
      while events > 0
        invariant Valid() && NoneRose(old(Loads()), Loads())
      {
        var i: nat, e: Event := *, *;
        if i < |workers| { Happen(i, e); }
        events := events - 1;
      }
    }

    /** Reads a load, after whatever happens before the mutex is free. */
    method ReadLoad(i: nat) returns (n: nat)
      requires Valid() && i < |workers|
      modifies workers
      ensures Valid() && NoneRose(old(Loads()), Loads()) && n == Loads()[i]
    {
      Interfere();
      n := workers[i].Outstanding();
    }

    /** One more read of a scan that began at `before` and has read `read`. */
    method Sample(ghost before: seq<nat>, ghost read: seq<nat>, ghost best: nat, i: nat) returns (n: nat)
      requires Valid() && i < |workers| && |read| == i && Scanned(before, read, Loads(), best)
      modifies workers
      ensures Valid() && Scanned(before, read + [n], Loads(), if n < read[best] then i else best)
    {
      ghost var mid := Loads();
      n := ReadLoad(i);
      SampleOne(before, read, mid, Loads(), best);
    }

    /** Picks the first worker whose load was least when it was read. Each load read lies
        between what it was when the scan began and what it is when it ends; so if any
        worker was below capacity when the scan began, the one picked is below it at the
        end, however the workers settle meanwhile; and if none settled anything, the one
        picked is the first least loaded. */
    method LeastLoaded() returns (best: nat, ghost read: seq<nat>)
      requires Valid()
      modifies workers
      ensures Valid() && |read| == |workers| && Picked(old(Loads()), read, Loads(), best)
      ensures LeavesRoom(old(Loads()), Loads(), best, cap) && (Loads() == old(Loads()) ==> best == FirstMin(Loads()))
    {
      ghost var before := Loads();
      best := 0;
      var bestN := ReadLoad(0);
      read := [bestN];
      FirstSample(before, Loads());
      for i := 1 to |workers|
        invariant Valid() && Scanned(before, read, Loads(), best) && |read| == i && bestN == read[best]
      {
        var n := Sample(before, read, best, i);
        read := read + [n];
        if n < bestN { best, bestN := i, n; }
      }
      ScanDone(before, read, Loads(), best, cap);
    }

    /** What each worker keeps under its mutex. */
    ghost function States(): (ss: seq<Shared>)
      reads workers, set w, m | w in workers && m in w.msgs.Values :: m
      ensures |ss| == |workers| && forall i :: 0 <= i < |ss| ==> ss[i] == workers[i].State()
    {
      seq(|workers|, i requires 0 <= i < |workers|
                     reads workers, set w, m | w in workers && m in w.msgs.Values :: m
                     => workers[i].State())
    }

    /** beginClose on one worker, with its process if it has one. */
    method CloseOne(i: nat)
      requires Valid() && i < |workers|
      modifies {workers[i]}`closing, workers[i].Procs()`stop
      ensures Valid() && States() == old(States())[i := Closing(old(States())[i])]
      ensures workers[i].proc != null ==> workers[i].proc.stop
    {
      workers[i].BeginClose();
      assert forall j :: 0 <= j < |workers| && j != i ==> workers[j].State() == old(workers[j].State());
    }

    /** The first loop of Shutdown: every worker is told to close and keeps its messages, and
        every current process is asked to stop. */
    method BeginShutdown()
      requires Valid()
      modifies workers`closing, (set w, p | w in workers && p in w.Procs() :: p)`stop
      ensures Valid() && AllClosing(old(States()), States(), |workers|)
      ensures forall i :: 0 <= i < |workers| && workers[i].proc != null ==> workers[i].proc.stop
    {
      ghost var before := States();
      for i := 0 to |workers|
        invariant Valid() && AllClosing(before, States(), i)
        invariant forall j :: 0 <= j < i && workers[j].proc != null ==> workers[j].proc.stop
      {
        ghost var now := States();
        CloseOne(i);
        OneMoreClosing(before, now, i);
      }
    }

    /** Worker.Dispatch on worker `b`, up to its registration: wait until it is live and has a
        slot, or closes, or the context is cancelled (at the turn `cancelAt`). MustWait means
        that it is still waiting after `turns` turns. */
    method Await(b: nat, tok: nat, chain: seq<string>, turns: nat, cancelAt: nat) returns (r: Waited)
      requires Valid() && b < |workers|
      modifies workers
      ensures Valid() && Registers(old(Loads()), Loads(), b, r.Accepted?)
      ensures r.TurnedAway? ==> workers[b].closing || cancelAt <= turns
      ensures r.MustWait? ==> workers[b].cur.None? || Loads()[b] >= cap
      ensures Holds(b, r, tok, chain)
    {
      ghost var before := Loads();
      r := Turn(b, tok, chain, 0 >= cancelAt);
      for turn := 0 to turns
        invariant Valid() && Registers(before, Loads(), b, r.Accepted?)
        invariant r.TurnedAway? ==> workers[b].closing || cancelAt <= turn
        invariant r.MustWait? ==> workers[b].cur.None? || Loads()[b] >= cap
        invariant Holds(b, r, tok, chain)
      {
        if !r.MustWait? { return; }
        ghost var mid := Loads();
        r := Turn(b, tok, chain, turn + 1 >= cancelAt);
        RegistersLater(before, mid, Loads(), b, r.Accepted?);
      }
    }

    /** A delivery that was accepted is in flight at worker `b`, as it was given. */
    ghost predicate Holds(b: nat, r: Waited, tok: nat, chain: seq<string>)
      requires b < |workers|
      reads workers, set w, m | w in workers && m in w.msgs.Values :: m
    {
      workers[b].HoldsAs(r, tok, chain)
    }

    /** One turn of that wait, whatever happens before the mutex is free. */
    method Turn(b: nat, tok: nat, chain: seq<string>, cancelled: bool) returns (r: Waited)
      requires Valid() && b < |workers|
      modifies workers
      ensures Valid() && Registers(old(Loads()), Loads(), b, r.Accepted?)
      ensures r.TurnedAway? <==> workers[b].closing || cancelled
      ensures r.MustWait? ==> workers[b].cur.None? || Loads()[b] >= cap
      ensures Holds(b, r, tok, chain)
    {
      ghost var before := Loads();
      Interfere();
      ghost var mid := Loads();
      r := TryAt(b, tok, chain, cancelled);
      RegistersOne(before, mid, b, r.Accepted?);
    }

    method TryAt(b: nat, tok: nat, chain: seq<string>, cancelled: bool) returns (r: Waited)
      requires Valid() && b < |workers|
      modifies workers[b]
      ensures Valid() && Loads() == old(Loads())[b := old(Loads())[b] + (if r.Accepted? then 1 else 0)]
      ensures r.TurnedAway? <==> workers[b].closing || cancelled
      ensures r.MustWait? ==> workers[b].cur.None? || Loads()[b] >= cap
      ensures Holds(b, r, tok, chain)
    {
      ghost var before := Loads();
      var w := workers[b];
      r := w.Attempt(tok, chain, cancelled);
      OthersAsBefore(w);
      assert Loads() == before[b := |w.msgs|];
    }

    /** The other workers are as they were. */
    twostate lemma OthersAsBefore(w: Worker)
      requires old(Valid()) && w in workers && w.Valid() && w.cap == cap
      requires forall v :: v in workers && v != w ==> unchanged(v)
      ensures Valid()
      ensures forall i :: 0 <= i < |workers| && workers[i] != w ==> Loads()[i] == old(Loads()[i])
    {
      forall i | 0 <= i < |workers|
        ensures workers[i].Valid() && workers[i].cap == cap
        ensures workers[i] != w ==> |workers[i].msgs| == old(|workers[i].msgs|)
      {
        assert workers[i] in workers;
        if workers[i] != w { OneAsBefore(workers[i]); }
      }
    }

    twostate lemma OneAsBefore(v: Worker)
      requires old(v.Valid()) && unchanged(v)
      ensures v.Valid() && v.msgs == old(v.msgs)
    {
    }

    /** Pool.Dispatch, up to the registration: the delivery is taken, if at all, by the worker
        the scan picked, and by no other. If any worker was below capacity when it began, the
        one it picks has a slot however long it waits: it waits only for a live process. The
        ghost results are the loads the scan read, and those when it ended. */
    method Dispatch(tok: nat, chain: seq<string>, turns: nat, cancelAt: nat)
      returns (best: nat, r: Waited, ghost read: seq<nat>, ghost mid: seq<nat>)
      requires Valid()
      modifies workers
      ensures Valid() && Picked(old(Loads()), read, mid, best)
      ensures Registers(mid, Loads(), best, r.Accepted?)
      ensures r.MustWait? && workers[best].cur.Some? ==> Full(old(Loads()), cap)
      ensures r.TurnedAway? ==> workers[best].closing || cancelAt <= turns
      ensures Holds(best, r, tok, chain)
    {
      ghost var before := Loads();
      best, read := LeastLoaded();
      mid := Loads();
      r := Await(best, tok, chain, turns, cancelAt);
      if r.MustWait? { WaitsOnlyIfFull(before, mid, Loads(), best, cap); }
    }
  }

  predicate Full(loads: seq<nat>, cap: nat) {
    forall i :: 0 <= i < |loads| ==> loads[i] >= cap
  }

  lemma WaitsOnlyIfFull(before: seq<nat>, mid: seq<nat>, now: seq<nat>, best: nat, cap: nat)
    requires LeavesRoom(before, mid, best, cap) && Registers(mid, now, best, false)
    ensures now[best] >= cap ==> Full(before, cap)
  {
  }

  // ------------------------------------------------------------------- balance

  /** The loads after `n` dispatches into an idle pool, with nothing settled meanwhile. */
  function Placed(size: nat, n: nat): (loads: seq<nat>)
    requires size >= 1
    ensures |loads| == size
  {
    if n == 0 then seq(size, _ => 0) else Filled(Placed(size, n - 1))
  }

  /** One more message for the first least loaded. */
  function Filled(loads: seq<nat>): seq<nat>
    requires loads != []
  {
    loads[FirstMin(loads) := loads[FirstMin(loads)] + 1]
  }

  lemma PlacedOneMore(size: nat, n: nat)
    requires size >= 1
    ensures Placed(size, n + 1) == Filled(Placed(size, n))
  {
  }

  /** All loads are `q`, but one more for the first `r`. */
  predicate Even(loads: seq<nat>, q: nat, r: nat) {
    r < |loads| && forall i :: 0 <= i < |loads| ==> loads[i] == if i < r then q + 1 else q
  }

  lemma EvenPicks(loads: seq<nat>, q: nat, r: nat)
    requires Even(loads, q, r)
    ensures FirstMin(loads) == r
  {
    assert loads[r] == q;
    FirstMinIsUnique(loads, FirstMin(loads), r);
  }

  lemma EvenStep(loads: seq<nat>, q: nat, r: nat)
    requires Even(loads, q, r)
    ensures r + 1 < |loads| ==> Even(loads[r := loads[r] + 1], q, r + 1)
    ensures r + 1 == |loads| ==> Even(loads[r := loads[r] + 1], q + 1, 0)
  {
  }

  /** The rounds completed by `n` placements, and the worker the next one is for. */
  function Slot(size: nat, n: nat): (nat, nat) {
    if n == 0 then (0, 0) else NextSlot(size, Slot(size, n - 1))
  }

  function NextSlot(size: nat, slot: (nat, nat)): (nat, nat) {
    if slot.1 + 1 < size then (slot.0, slot.1 + 1) else (slot.0 + 1, 0)
  }

  lemma {:induction false} PlacedEvenly(size: nat, n: nat)
    requires size >= 1
    ensures Even(Placed(size, n), Slot(size, n).0, Slot(size, n).1)
  {
    if n > 0 {
      var (q, r) := Slot(size, n - 1);
      PlacedEvenly(size, n - 1);
      EvenPicks(Placed(size, n - 1), q, r);
      EvenStep(Placed(size, n - 1), q, r);
    }
  }

  lemma {:induction false} SlotCounts(size: nat, n: nat)
    requires size >= 1
    ensures Slot(size, n).1 < size && n == Slot(size, n).0 * size + Slot(size, n).1
  {
    if n > 0 {
      SlotCounts(size, n - 1);
      OneRoundMore(Slot(size, n - 1).0, size);
    }
  }

  lemma OneRoundMore(q: nat, size: nat)
    ensures (q + 1) * size == q * size + size
  {
  }

  lemma SlotDivides(size: nat, n: nat)
    requires size >= 1
    ensures Slot(size, n) == (n / size, n % size)
  {
    var (q, r) := Slot(size, n);
    SlotCounts(size, n);
    DivMod(n, size, q, r);
  }

  lemma DivMod(n: nat, size: nat, q: nat, r: nat)
    requires r < size && n == q * size + r
    ensures n / size == q && n % size == r
  {
    SameMultiple(n / size, q, n % size, r, size);
  }

  lemma SameMultiple(a: nat, b: nat, r: nat, t: nat, size: nat)
    requires r < size && t < size && a * size + r == b * size + t
    ensures a == b && r == t
  {
    if a < b {
      MultipleApart(a, b, size);
    } else if b < a {
      MultipleApart(b, a, size);
    }
  }

  /** The n-th dispatch, counting from 0, lands on worker n mod size, where every load is
      n / size, but one more for the workers before it. */
  lemma BalancedPlacement(size: nat, n: nat, q: nat, r: nat)
    requires size >= 1 && q == n / size && r == n % size
    ensures FirstMin(Placed(size, n)) == r && Even(Placed(size, n), q, r)
  {
    PlacedEvenly(size, n);
    SlotDivides(size, n);
    EvenPicks(Placed(size, n), q, r);
  }

  lemma MultipleApart(a: nat, b: nat, size: nat)
    requires a < b
    ensures a * size + size <= b * size
  {
    assert b * size == a * size + (b - a) * size;
    assert (b - a) * size >= size by { TimesAtLeastOne(b - a, size); }
  }

  lemma TimesAtLeastOne(d: nat, size: nat)
    requires d >= 1
    ensures d * size >= size
  {
  }

  /** Before the pool is full the average is below the capacity. */
  lemma BelowAverage(n: nat, size: nat, cap: nat, q: nat)
    requires size >= 1 && q == n / size
    ensures n < size * cap ==> q < cap
  {
    var r := n % size;
    assert n == q * size + r;
    if cap < q { MultipleApart(cap, q, size); }
  }

  // ------------------------------------------------------------------ the window

  const TWO63 := 0x8000_0000_0000_0000

  /** A 64-bit signed product. */
  function Wrap64(n: int): int {
    (n + TWO63) % (2 * TWO63) - TWO63
  }

  predicate Int64(n: int) {
    -TWO63 <= n < TWO63
  }

  /** The window the broker is given: the product of the two settings, at least 1. */
  function Prefetch(size: int, capacity: int): nat {
    Max1(Wrap64(size * capacity))
  }

  /** What the pool can hold: each setting at least 1. */
  function Capacity(size: int, capacity: int): nat {
    Max1(size) * Max1(capacity)
  }

  /** With both settings at least 1 the window never exceeds the pool, and is the pool if
      the product fits 64 bits. */
  lemma PrefetchMatches(size: int, capacity: int)
    requires 1 <= size && 1 <= capacity
    ensures 1 <= Prefetch(size, capacity) <= Capacity(size, capacity)
    ensures Int64(size * capacity) ==> Prefetch(size, capacity) == Capacity(size, capacity)
  {
    assert size * capacity >= 1;
  }

  /** The two settings disagree: one of them is below 1, where the pool counts it as 1, and
      their product, as 64 bits hold it, is more than the pool has. */
  predicate ClampsDisagree(size: int, capacity: int) {
    (size < 1 || capacity < 1) && Wrap64(size * capacity) > Max1(if size < capacity then capacity else size)
  }

  /** For any settings at all the window exceeds the pool exactly then. */
  lemma PrefetchExceedsExactly(size: int, capacity: int)
    ensures Prefetch(size, capacity) > Capacity(size, capacity) <==> ClampsDisagree(size, capacity)
  {
    if 1 <= size && 1 <= capacity {
      PrefetchMatches(size, capacity);
    } else if size < 1 {
      assert Capacity(size, capacity) == Max1(capacity);
    } else {
      assert Capacity(size, capacity) == Max1(size);
    }
  }

  /** Two negative settings do, without any overflow. */
  lemma NegativeSettingsExceed()
    ensures Prefetch(-2, -3) == 6 && Capacity(-2, -3) == 1
  {
  }

  /** And so does one negative setting, if the product overflows. */
  lemma MixedSettingsExceed()
    ensures var size := -0x4000_0000_0000_0000;
      Prefetch(size, 3) == 0x4000_0000_0000_0000 && Capacity(size, 3) == 3
  {
  }

  /** As long as the product fits 64 bits only two negative settings can. */
  lemma PrefetchExceedsWithoutOverflow(size: int, capacity: int)
    requires Int64(size * capacity)
    ensures ClampsDisagree(size, capacity) <==> size < 0 && capacity < 0 && size * capacity > 1
  {
    assert size >= 1 && capacity <= 0 ==> size * capacity <= 0;
    assert size <= 0 && capacity >= 1 ==> size * capacity <= 0;
    assert size == 0 || capacity == 0 ==> size * capacity == 0;
  }
}
