/** What becomes of the emits a handler sends. */
module Emits {
  import opened Sections
  import opened Lifecycle
  import opened Invariants
  import opened Evolution
  import opened Disposition
  import opened Isolation

  /** The emits of a run and the chain each is due: that of the message it answers if the
      message is live when the emit is read, and none otherwise. */
  function EmitsOf(tr: seq<Step>): seq<EmitRead> {
    if tr == [] then []
    else
      var before, t := tr[..|tr| - 1], tr[|tr| - 1];
      if t.Read? && t.read.EmitNote? then
        EmitsOf(before) + [EmitRead(t.read.e, ChainDue(FateOf(before, t.read.e.deliver)))]
      else EmitsOf(before)
  }

  function ChainDue(f: Fate): seq<string> {
    if f.Live? then f.chain else []
  }

  /** Some publish of the emit `k` succeeded. */
  ghost predicate Published(pubs: seq<Pub>, k: nat) {
    exists i :: 0 <= i < |pubs| && pubs[i].index == k && pubs[i].ok
  }

  /** A publish of the emit `k` was attempted. */
  ghost predicate Attempted(pubs: seq<Pub>, k: nat) {
    exists i :: 0 <= i < |pubs| && pubs[i].index == k
  }

  /** Publishes are of declared selectors, in the order of the emits, at most one each, and
      carry the emit's chain, selector and data. */
  ghost predicate Publishes(c: Config, s: State) {
    && (forall i :: 0 <= i < |s.pubs| ==>
          && s.pubs[i].index < |s.emits|
          && s.pubs[i].chain == s.emits[s.pubs[i].index].chain
          && s.pubs[i].selector == s.emits[s.pubs[i].index].e.selector
          && s.pubs[i].data == s.emits[s.pubs[i].index].e.data
          && s.pubs[i].selector in c.outputs)
    && (forall i, j :: 0 <= i < j < |s.pubs| ==> s.pubs[i].index < s.pubs[j].index)
  }

  /** The read loop is done with every emit but the last, and knows where it is with it. */
  ghost predicate Answering(c: Config, s: State) {
    if s.sup.Reading? && s.sup.rd.Publishing? then
      && |s.emits| == |s.acks| + 1
      && s.emits[|s.acks|] == EmitRead(s.sup.rd.e, s.sup.rd.chain)
      && s.sup.rd.e.selector in c.outputs
      && (forall i :: 0 <= i < |s.pubs| ==> s.pubs[i].index < |s.acks|)
    else if s.sup.Reading? && s.sup.rd.Acking? then
      && |s.emits| == |s.acks| + 1
      && s.emits[|s.acks|].e.id == s.sup.rd.emit
      && (s.sup.rd.ok <==> Published(s.pubs, |s.acks|))
      && (s.emits[|s.acks|].e.selector in c.outputs <==> Attempted(s.pubs, |s.acks|))
    else
      |s.emits| == |s.acks|
  }

  /** The k-th acknowledgement answers the k-th emit with its own id, and says ok only if,
      and whenever, its publish succeeded; and that was attempted if, and only if, its
      selector is declared. */
  ghost predicate Answers(c: Config, s: State) {
    && |s.acks| <= |s.emits|
    && (forall k :: 0 <= k < |s.acks| ==>
          s.acks[k].index == k && s.acks[k].id == s.emits[k].e.id && (s.acks[k].ok <==> Published(s.pubs, k))
          && (s.emits[k].e.selector in c.outputs <==> Attempted(s.pubs, k)))
  }

  ghost predicate EmitBook(c: Config, s: State) {
    Publishes(c, s) && Answering(c, s) && Answers(c, s)
  }

  lemma PublishKeepsBook(c: Config, s: State, ok: bool)
    requires EmitBook(c, s) && ReadEnabled(s, PublishResult(ok))
    ensures EmitBook(c, ReadNext(c, s, PublishResult(ok)))
  {
    OneMorePub(s.pubs, ReadNext(c, s, PublishResult(ok)).pubs, |s.acks|);
  }

  lemma ReadKeepsBook(c: Config, s: State, t: ReadStep)
    requires EmitBook(c, s) && ReadEnabled(s, t)
    ensures EmitBook(c, ReadNext(c, s, t))
  {
    match t
    case PublishResult(ok) => PublishKeepsBook(c, s, ok);
    case _ => OtherReadsKeepBook(c, s, t);
  }

  lemma OtherReadsKeepBook(c: Config, s: State, t: ReadStep)
    requires EmitBook(c, s) && ReadEnabled(s, t) && !t.PublishResult?
    ensures EmitBook(c, ReadNext(c, s, t))
  {
    match t
    case Pickup(x) => if x in s.sh.msgs {}
    case Done(x, _) => if x in s.sh.msgs {}
    case _ =>
  }

  lemma OneMorePub(pubs: seq<Pub>, more: seq<Pub>, last: nat)
    requires |more| == |pubs| + 1 && more[..|pubs|] == pubs && more[|pubs|].index == last
    requires forall i :: 0 <= i < |pubs| ==> pubs[i].index < last
    ensures forall k: nat :: k < last ==> (Published(more, k) <==> Published(pubs, k))
    ensures forall k: nat :: k < last ==> (Attempted(more, k) <==> Attempted(pubs, k))
    ensures (Published(more, last) <==> more[|pubs|].ok) && Attempted(more, last)
  {
    forall k: nat | k < last ensures Attempted(more, k) <==> Attempted(pubs, k) {
      if i :| 0 <= i < |pubs| && pubs[i].index == k { assert more[i] == pubs[i]; }
      if i :| 0 <= i < |more| && more[i].index == k { assert more[i] == pubs[i]; }
    }
    assert more[|pubs|].index == last;
    forall k: nat | k < last ensures Published(more, k) <==> Published(pubs, k) {
      if i :| 0 <= i < |pubs| && pubs[i].index == k && pubs[i].ok { assert more[i] == pubs[i]; }
      if i :| 0 <= i < |more| && more[i].index == k && more[i].ok { assert more[i] == pubs[i]; }
    }
    if more[|pubs|].ok { assert Published(more, last); }
  }

  lemma SupKeepsBook(c: Config, s: State, t: SupStep)
    requires EmitBook(c, s) && SupEnabled(s, t)
    ensures EmitBook(c, SupNext(s, t))
  {
  }

  lemma OthersKeepBook(c: Config, s: State, t: Step, u: State)
    requires EmitBook(c, s) && Frame(c, s, t, u) && !t.Supervise? && !t.Read?
    ensures EmitBook(c, u)
  {
  }

  lemma StepKeepsBook(c: Config, s: State, t: Step)
    requires EmitBook(c, s) && Enabled(c, s, t)
    ensures EmitBook(c, Next(c, s, t))
  {
    StepEvolves(c, s, t);
    match t
    case Supervise(u) => SupKeepsBook(c, s, u);
    case Read(u) => ReadKeepsBook(c, s, u);
    case _ => OthersKeepBook(c, s, t, Next(c, s, t));
  }

  lemma {:induction false} ChainIsDue(c: Config, tr: seq<Step>, id: int)
    requires Exec(c, tr).Some?
    ensures ChainOf(Exec(c, tr).value.sh, id) == ChainDue(FateOf(tr, id))
  {
    Reachable(c, tr);
    RunAgrees(c, tr, id);
    assert Message(Exec(c, tr).value, id);
  }

  lemma ReadEmits(c: Config, s: State, t: ReadStep)
    requires ReadEnabled(s, t)
    ensures ReadNext(c, s, t).emits ==
            if t.EmitNote? then s.emits + [EmitRead(t.e, ChainOf(s.sh, t.e.deliver))] else s.emits
  {
    match t
    case Pickup(x) => if x in s.sh.msgs {}
    case Done(x, _) => if x in s.sh.msgs {}
    case _ =>
  }

  /** Every emit read is due the chain the run says; and its publish, if any, and its
      acknowledgement keep to it. */
  lemma {:induction false} EmitsAccounted(c: Config, tr: seq<Step>)
    requires Exec(c, tr).Some?
    ensures Exec(c, tr).value.emits == EmitsOf(tr)
    ensures EmitBook(c, Exec(c, tr).value)
  {
    if tr != [] {
      var before, t := tr[..|tr| - 1], tr[|tr| - 1];
      EmitsAccounted(c, before);
      var s := Exec(c, before).value;
      StepEvolves(c, s, t);
      StepKeepsBook(c, s, t);
      if t.Read? {
        ReadEmits(c, s, t.read);
        if t.read.EmitNote? { ChainIsDue(c, before, t.read.e.deliver); }
      }
    }
  }

  /** Every emit's chain is that of a message this worker accepted, or none. */
  ghost predicate Borrowed(s: State) {
    forall k :: 0 <= k < |s.emits| ==>
      s.emits[k].chain == [] || exists id :: id in s.born && s.born[id].chain == s.emits[k].chain
  }

  lemma StepKeepsBorrowed(c: Config, s: State, t: Step)
    requires Inv(c, s) && Enabled(c, s, t) && Borrowed(s)
    ensures Borrowed(Next(c, s, t))
  {
    var u := Next(c, s, t);
    StepEvolves(c, s, t);
    forall id | id in s.born ensures id in u.born && u.born[id] == s.born[id] {
      if t.Dispatch? {
        assert Message(s, id);
        CallKeepsBirths(c, s, t.call, id);
      }
    }
    if t.Read? {
      ReadEmits(c, s, t.read);
      if t.read.EmitNote? {
        var id := t.read.e.deliver;
        assert Message(s, id);
        assert u.emits[|s.emits|].chain == [] || (id in s.born && s.born[id].chain == u.emits[|s.emits|].chain);
      }
    }
  }

  // -------------------------------------------------- acknowledgements on the queue

  function AcksIn(q: seq<OutNote>): seq<OutNote> {
    if q == [] then []
    else if q[|q| - 1].AckNote? then AcksIn(q[..|q| - 1]) + [q[|q| - 1]]
    else AcksIn(q[..|q| - 1])
  }

  function AcksFor(acks: seq<AckSent>, g: nat): seq<OutNote> {
    if acks == [] then []
    else
      var a := acks[|acks| - 1];
      if a.g == g && a.queued then AcksFor(acks[..|acks| - 1], g) + [AckNote(a.id, a.ok)]
      else AcksFor(acks[..|acks| - 1], g)
  }

  /** The emit_acks queued for a process are those of the emits read from it, in order, but
      for the ones that found the queue full. */
  ghost predicate AcksMatch(s: State) {
    && (forall g :: 0 <= g < |s.procs| ==> AcksIn(s.procs[g].queued) == AcksFor(s.acks, g))
    && (forall k :: 0 <= k < |s.acks| ==> s.acks[k].g < |s.procs|)
  }

  lemma {:induction false} NoAcksYet(acks: seq<AckSent>, g: nat)
    requires forall k :: 0 <= k < |acks| ==> acks[k].g < g
    ensures AcksFor(acks, g) == []
  {
    if acks != [] { NoAcksYet(acks[..|acks| - 1], g); }
  }

  lemma QueueKeepsAcks(c: Config, s: State, t: Step, g: nat, q: Proc)
    requires g < |s.procs| && Evolves(c, s, t, g, q)
    requires !Acknowledges(s, t, g)
    ensures AcksIn(q.queued) == AcksIn(s.procs[g].queued)
  {
    var o := s.procs[g].queued;
    if q.queued != o { assert q.queued[..|q.queued| - 1] == o; }
  }

  lemma AckStepKeepsMatch(c: Config, s: State)
    requires AcksMatch(s) && ReadEnabled(s, AckEmit)
    ensures AcksMatch(ReadNext(c, s, AckEmit))
  {
    var u := ReadNext(c, s, AckEmit);
    assert u.acks[..|u.acks| - 1] == s.acks;
    forall g | 0 <= g < |u.procs| ensures AcksIn(u.procs[g].queued) == AcksFor(u.acks, g) {
      if u.procs[g] != s.procs[g] { assert u.procs[g].queued[..|u.procs[g].queued| - 1] == s.procs[g].queued; }
    }
  }

  lemma ReadAcks(c: Config, s: State, t: ReadStep)
    requires ReadEnabled(s, t) && t != AckEmit
    ensures ReadNext(c, s, t).acks == s.acks
  {
    match t
    case Pickup(x) => if x in s.sh.msgs {}
    case Done(x, _) => if x in s.sh.msgs {}
    case _ =>
  }

  lemma StepKeepsMatch(c: Config, s: State, t: Step, u: State)
    requires AcksMatch(s) && Frame(c, s, t, u) && t != Read(AckEmit) && u.acks == s.acks
    ensures AcksMatch(u)
  {
    forall g | 0 <= g < |u.procs| ensures AcksIn(u.procs[g].queued) == AcksFor(u.acks, g) {
      if g < |s.procs| { QueueKeepsAcks(c, s, t, g, u.procs[g]); } else { NoAcksYet(s.acks, g); }
    }
  }

  lemma {:induction false} AcksQueuedMatch(c: Config, tr: seq<Step>)
    requires Exec(c, tr).Some?
    ensures AcksMatch(Exec(c, tr).value)
  {
    if tr != [] {
      var before, t := tr[..|tr| - 1], tr[|tr| - 1];
      AcksQueuedMatch(c, before);
      var s := Exec(c, before).value;
      if t == Read(AckEmit) {
        AckStepKeepsMatch(c, s);
      } else {
        StepEvolves(c, s, t);
        if t.Read? { ReadAcks(c, s, t.read); }
        StepKeepsMatch(c, s, t, Next(c, s, t));
      }
    }
  }

  /** The emit_acks that a run has due for the process `g`: of each answered emit read from it,
      if its queue had a free place then, which is one more than the capacity in all. */
  function AcksDue(c: Config, tr: seq<Step>, g: nat): seq<OutNote> {
    if tr == [] then []
    else
      var before, t := tr[..|tr| - 1], tr[|tr| - 1];
      match Exec(c, before)
      case None => []
      case Some(s) =>
        if t == Read(AckEmit) && ReadEnabled(s, AckEmit) && s.sup.g == g && |s.procs[g].out| <= c.cap then
          AcksDue(c, before, g) + [AckNote(s.sup.rd.emit, s.sup.rd.ok)]
        else AcksDue(c, before, g)
  }

  /** They are what is queued for it, and in that order: none is dropped while there is room. */
  lemma {:induction false} AcksQueuedAsDue(c: Config, tr: seq<Step>, g: nat)
    requires Exec(c, tr).Some? && g < |Exec(c, tr).value.procs|
    ensures AcksIn(Exec(c, tr).value.procs[g].queued) == AcksDue(c, tr, g)
  {
    AcksQueuedMatch(c, tr);
    AcksForAreDue(c, tr, g);
  }

  lemma {:induction false} AcksForAreDue(c: Config, tr: seq<Step>, g: nat)
    requires Exec(c, tr).Some?
    ensures AcksFor(Exec(c, tr).value.acks, g) == AcksDue(c, tr, g)
  {
    if tr != [] {
      var before, t := tr[..|tr| - 1], tr[|tr| - 1];
      var s := Exec(c, before).value;
      AcksForAreDue(c, before, g);
      StepEvolves(c, s, t);
      if t == Read(AckEmit) {
        OneAckMore(c, s, g);
      } else if t.Read? {
        ReadAcks(c, s, t.read);
      }
    }
  }

  lemma OneAckMore(c: Config, s: State, g: nat)
    requires ReadEnabled(s, AckEmit)
    ensures AcksFor(ReadNext(c, s, AckEmit).acks, g) ==
            if s.sup.g == g && |s.procs[g].out| <= c.cap then
              AcksFor(s.acks, g) + [AckNote(s.sup.rd.emit, s.sup.rd.ok)]
            else AcksFor(s.acks, g)
  {
    var more := ReadNext(c, s, AckEmit).acks;
    assert more[..|more| - 1] == s.acks;
  }
}
