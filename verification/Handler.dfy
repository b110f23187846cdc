/** What a handler reads: the byte protocol and the runs of a worker, together. */
module Handler {
  import opened Lifecycle
  import opened Stdin
  import opened Wire
  import opened WorkerCode

  lemma {:induction false} BodiesFit(notes: seq<OutNote>, encode: OutNote -> seq<byte>)
    ensures Fit(Bodies(notes, encode))
  {
    if notes != [] { BodiesFit(notes[1..], encode); }
  }

  lemma {:induction false} BodiesPrefix(a: seq<OutNote>, b: seq<OutNote>, encode: OutNote -> seq<byte>)
    requires a <= b
    ensures Bodies(a, encode) <= Bodies(b, encode)
  {
    if a != [] { BodiesPrefix(a[1..], b[1..], encode); }
  }

  predicate AllFit(notes: seq<OutNote>, encode: OutNote -> seq<byte>) {
    forall o :: o in notes ==> |encode(o)| <= MAX_FRAME_SIZE
  }

  lemma {:induction false} EachIsABody(notes: seq<OutNote>, encode: OutNote -> seq<byte>)
    requires AllFit(notes, encode)
    ensures |Bodies(notes, encode)| == |notes|
    ensures forall i :: 0 <= i < |notes| ==> Bodies(notes, encode)[i] == encode(notes[i])
  {
    if notes != [] {
      EachIsABody(notes[1..], encode);
      assert Bodies(notes, encode) == [encode(notes[0])] + Bodies(notes[1..], encode);
    }
  }

  lemma {:induction false} SubsequenceOfMore<T>(a: seq<T>, b: seq<T>, more: seq<T>)
    requires Subsequence(a, b)
    ensures Subsequence(a, b + more)
  {
    if more == [] {
      assert b + more == b;
    } else {
      var n := |more| - 1;
      SubsequenceOfMore(a, b, more[..n]);
      AppendRight(a, b + more[..n], more[n]);
      assert b + more == b + more[..n] + [more[n]];
    }
  }

  /** The bytes of a stdin: the init note, the notes written, and as much of one more as went
      through before the pipe broke. */
  function StdinBytes(init: seq<byte>, p: Proc, encode: OutNote -> seq<byte>, torn: seq<byte>, k: nat): seq<byte>
    requires k < |Frame(torn)|
  {
    Frames([init] + Bodies(p.stdin, encode)) + Frame(torn)[..k]
  }

  lemma ReadsBack(init: seq<byte>, p: Proc, encode: OutNote -> seq<byte>, torn: seq<byte>, k: nat)
    requires |init| <= MAX_FRAME_SIZE && |torn| <= MAX_FRAME_SIZE && k < |Frame(torn)|
    ensures ReadAll(StdinBytes(init, p, encode, torn, k)) ==
            ([init] + Bodies(p.stdin, encode), if k == 0 || k == 4 then Eof else UnexpectedEof)
  {
    BodiesFit(p.stdin, encode);
    CutFrame(torn, k);
    ReadsUpTo([init] + Bodies(p.stdin, encode), Frame(torn)[..k]);
  }

  /** What the handler of `p` gets, one note at a time: the init note and then, whole and in
      order, notes that were queued for it, one body each if none is too large; and if no
      write failed and stdin was closed, everything queued before the stop. */
  ghost predicate Received(p: Proc, init: seq<byte>, encode: OutNote -> seq<byte>, got: seq<seq<byte>>) {
    && got == [init] + Bodies(p.stdin, encode) && Subsequence(p.stdin, p.queued)
    && (AllFit(p.stdin, encode) ==>
          |got| == 1 + |p.stdin| && forall i :: 0 <= i < |p.stdin| ==> got[i + 1] == encode(p.stdin[i]))
    && (p.failures == 0 && p.writer.Closed? ==>
          p.beforeStop <= |p.queued| && [init] + Bodies(p.queued[..p.beforeStop], encode) <= got)
  }

  lemma WrittenWereQueued(c: Config, p: Proc)
    requires Flow(c, p)
    ensures Subsequence(p.stdin, p.queued)
  {
    SubsequenceOfMore(p.stdin, Finished(p), Held(p) + p.out);
    assert Finished(p) + (Held(p) + p.out) == p.queued;
  }

  lemma DrainedBeforeStop(c: Config, p: Proc, encode: OutNote -> seq<byte>)
    requires Flow(c, p) && p.failures == 0 && p.writer.Closed?
    ensures Bodies(p.queued[..p.beforeStop], encode) <= Bodies(p.stdin, encode)
  {
    NothingLostBeforeStop(c, p);
    BodiesPrefix(p.queued[..p.beforeStop], p.stdin, encode);
  }

  lemma BodiesAreReceived(c: Config, p: Proc, init: seq<byte>, encode: OutNote -> seq<byte>)
    requires Flow(c, p)
    ensures Received(p, init, encode, [init] + Bodies(p.stdin, encode))
  {
    WrittenWereQueued(c, p);
    if AllFit(p.stdin, encode) { EachIsABody(p.stdin, encode); }
    if p.failures == 0 && p.writer.Closed? { DrainedBeforeStop(c, p, encode); }
  }

  /** In every run the handler of any process, reading its stdin to the end, gets that; and
      the end is clean unless the pipe broke inside a frame and not just behind its header. */
  lemma {:induction false} ReadsWhatWasQueued(c: Config, tr: seq<Step>, g: nat, init: seq<byte>,
                                              encode: OutNote -> seq<byte>, torn: seq<byte>, k: nat)
    requires Exec(c, tr).Some? && g < |Exec(c, tr).value.procs|
    requires |init| <= MAX_FRAME_SIZE && |torn| <= MAX_FRAME_SIZE && k < |Frame(torn)|
    ensures var p := Exec(c, tr).value.procs[g];
      var (got, end) := ReadAll(StdinBytes(init, p, encode, torn, k));
      Received(p, init, encode, got) && end == if k == 0 || k == 4 then Eof else UnexpectedEof
  {
    FlowAlways(c, tr);
    var p := Exec(c, tr).value.procs[g];
    ReadsBack(init, p, encode, torn, k);
    BodiesAreReceived(c, p, init, encode);
  }
}
