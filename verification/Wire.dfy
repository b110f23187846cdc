/** The byte protocol between engine and handler: each note is a 4-byte big-endian length
    and a body of at most MAX_FRAME_SIZE bytes. */
module Wire {
  import opened Common

  type byte = x: int | 0 <= x < 256

  const MAX_FRAME_SIZE := 64 * 1024 * 1024

  // -------------------------------------------------------------------- values

  function LowByte(n: nat): byte {
    n % 256
  }

  /** Big-endian, most significant byte first. */
  function BE32(n: nat): (h: seq<byte>)
    requires n < TWO32
    ensures |h| == 4
  {
    [LowByte(n / 256 / 256 / 256), LowByte(n / 256 / 256), LowByte(n / 256), LowByte(n)]
  }

  function FromBE32(h: seq<byte>): (n: nat)
    requires |h| == 4
    ensures n < TWO32
  {
    var b: seq<int> := h;
    ((b[0] * 256 + b[1]) * 256 + b[2]) * 256 + b[3]
  }

  lemma LastByte(m: nat, b: byte)
    ensures (m * 256 + b) / 256 == m && LowByte(m * 256 + b) == b
  {
  }

  lemma LengthRoundTrip(n: nat)
    requires n < TWO32
    ensures FromBE32(BE32(n)) == n
  {
    var n1 := n / 256;
    var n2 := n1 / 256;
    assert n == n1 * 256 + n % 256 && n1 == n2 * 256 + n1 % 256 && n2 == n2 / 256 * 256 + n2 % 256;
    assert n2 / 256 < 256;
  }

  /** Big-endian: the first byte counts 2^24, the last one 1. */
  lemma BigEndian(h: seq<byte>)
    requires |h| == 4
    ensures var b: seq<int> := h;
      var n := b[0] * 16777216 + b[1] * 65536 + b[2] * 256 + b[3];
      FromBE32(h) == n && n < TWO32 && BE32(n) == h
  {
    HeaderRoundTrip(h);
  }

  lemma HeaderRoundTrip(h: seq<byte>)
    requires |h| == 4
    ensures BE32(FromBE32(h)) == h
  {
    var b: seq<int> := h;
    LastByte((b[0] * 256 + b[1]) * 256 + b[2], b[3]);
    LastByte(b[0] * 256 + b[1], b[2]);
    LastByte(b[0], b[1]);
  }

  /** One frame; the length is the body's, cut to 32 bits. */
  function Frame(body: seq<byte>): seq<byte> {
    BE32(|body| % TWO32) + body
  }

  function Frames(bodies: seq<seq<byte>>): seq<byte> {
    if bodies == [] then [] else Frame(bodies[0]) + Frames(bodies[1..])
  }

  predicate Fit(bodies: seq<seq<byte>>) {
    forall i :: 0 <= i < |bodies| ==> |bodies[i]| <= MAX_FRAME_SIZE
  }

  datatype ReadResult = Body(body: seq<byte>) | Eof | UnexpectedEof | TooLarge

  /** Filling a buffer of n bytes: end of stream if there is nothing at all, a truncation if
      there is something but not enough, and nothing to do for an empty buffer. */
  function FullRead(n: nat, s: seq<byte>): ReadResult {
    if n <= |s| then Body(s[..n]) else if s == [] then Eof else UnexpectedEof
  }

  function Dropped(n: nat, s: seq<byte>): seq<byte> {
    if n <= |s| then s[n..] else []
  }

  /** What reading one frame returns, and what it leaves. */
  function ReadOne(s: seq<byte>): (ReadResult, seq<byte>) {
    match FullRead(4, s)
    case Body(h) =>
      var n := FromBE32(h);
      if n > MAX_FRAME_SIZE then (TooLarge, s[4..]) else (FullRead(n, s[4..]), Dropped(n, s[4..]))
    case e => (e, [])
  }

  /** Frames until the first result that is not one. */
  function ReadAll(s: seq<byte>): (seq<seq<byte>>, ReadResult)
    decreases |s|
  {
    match ReadOne(s)
    case (Body(b), rest) =>
      var (bodies, end) := ReadAll(rest);
      ([b] + bodies, end)
    case (e, _) => ([], e)
  }

  // ------------------------------------------------------------------ theorems

  lemma FitsTheHeader(n: nat)
    requires n <= MAX_FRAME_SIZE
    ensures n % TWO32 == n
  {
  }

  /** The 4-byte length never truncates. */
  lemma FrameParts(body: seq<byte>)
    requires |body| <= MAX_FRAME_SIZE
    ensures Frame(body) == BE32(|body|) + body && FromBE32(Frame(body)[..4]) == |body|
  {
    FitsTheHeader(|body|);
    LengthRoundTrip(|body|);
    assert Frame(body)[..4] == BE32(|body|);
  }

  lemma ReadsOneFrame(body: seq<byte>, rest: seq<byte>)
    requires |body| <= MAX_FRAME_SIZE
    ensures ReadOne(Frame(body) + rest) == (Body(body), rest)
  {
    var s := Frame(body) + rest;
    FrameParts(body);
    assert s[..4] == Frame(body)[..4];
    assert s[4..] == body + rest;
  }

  /** Any frames written are read back, in order, and then comes the end of the stream. */
  lemma {:induction false} RoundTrip(bodies: seq<seq<byte>>)
    requires Fit(bodies)
    ensures ReadAll(Frames(bodies)) == (bodies, Eof)
  {
    if bodies != [] {
      ReadsOneFrame(bodies[0], Frames(bodies[1..]));
      RoundTrip(bodies[1..]);
      assert bodies == [bodies[0]] + bodies[1..];
    }
  }

  /** Different sequences of notes are different bytes. */
  lemma UniquelyDecodable(a: seq<seq<byte>>, b: seq<seq<byte>>)
    requires Fit(a) && Fit(b) && Frames(a) == Frames(b)
    ensures a == b
  {
    RoundTrip(a);
    RoundTrip(b);
  }

  /** A clean end is reported at a frame boundary, but also right after the header of a
      frame whose body never came. */
  lemma CleanEndExactly(s: seq<byte>)
    ensures ReadOne(s).0 == Eof <==> s == [] || (|s| == 4 && 1 <= FromBE32(s) <= MAX_FRAME_SIZE)
  {
    if |s| == 4 { assert s[..4] == s; }
  }

  /** A frame is refused exactly if its big-endian length is over 64 MiB. */
  lemma RefusedExactly(s: seq<byte>)
    ensures ReadOne(s).0 == TooLarge <==>
            && |s| >= 4
            && var b: seq<int> := s; b[0] * 16777216 + b[1] * 65536 + b[2] * 256 + b[3] > 67108864
  {
    if |s| >= 4 {
      var b: seq<int>, h: seq<int> := s, s[..4];
      assert h[0] == b[0] && h[1] == b[1] && h[2] == b[2] && h[3] == b[3];
      BigEndian(s[..4]);
    }
  }

  /** So the promise that a truncated frame is never a clean end fails. */
  lemma TruncatedFrameReadsAsCleanEnd()
    ensures Frame([7])[..4] < Frame([7]) && ReadOne(Frame([7])[..4]).0 == Eof
  {
    LengthRoundTrip(1);
    assert Frame([7])[..4] == BE32(1);
    CleanEndExactly(BE32(1));
  }

  lemma ReadFrameIsFrame(s: seq<byte>)
    requires ReadOne(s).0.Body?
    ensures |ReadOne(s).0.body| <= MAX_FRAME_SIZE && s == Frame(ReadOne(s).0.body) + ReadOne(s).1
  {
    var n := FromBE32(s[..4]);
    FitsTheHeader(n);
    HeaderRoundTrip(s[..4]);
    assert ReadOne(s) == (Body(s[4..][..n]), s[4..][n..]);
    assert s == s[..4] + (s[4..][..n] + s[4..][n..]);
  }

  /** A header with a length of at least 1, and nothing after it. */
  predicate BareHeader(s: seq<byte>) {
    |s| == 4 && 1 <= FromBE32(s) <= MAX_FRAME_SIZE
  }

  /** What is left of a stream when the last read failed. */
  function Leftover(s: seq<byte>): seq<byte>
    decreases |s|
  {
    if ReadOne(s).0.Body? then Leftover(ReadOne(s).1) else s
  }

  /** Whatever the stream, the bodies read are those of the frames it starts with; and it
      ends cleanly exactly if nothing or one bare header follows them. */
  lemma {:induction false} StreamsExactly(s: seq<byte>)
    ensures Fit(ReadAll(s).0) && s == Frames(ReadAll(s).0) + Leftover(s)
    ensures ReadAll(s).1 == Eof <==> Leftover(s) == [] || BareHeader(Leftover(s))
    decreases |s|
  {
    var (r, rest) := ReadOne(s);
    if r.Body? {
      ReadFrameIsFrame(s);
      StreamsExactly(rest);
      OneMoreFrame(r.body, ReadAll(rest).0, Leftover(rest));
    } else {
      CleanEndExactly(s);
    }
  }

  lemma OneMoreFrame(body: seq<byte>, bodies: seq<seq<byte>>, left: seq<byte>)
    ensures Frame(body) + (Frames(bodies) + left) == Frames([body] + bodies) + left
  {
    assert ([body] + bodies)[1..] == bodies;
  }

  lemma ReadsFront(body: seq<byte>, rest: seq<byte>)
    requires |body| <= MAX_FRAME_SIZE
    ensures ReadAll(Frame(body) + rest) == ([body] + ReadAll(rest).0, ReadAll(rest).1)
  {
    ReadsOneFrame(body, rest);
  }

  /** Frames with a remainder that is no frame behind them: the frames, and how it ends. */
  lemma {:induction false} ReadsUpTo(bodies: seq<seq<byte>>, left: seq<byte>)
    requires Fit(bodies) && !ReadOne(left).0.Body?
    ensures ReadAll(Frames(bodies) + left) == (bodies, ReadOne(left).0)
  {
    if bodies == [] {
      assert [] + left == left;
      ReadsNothing(left);
    } else {
      ReadsUpTo(bodies[1..], left);
      ReadsFront(bodies[0], Frames(bodies[1..]) + left);
      OneMoreFrame(bodies[0], bodies[1..], left);
      assert bodies == [bodies[0]] + bodies[1..];
    }
  }

  /** How many of the frames end at or before byte `k`. */
  function WholeFrames(bodies: seq<seq<byte>>, k: nat): (m: nat)
    ensures m <= |bodies|
  {
    if bodies == [] || k < |Frame(bodies[0])| then 0
    else 1 + WholeFrames(bodies[1..], k - |Frame(bodies[0])|)
  }

  /** Cut at byte `k`, the stream gives the first `m` bodies and then an end, clean exactly if
      the cut is at a boundary or just behind a header. */
  predicate CutGives(bodies: seq<seq<byte>>, k: nat, m: nat) {
    && m <= |bodies| && |Frames(bodies[..m])| <= k <= |Frames(bodies)|
    && (m < |bodies| ==> k < |Frames(bodies[..m + 1])|)
    && ReadAll(Frames(bodies)[..k]) ==
         (bodies[..m], if k - |Frames(bodies[..m])| in {0, 4} then Eof else UnexpectedEof)
  }

  /** A stream of frames cut anywhere gives exactly the bodies of the frames that end at or
      before the cut. */
  lemma {:induction false} TruncatedStream(bodies: seq<seq<byte>>, k: nat)
    requires Fit(bodies) && k <= |Frames(bodies)|
    ensures CutGives(bodies, k, WholeFrames(bodies, k))
  {
    if bodies != [] {
      if k < |Frame(bodies[0])| {
        CutInFirst(bodies, k);
      } else {
        TruncatedStream(bodies[1..], k - |Frame(bodies[0])|);
        CutAfterFirst(bodies, k, WholeFrames(bodies[1..], k - |Frame(bodies[0])|));
      }
    }
  }

  lemma CutInFirst(bodies: seq<seq<byte>>, k: nat)
    requires Fit(bodies) && bodies != [] && k < |Frame(bodies[0])|
    ensures CutGives(bodies, k, 0)
  {
    var f := Frame(bodies[0]);
    CutConcat(f, Frames(bodies[1..]), k);
    CutFrame(bodies[0], k);
    ReadsNothing(f[..k]);
    OneFrame(bodies[0]);
    assert bodies[..1] == [bodies[0]];
  }

  lemma CutAfterFirst(bodies: seq<seq<byte>>, k: nat, m: nat)
    requires Fit(bodies) && bodies != [] && |Frame(bodies[0])| <= k
    requires CutGives(bodies[1..], k - |Frame(bodies[0])|, m)
    ensures CutGives(bodies, k, m + 1)
  {
    var f, tail := Frame(bodies[0]), bodies[1..];
    CutConcat(f, Frames(tail), k);
    ReadsFront(bodies[0], Frames(tail)[..k - |f|]);
    FirstFrames(bodies, m);
    if m < |tail| { FirstFrames(bodies, m + 1); }
  }

  lemma OneFrame(body: seq<byte>)
    ensures Frames([body]) == Frame(body)
  {
    assert [body][1..] == [];
  }

  lemma FirstFrames(bodies: seq<seq<byte>>, m: nat)
    requires bodies != [] && m < |bodies|
    ensures bodies[..m + 1] == [bodies[0]] + bodies[1..][..m]
    ensures Frames(bodies[..m + 1]) == Frame(bodies[0]) + Frames(bodies[1..][..m])
  {
    assert bodies[..m + 1][1..] == bodies[1..][..m];
  }

  lemma ReadsNothing(s: seq<byte>)
    requires !ReadOne(s).0.Body?
    ensures ReadAll(s) == ([], ReadOne(s).0)
  {
  }

  lemma CutConcat(a: seq<byte>, b: seq<byte>, k: nat)
    requires k <= |a + b|
    ensures (a + b)[..k] == if k < |a| then a[..k] else a + b[..k - |a|]
  {
  }

  lemma CutFrame(body: seq<byte>, k: nat)
    requires |body| <= MAX_FRAME_SIZE && k < |Frame(body)|
    ensures ReadOne(Frame(body)[..k]).0 == if k == 0 || k == 4 then Eof else UnexpectedEof
  {
    var s := Frame(body)[..k];
    if k >= 4 {
      FrameParts(body);
      assert s[..4] == Frame(body)[..4];
      assert s[4..] == body[..k - 4];
    }
  }
}
