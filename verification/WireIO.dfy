/** Reading and writing frames, in place, over streams that give and take what they like. */
module WireIO {
  import opened Common
  import opened Wire

  /** The reading end of a pipe; every read returns at least one byte until the end. */
  class Source {
    const data: seq<byte>
    var pos: nat

    ghost predicate Valid() reads this { pos <= |data| }

    ghost function Rest(): seq<byte>
      requires Valid()
      reads this
    {
      data[pos..]
    }

    constructor (data: seq<byte>)
      ensures Valid() && Rest() == data
    {
      this.data := data;
      pos := 0;
    }

    /** Fills `buf`, over as many short reads as it takes. */
    method ReadFull(buf: array<byte>) returns (r: ReadResult)
      requires Valid()
      modifies this, buf
      ensures Valid() && Rest() == Dropped(buf.Length, old(Rest()))
      ensures r == FullRead(buf.Length, old(Rest()))
      ensures r.Body? ==> r.body == buf[..]
    {
      ghost var s := Rest();
      var n := 0;
      while n < buf.Length && pos < |data|
        invariant Valid() && n <= buf.Length && n <= |s| && s == data[old(pos)..] && pos == old(pos) + n
        invariant buf[..n] == s[..n]
      {
        var k: nat :| 1 <= k <= buf.Length - n && k <= |data| - pos;
        forall i | n <= i < n + k { buf[i] := data[pos + i - n]; }
        n, pos := n + k, pos + k;
      }
      if n == buf.Length {
        assert buf[..n] == buf[..];
        r := Body(buf[..]);
      } else if n == 0 {
        r := Eof;
      } else {
        r := UnexpectedEof;
      }
    }

    /** One frame's body, or why there is none. */
    method ReadFrame() returns (r: ReadResult)
      requires Valid()
      modifies this
      ensures Valid() && (r, Rest()) == ReadOne(old(Rest()))
    {
      var hdr := new byte[4];
      var h := ReadFull(hdr);
      if !h.Body? { return h; }
      var n := FromBE32(hdr[..]);
      if n > MAX_FRAME_SIZE { return TooLarge; }
      var body := new byte[n];
      r := ReadFull(body);
    }
  }

  datatype WriteError = Written | FrameTooLarge | Broken

  /** The writing end of a pipe that breaks once `limit` bytes have gone through. */
  class Sink {
    var written: seq<byte>
    const limit: nat

    ghost predicate Valid() reads this { |written| <= limit }

    constructor (limit: nat)
      ensures Valid() && written == [] && this.limit == limit
    {
      this.limit := limit;
      written := [];
    }

    method Write(bytes: seq<byte>) returns (ok: bool)
      requires Valid()
      modifies this
      ensures Valid()
      ensures ok <==> |old(written)| + |bytes| <= limit
      ensures written == Upto(old(written) + bytes, limit)
    {
      ok := |written| + |bytes| <= limit;
      written := if ok then written + bytes else written + bytes[..limit - |written|];
    }

    /** Writes one frame; a body over the maximum is refused before any byte is written. */
    method WriteFrame(body: seq<byte>) returns (e: WriteError)
      requires Valid()
      modifies this
      ensures Valid()
      ensures e == FrameTooLarge <==> |body| > MAX_FRAME_SIZE
      ensures e == FrameTooLarge ==> written == old(written)
      ensures e != FrameTooLarge ==> written == Upto(old(written) + Frame(body), limit)
      ensures e == Written <==> |body| <= MAX_FRAME_SIZE && |old(written)| + |Frame(body)| <= limit
    {
      if |body| > MAX_FRAME_SIZE { return FrameTooLarge; }
      var hdr := new byte[4];
      PutUint32(hdr, |body| % TWO32);
      var ok := Write(hdr[..]);
      if !ok { return Broken; }
      ok := Write(body);
      e := if ok then Written else Broken;
    }
  }

  function Upto(s: seq<byte>, limit: nat): seq<byte> {
    if |s| <= limit then s else s[..limit]
  }

  method PutUint32(hdr: array<byte>, n: nat)
    requires hdr.Length == 4 && n < TWO32
    modifies hdr
    ensures hdr[..] == BE32(n)
  {
    hdr[0] := LowByte(n / 256 / 256 / 256);
    hdr[1] := LowByte(n / 256 / 256);
    hdr[2] := LowByte(n / 256);
    hdr[3] := LowByte(n);
  }
}
