/** Length-prefixed frames over a byte stream that arrives in arbitrary chunks
    (control_plane/executor_ipc.py). */
module Frames {
  import opened Types

  type Byte = x: int | 0 <= x < 256

  type Bytes = seq<Byte>

  const MAX_REQUEST_SIZE: nat := 4096

  datatype FrameError = FrameTooLarge | ClosedBeforeHeader | ShortHeader | ClosedBeforePayload

  datatype Outcome<+T> = Got(value: T) | Failed(error: FrameError)

  function Header(n: nat): (h: Bytes)
    requires n < 0x1_0000_0000
    ensures |h| == 4
  {
    [n / 0x100_0000, n / 0x1_0000 % 0x100, n / 0x100 % 0x100, n % 0x100]
  }

  function Length(h: Bytes): nat
    requires |h| == 4
  {
    var a: int, b: int, c: int := h[0], h[1], h[2];
    a * 0x100_0000 + b * 0x1_0000 + c * 0x100 + h[3]
  }

  lemma HeaderRoundTrip(n: nat)
    requires n < 0x1_0000_0000
    ensures Length(Header(n)) == n
  {
    assert n / 0x1_0000 == n / 0x100_0000 * 0x100 + n / 0x1_0000 % 0x100;
    assert n / 0x100 == n / 0x1_0000 * 0x100 + n / 0x100 % 0x100;
  }

  function EncodeFrame(data: Bytes): Outcome<Bytes> {
    if |data| > MAX_REQUEST_SIZE then Failed(FrameTooLarge) else Got(Header(|data|) + data)
  }

  // ----- decoding, on the bytes still to come ---------------------------------------

  function Min(a: nat, b: nat): nat { if a < b then a else b }

  /** `_recv_exact`: None only when the stream has ended before the first byte,
      and fewer bytes than asked for when it ends in between. */
  function Received(b: Bytes, size: nat): Option<Bytes> {
    if size > 0 && b == [] then None else Some(b[..Min(size, |b|)])
  }

  function Rest(b: Bytes, size: nat): Bytes { b[Min(size, |b|)..] }

  datatype Decoded = Decoded(result: Outcome<Bytes>, rest: Bytes)

  function Decode(b: Bytes): Decoded {
    var header, after := Received(b, 4), Rest(b, 4);
    if header.None? then Decoded(Failed(ClosedBeforeHeader), after)
    else if |header.value| != 4 then Decoded(Failed(ShortHeader), after)
    else
      var n := Length(header.value);
      if n > MAX_REQUEST_SIZE then Decoded(Failed(FrameTooLarge), after) else
      var payload := Received(after, n);
      Decoded(if payload.None? then Failed(ClosedBeforePayload) else Got(payload.value), Rest(after, n))
  }

  /** A complete frame decodes to its payload and consumes exactly its bytes,
      whatever follows. */
  lemma FrameRoundTrip(data: Bytes, more: Bytes)
    requires |data| <= MAX_REQUEST_SIZE
    ensures EncodeFrame(data).Got?
    ensures Decode(EncodeFrame(data).value + more) == Decoded(Got(data), more)
  {
    var h := Header(|data|);
    var b := h + data + more;
    HeaderRoundTrip(|data|);
    assert b[..4] == h && b[4..] == data + more;
    assert (data + more)[..|data|] == data && (data + more)[|data|..] == more;
    assert EncodeFrame(data).value + more == b;
  }

  function Frames(ps: seq<Bytes>): Bytes
    requires forall i :: 0 <= i < |ps| ==> |ps[i]| <= MAX_REQUEST_SIZE
  {
    if ps == [] then [] else EncodeFrame(ps[0]).value + Frames(ps[1..])
  }

  /** Reads `n` frames in a row. */
  function DecodeMany(b: Bytes, n: nat): Outcome<seq<Bytes>>
    decreases n
  {
    if n == 0 then Got([]) else
    var d := Decode(b);
    if d.result.Failed? then Failed(d.result.error) else
    var others := DecodeMany(d.rest, n - 1);
    if others.Failed? then others else Got([d.result.value] + others.value)
  }

  /** Frames written one after another come out one by one, unmixed. */
  lemma {:induction false} StreamRoundTrip(ps: seq<Bytes>, more: Bytes)
    requires forall i :: 0 <= i < |ps| ==> |ps[i]| <= MAX_REQUEST_SIZE
    ensures DecodeMany(Frames(ps) + more, |ps|) == Got(ps)
    decreases |ps|
  {
    if ps == [] { return; }
    var tail := Frames(ps[1..]) + more;
    FrameRoundTrip(ps[0], tail);
    StreamRoundTrip(ps[1..], more);
    assert Frames(ps) + more == EncodeFrame(ps[0]).value + tail;
    assert [ps[0]] + ps[1..] == ps;
  }

  /** Exactly what decoding accepts: a whole header that announces a permitted
      length and, unless that is zero, at least one byte of payload.  What it
      returns is the announced payload if and only if all of it arrived. */
  lemma DecodeAccepts(b: Bytes)
    ensures Decode(b).result.Got? <==>
      |b| >= 4 && Length(b[..4]) <= MAX_REQUEST_SIZE && (Length(b[..4]) > 0 ==> |b| > 4)
    ensures Decode(b).result.Got? ==>
      var n, p := Length(b[..4]), Decode(b).result.value;
      && p == b[4..Min(4 + n, |b|)] && b == b[..4] + p + Decode(b).rest
      && (|p| == n <==> |b| >= 4 + n)
      && (|b| >= 4 + n ==> EncodeFrame(p).Got? && EncodeFrame(p).value == b[..4 + n])
  {
    if |b| >= 4 {
      var n := Length(b[..4]);
      assert b[4..][..Min(n, |b| - 4)] == b[4..Min(4 + n, |b|)];
      if Decode(b).result.Got? && |b| >= 4 + n {
        HeaderIsUnique(b[..4]);
        assert b[..4 + n] == b[..4] + b[4..4 + n];
      }
    }
  }

  lemma HeaderIsUnique(h: Bytes)
    requires |h| == 4
    ensures Length(h) < 0x1_0000_0000 && Header(Length(h)) == h
  {
    var n := Length(h);
    var a: int, b: int, c: int, d: int := h[0], h[1], h[2], h[3];
    assert n == a * 0x100_0000 + b * 0x1_0000 + c * 0x100 + d;
    assert n / 0x100_0000 == a;
    assert n / 0x1_0000 == a * 0x100 + b;
    assert n / 0x100 == a * 0x1_0000 + b * 0x100 + c;
    assert Header(n) == [h[0], h[1], h[2], h[3]];
  }

  /** A stream cut off inside a payload is not refused: the fragment passes for
      the payload. */
  lemma TruncatedFrameIsAccepted()
    ensures Decode([0, 0, 0, 2, 7]).result == Got([7])
  {
    var b: Bytes := [0, 0, 0, 2, 7];
    assert b[..4] == [0, 0, 0, 2] && Length(b[..4]) == 2;
    assert b[4..] == [7] && b[4..][..1] == [7];
  }

  // ----- the socket ---------------------------------------------------------------------

  function Joined(chunks: seq<Bytes>): Bytes {
    if chunks == [] then [] else chunks[0] + Joined(chunks[1..])
  }

  /** What the peer sent, in the pieces in which it will arrive; the end of the
      list is the end of the stream. */
  class Socket {
    var chunks: seq<Bytes>

    ghost predicate Valid()
      reads this
    {
      forall i :: 0 <= i < |chunks| ==> chunks[i] != []
    }

    ghost function Pending(): Bytes
      reads this
    {
      Joined(chunks)
    }

    constructor (c: seq<Bytes>)
      requires forall i :: 0 <= i < |c| ==> c[i] != []
      ensures Valid() && chunks == c
    {
      chunks := c;
    }

    /** At most `size` bytes of the next piece; nothing only at the end. */
    method Recv(size: nat) returns (r: Bytes)
      requires Valid() && size > 0
      modifies this
      ensures Valid() && old(Pending()) == r + Pending()
      ensures |r| <= size && (r == [] <==> old(Pending()) == [])
    {
      if chunks == [] { return []; }
      var first := chunks[0];
      assert Pending() == first + Joined(chunks[1..]);
      if |first| <= size {
        r, chunks := first, chunks[1..];
      } else {
        r := first[..size];
        chunks := [first[size..]] + chunks[1..];
        assert first == first[..size] + first[size..];
        assert chunks[1..] == old(chunks)[1..];
      }
    }
  }

  method RecvExact(sock: Socket, size: nat) returns (r: Option<Bytes>)
    requires sock.Valid()
    modifies sock
    ensures sock.Valid()
    ensures r == Received(old(sock.Pending()), size) && sock.Pending() == Rest(old(sock.Pending()), size)
  {
    var data: Bytes := [];
    ghost var all := sock.Pending();
    while |data| < size
      invariant sock.Valid() && |data| <= size && all == data + sock.Pending()
      decreases size - |data|
    {
      var chunk := sock.Recv(size - |data|);
      if chunk == [] {
        assert all == data;
        return if data == [] then None else Some(data);
      }
      data := data + chunk;
    }
    assert all[..size] == data;
    r := Some(data);
  }

  /** `decode_frame`: for every way the bytes are cut into pieces, the result
      and what is left of the stream depend on the bytes alone. */
  method DecodeFrame(sock: Socket) returns (r: Outcome<Bytes>)
    requires sock.Valid()
    modifies sock
    ensures sock.Valid() && Decoded(r, sock.Pending()) == Decode(old(sock.Pending()))
  {
    var header := RecvExact(sock, 4);
    if header.None? { return Failed(ClosedBeforeHeader); }
    if |header.value| != 4 { return Failed(ShortHeader); }
    var n := Length(header.value);
    if n > MAX_REQUEST_SIZE { return Failed(FrameTooLarge); }
    var payload := RecvExact(sock, n);
    if payload.None? { return Failed(ClosedBeforePayload); }
    r := Got(payload.value);
  }
}
