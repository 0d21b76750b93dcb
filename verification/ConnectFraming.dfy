// connect.go and the read loop of runner.go: Connect envelopes, one flags byte and
// a four-byte big-endian length before each payload ("Enveloped-Message" of the
// Connect Protocol Reference).
module ConnectFraming {

  type Byte = x: int | 0 <= x < 256

  const HEADER_SIZE: nat := 5
  const MAX_PAYLOAD: nat := 0x100_0000

  datatype Frame = Frame(flags: Byte, payload: seq<Byte>)

  predicate Fits(f: Frame) {
    |f.payload| <= MAX_PAYLOAD
  }

  function BigEndian(n: nat): (r: seq<Byte>)
    requires n < 0x1_0000_0000
    ensures |r| == 4
  {
    [n / 0x100_0000, n / 0x1_0000 % 0x100, n / 0x100 % 0x100, n % 0x100]
  }

  function FromBigEndian(b: seq<Byte>): nat
    requires |b| == 4
  {
    (b[0] as int) * 0x100_0000 + (b[1] as int) * 0x1_0000 + (b[2] as int) * 0x100 + b[3]
  }

  lemma BigEndianRoundTrip(n: nat)
    requires n < 0x1_0000_0000
    ensures FromBigEndian(BigEndian(n)) == n
  {
    var a, b, c := n / 0x100, n / 0x1_0000, n / 0x100_0000;
    assert n == a * 0x100 + n % 0x100 && a == b * 0x100 + a % 0x100 && b == c * 0x100 + b % 0x100;
  }

  function Encode(f: Frame): seq<Byte>
    requires Fits(f)
  {
    [f.flags] + BigEndian(|f.payload|) + f.payload
  }

  // frameConnectWithFlags: fills a buffer of the frame's size.
  method FrameWithFlags(payload: array<Byte>, flags: Byte) returns (frame: array<Byte>)
    requires payload.Length <= MAX_PAYLOAD
    ensures fresh(frame) && frame[..] == Encode(Frame(flags, payload[..]))
  {
    frame := new Byte[HEADER_SIZE + payload.Length](_ => 0);
    frame[0] := flags;
    var length := BigEndian(payload.Length);
    for i := 0 to 4
      invariant frame[0] == flags && forall j :: 0 <= j < i ==> frame[1 + j] == length[j]
    {
      frame[1 + i] := length[i];
    }
    for i := 0 to payload.Length
      invariant frame[0] == flags && forall j :: 0 <= j < 4 ==> frame[1 + j] == length[j]
      invariant forall j :: 0 <= j < i ==> frame[HEADER_SIZE + j] == payload[j]
    {
      frame[HEADER_SIZE + i] := payload[i];
    }
    assert frame[..] == [flags] + length + payload[..];
  }

  datatype Parsed = Incomplete | TooLarge | Complete(frame: Frame, consumed: nat)

  // parseConnectFrame
  function Parse(buffer: seq<Byte>): (p: Parsed)
    ensures p.Complete? ==> HEADER_SIZE <= p.consumed <= |buffer| && p.consumed == HEADER_SIZE + |p.frame.payload| && Fits(p.frame)
  {
    if |buffer| < HEADER_SIZE then Incomplete
    else
      var length := FromBigEndian(buffer[1..HEADER_SIZE]);
      if length > MAX_PAYLOAD then TooLarge
      else if |buffer| < HEADER_SIZE + length then Incomplete
      else Complete(Frame(buffer[0], buffer[HEADER_SIZE..HEADER_SIZE + length]), HEADER_SIZE + length)
  }

  // What comes later does not change what is parsed.
  lemma ParseMore(buffer: seq<Byte>, more: seq<Byte>)
    ensures Parse(buffer) != Incomplete ==> Parse(buffer + more) == Parse(buffer)
  {
    if |buffer| >= HEADER_SIZE {
      assert (buffer + more)[1..HEADER_SIZE] == buffer[1..HEADER_SIZE];
      var length := FromBigEndian(buffer[1..HEADER_SIZE]);
      if |buffer| >= HEADER_SIZE + length {
        assert (buffer + more)[HEADER_SIZE..HEADER_SIZE + length] == buffer[HEADER_SIZE..HEADER_SIZE + length];
      }
    }
  }

  lemma ParseEncoded(f: Frame, rest: seq<Byte>)
    requires Fits(f)
    ensures Parse(Encode(f) + rest) == Complete(f, |Encode(f)|)
  {
    var buffer := Encode(f) + rest;
    BigEndianRoundTrip(|f.payload|);
    assert buffer[1..HEADER_SIZE] == BigEndian(|f.payload|);
    assert buffer[HEADER_SIZE..HEADER_SIZE + |f.payload|] == f.payload;
  }

  // The frames in a buffer, what is left of it, and whether a frame is too large.
  datatype Drained = Drained(frames: seq<Frame>, rest: seq<Byte>, failed: bool)

  function Drain(buffer: seq<Byte>): Drained
    decreases |buffer|
  {
    match Parse(buffer)
    case Incomplete => Drained([], buffer, false)
    case TooLarge => Drained([], buffer, true)
    case Complete(frame, consumed) =>
      var d := Drain(buffer[consumed..]);
      d.(frames := [frame] + d.frames)
  }

  // One chunk from the stream: it is appended to the buffer, which is then drained.
  // After a frame that is too large nothing is read any more.
  function Receive(d: Drained, chunk: seq<Byte>): Drained {
    if d.failed then d
    else
      var e := Drain(d.rest + chunk);
      e.(frames := d.frames + e.frames)
  }

  function ReceiveAll(chunks: seq<seq<Byte>>): Drained {
    if chunks == [] then Drained([], [], false) else Receive(ReceiveAll(chunks[..|chunks| - 1]), chunks[|chunks| - 1])
  }

  function Concat(chunks: seq<seq<Byte>>): seq<Byte> {
    if chunks == [] then [] else Concat(chunks[..|chunks| - 1]) + chunks[|chunks| - 1]
  }

  lemma DrainOnce(buffer: seq<Byte>)
    ensures var p := Parse(buffer);
            Drain(buffer) == if p.Incomplete? then Drained([], buffer, false)
                             else if p.TooLarge? then Drained([], buffer, true)
                             else var d := Drain(buffer[p.consumed..]); Drained([p.frame] + d.frames, d.rest, d.failed)
  {
    hide Parse;
  }

  lemma {:induction false} DrainMore(buffer: seq<Byte>, more: seq<Byte>)
    ensures var (d, e) := (Drain(buffer), Drain(buffer + more));
            if d.failed then e.failed && e.frames == d.frames
            else e == var r := Drain(d.rest + more); r.(frames := d.frames + r.frames)
    decreases |buffer|
  {
    hide Parse, Drain;
    ParseMore(buffer, more);
    DrainOnce(buffer);
    DrainOnce(buffer + more);
    var p := Parse(buffer);
    if p.Complete? {
      var d := Drain(buffer[p.consumed..]);
      DrainMore(buffer[p.consumed..], more);
      assert (buffer + more)[p.consumed..] == buffer[p.consumed..] + more;
      assert [p.frame] + (d.frames + Drain(d.rest + more).frames) == [p.frame] + d.frames + Drain(d.rest + more).frames;
    } else if p.Incomplete? {
      assert [] + Drain(buffer + more).frames == Drain(buffer + more).frames;
    }
  }

  // However the bytes are cut into chunks, the loop yields the same frames, fails
  // alike, and keeps the same rest.
  lemma {:induction false} ChunksDoNotMatter(chunks: seq<seq<Byte>>)
    ensures var (d, e) := (ReceiveAll(chunks), Drain(Concat(chunks)));
            d.frames == e.frames && d.failed == e.failed && (!d.failed ==> d.rest == e.rest)
  {
    hide Parse, Drain;
    if chunks == [] {
      DrainNothing();
    } else {
      ChunksDoNotMatter(chunks[..|chunks| - 1]);
      DrainMore(Concat(chunks[..|chunks| - 1]), chunks[|chunks| - 1]);
    }
  }

  lemma DrainNothing()
    ensures Drain([]) == Drained([], [], false)
  {}

  function EncodeAll(frames: seq<Frame>): seq<Byte>
    requires forall f :: f in frames ==> Fits(f)
  {
    if frames == [] then [] else Encode(frames[0]) + EncodeAll(frames[1..])
  }

  lemma {:induction false} DrainEncoded(frames: seq<Frame>)
    requires forall f :: f in frames ==> Fits(f)
    ensures Drain(EncodeAll(frames)) == Drained(frames, [], false)
  {
    hide Parse, Encode;
    if frames == [] {
      DrainNothing();
    } else {
      var rest := EncodeAll(frames[1..]);
      ParseEncoded(frames[0], rest);
      DrainEncoded(frames[1..]);
      assert (Encode(frames[0]) + rest)[|Encode(frames[0])|..] == rest;
      assert [frames[0]] + frames[1..] == frames;
    }
  }

  // Frames within the limit arrive whole, in order and without remainder.
  lemma FramesArrive(frames: seq<Frame>, chunks: seq<seq<Byte>>)
    requires (forall f :: f in frames ==> Fits(f)) && Concat(chunks) == EncodeAll(frames)
    ensures ReceiveAll(chunks) == Drained(frames, [], false)
  {
    ChunksDoNotMatter(chunks);
    DrainEncoded(frames);
  }

  // The loops of Run: append the chunk, parse and consume until nothing is whole.
  method ReadFrames(chunks: seq<seq<Byte>>) returns (frames: seq<Frame>, buffer: seq<Byte>, failed: bool)
    ensures Drained(frames, buffer, failed) == ReceiveAll(chunks)
  {
    hide Parse;
    frames, buffer, failed := [], [], false;
    for i := 0 to |chunks|
      invariant !failed && Drained(frames, buffer, failed) == ReceiveAll(chunks[..i])
    {
      assert chunks[..i + 1][..i] == chunks[..i];
      buffer := buffer + chunks[i];
      ghost var start, before := buffer, frames;
      while true
        invariant Drain(start).failed == Drain(buffer).failed && Drain(start).rest == Drain(buffer).rest
        invariant before + Drain(start).frames == frames + Drain(buffer).frames
        decreases |buffer|
      {
        var p := Parse(buffer);
        if p.TooLarge? {
          failed := true;
          assert frames + [] == frames;
          ReceivingStops(chunks, i + 1);
          return;
        }
        if p.Incomplete? {
          assert frames + [] == frames;
          break;
        }
        assert frames + ([p.frame] + Drain(buffer[p.consumed..]).frames) == frames + [p.frame] + Drain(buffer[p.consumed..]).frames;
        buffer, frames := buffer[p.consumed..], frames + [p.frame];
      }
    }
    assert chunks[..|chunks|] == chunks;
  }

  lemma {:induction false} ReceivingStops(chunks: seq<seq<Byte>>, k: nat)
    requires k <= |chunks| && ReceiveAll(chunks[..k]).failed
    ensures ReceiveAll(chunks) == ReceiveAll(chunks[..k])
  {
    hide Drain;
    if k == |chunks| {
      assert chunks[..k] == chunks;
    } else {
      assert chunks[..|chunks| - 1][..k] == chunks[..k];
      ReceivingStops(chunks[..|chunks| - 1], k);
    }
  }
}
