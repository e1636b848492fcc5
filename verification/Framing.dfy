/** Cutting a byte stream into messages, for any way the stream is split into chunks. */
module Framing {
  import opened BitStream
  import opened Collections
  import opened Wire

  // The first whole frame (with its length) and what follows it.
  function Extract(buffer: Bytes): Option<(Bytes, Bytes)> {
    if |buffer| < 4 then None
    else
      var size := FromLe(buffer[..4]);
      if |buffer| < size + 4 then None else Some((buffer[..size + 4], buffer[size + 4..]))
  }

  // Extracting until nothing comes out any more.
  function Drained(buffer: Bytes): (seq<Bytes>, Bytes)
    decreases |buffer|
  {
    match Extract(buffer)
    case None => ([], buffer)
    case Some((frame, rest)) =>
      var (frames, left) := Drained(rest);
      ([frame] + frames, left)
  }

  function Flat(frames: seq<Bytes>): Bytes {
    if frames == [] then [] else frames[0] + Flat(frames[1..])
  }

  // A sent message comes out alone and whole, whatever follows it, exactly if it has less than 2^32 bytes.
  lemma SentComesOutIff(data: Bytes, rest: Bytes)
    ensures Extract(Counted(data) + rest) == Some((Counted(data), rest)) <==> |data| < WIDTH32
  {
    var count := |data| % WIDTH32;
    var buffer := Counted(data) + rest;
    Widths();
    LeBack(count, 4);
    hide Le, FromLe, Pow256;
    assert buffer[..4] == Le(count, 4);
    assert buffer[..|data| + 4] == Counted(data) && buffer[|data| + 4..] == rest;
  }

  lemma ExtractSplits(buffer: Bytes)
    ensures match Extract(buffer) { case None => true case Some((frame, rest)) => frame + rest == buffer }
  {
  }

  // Bytes that arrive later do not change a frame that is already whole.
  lemma ExtractEarly(a: Bytes, b: Bytes)
    requires Extract(a).Some?
    ensures var (frame, rest) := Extract(a).value; Extract(a + b) == Some((frame, rest + b))
  {
    assert (a + b)[..4] == a[..4];
    var size := FromLe(a[..4]);
    assert (a + b)[..size + 4] == a[..size + 4];
    assert (a + b)[size + 4..] == a[size + 4..] + b;
  }

  lemma {:induction false} DrainedConcat(a: Bytes, b: Bytes)
    ensures var (frames, left) := Drained(a);
            Drained(a + b) == (frames + Drained(left + b).0, Drained(left + b).1)
    decreases |a|
  {
    if Extract(a).None? {
      assert [] + Drained(a + b).0 == Drained(a + b).0;
    } else {
      var (frame, rest) := Extract(a).value;
      ExtractEarly(a, b);
      DrainedConcat(rest, b);
      var (frames, left) := Drained(rest);
      hide Extract;
      assert [frame] + (frames + Drained(left + b).0) == ([frame] + frames) + Drained(left + b).0;
    }
  }

  // ----- A reader fed with chunks, asked for messages in between

  datatype Op = Push(chunk: Bytes) | Pull

  datatype Reader = Reader(buffer: Bytes, got: seq<Bytes>)

  function Step(r: Reader, op: Op): Reader {
    match op
    case Push(chunk) => r.(buffer := r.buffer + chunk)
    case Pull =>
      match Extract(r.buffer)
      case None => r
      case Some((frame, rest)) => Reader(rest, r.got + [frame])
  }

  function RunOps(r: Reader, ops: seq<Op>): Reader
    decreases |ops|
  {
    if ops == [] then r else RunOps(Step(r, ops[0]), ops[1..])
  }

  function Arrived(op: Op): Bytes {
    match op
    case Push(chunk) => chunk
    case Pull => []
  }

  function Pushed(ops: seq<Op>): Bytes {
    if ops == [] then [] else Arrived(ops[0]) + Pushed(ops[1..])
  }

  lemma {:induction false} FlatAppend(frames: seq<Bytes>, frame: Bytes)
    ensures Flat(frames + [frame]) == Flat(frames) + frame
  {
    if frames != [] {
      assert (frames + [frame])[1..] == frames[1..] + [frame];
      FlatAppend(frames[1..], frame);
    } else {
      assert Flat([frame]) == frame + Flat([]);
    }
  }

  // One operation neither loses nor invents bytes.
  lemma StepConserves(r: Reader, op: Op)
    ensures var r' := Step(r, op);
            Flat(r'.got) + r'.buffer == Flat(r.got) + r.buffer + Arrived(op)
  {
    if op.Pull? && Extract(r.buffer).Some? {
      FlatAppend(r.got, Extract(r.buffer).value.0);
      ExtractSplits(r.buffer);
    }
  }

  // Nor does it change what will have come out in the end.
  lemma StepForetold(r: Reader, op: Op)
    ensures var r' := Step(r, op);
            var (frames, left) := Drained(r.buffer + Arrived(op));
            Drained(r'.buffer).1 == left && r'.got + Drained(r'.buffer).0 == r.got + frames
  {
    if op.Pull? {
      assert r.buffer + [] == r.buffer;
      if Extract(r.buffer).Some? {
        var (frame, rest) := Extract(r.buffer).value;
        assert (r.got + [frame]) + Drained(rest).0 == r.got + ([frame] + Drained(rest).0);
      }
    }
  }

  // At any time the extracted frames and the buffer are the bytes that were pushed.
  lemma {:induction false} NothingLost(r: Reader, ops: seq<Op>)
    ensures var r' := RunOps(r, ops); Flat(r'.got) + r'.buffer == Flat(r.got) + r.buffer + Pushed(ops)
    decreases |ops|
  {
    if ops == [] {
      assert Flat(r.got) + r.buffer + [] == Flat(r.got) + r.buffer;
    } else {
      hide Flat, Step;
      StepConserves(r, ops[0]);
      NothingLost(Step(r, ops[0]), ops[1..]);
      hide Arrived;
      Regroup(Flat(r.got) + r.buffer, Arrived(ops[0]), Pushed(ops[1..]));
    }
  }

  lemma Regroup(a: Bytes, b: Bytes, c: Bytes)
    ensures a + b + c == a + (b + c)
  {
  }

  // However the bytes are chunked and whenever messages are asked for, what has been extracted so far followed by
  // what the buffer still yields is what the whole byte string yields.
  lemma {:induction false} ChunkingIndependent(r: Reader, ops: seq<Op>)
    ensures var r' := RunOps(r, ops);
            var (frames, left) := Drained(r.buffer + Pushed(ops));
            Drained(r'.buffer).1 == left && r'.got + Drained(r'.buffer).0 == r.got + frames
    decreases |ops|
  {
    if ops == [] {
      assert r.buffer + [] == r.buffer;
    } else {
      hide Drained, Step;
      StepForetold(r, ops[0]);
      ChunkingIndependent(Step(r, ops[0]), ops[1..]);
      Foretold(r, Step(r, ops[0]), Arrived(ops[0]), Pushed(ops[1..]));
    }
  }

  lemma Foretold(r: Reader, r1: Reader, first: Bytes, later: Bytes)
    requires Drained(r1.buffer).1 == Drained(r.buffer + first).1
    requires r1.got + Drained(r1.buffer).0 == r.got + Drained(r.buffer + first).0
    ensures Drained(r1.buffer + later).1 == Drained(r.buffer + (first + later)).1
    ensures r1.got + Drained(r1.buffer + later).0 == r.got + Drained(r.buffer + (first + later)).0
  {
    var left := Drained(r1.buffer).1;
    var more := Drained(left + later).0;
    DrainedConcat(r1.buffer, later);
    DrainedConcat(r.buffer + first, later);
    hide Drained;
    assert r.buffer + first + later == r.buffer + (first + later);
    assert r1.got + (Drained(r1.buffer).0 + more) == (r1.got + Drained(r1.buffer).0) + more;
    assert r.got + (Drained(r.buffer + first).0 + more) == (r.got + Drained(r.buffer + first).0) + more;
  }

  // ----- Messages sent one after the other

  function Frames(messages: seq<Bytes>): (frames: seq<Bytes>)
    ensures |frames| == |messages|
  {
    seq(|messages|, i requires 0 <= i < |messages| => Counted(messages[i]))
  }

  ghost predicate Sendable(messages: seq<Bytes>) {
    forall m | m in messages :: |m| < WIDTH32
  }

  lemma {:induction false} FramesComeOut(messages: seq<Bytes>)
    requires Sendable(messages)
    ensures Drained(Flat(Frames(messages))) == (Frames(messages), [])
  {
    var frames := Frames(messages);
    if messages != [] {
      assert frames[1..] == Frames(messages[1..]);
      FramesComeOut(messages[1..]);
      SentComesOutIff(messages[0], Flat(frames[1..]));
      hide Extract;
      assert [frames[0]] + frames[1..] == frames;
    }
  }

  // While the frames of sent messages arrive in any chunks, the extracted messages are the first ones sent, in order;
  // once all bytes have arrived and nothing more comes out, they are all of them and the buffer is empty.
  lemma FramesRecovered(messages: seq<Bytes>, ops: seq<Op>, missing: Bytes)
    requires Sendable(messages) && Pushed(ops) + missing == Flat(Frames(messages))
    ensures var r := RunOps(Reader([], []), ops);
            && r.got <= Frames(messages)
            && Flat(r.got) + r.buffer == Pushed(ops)
            && (missing == [] && Extract(r.buffer).None? ==> r.got == Frames(messages) && r.buffer == [])
  {
    var r0 := Reader([], []);
    var r := RunOps(r0, ops);
    NothingLost(r0, ops);
    ChunkingIndependent(r0, ops);
    FramesComeOut(messages);
    DrainedConcat(Pushed(ops), missing);
    hide RunOps, Frames, Extract;
    assert [] + Pushed(ops) == Pushed(ops);
    assert Flat([]) + [] + Pushed(ops) == Pushed(ops);
    assert r.got + Drained(r.buffer).0 == Drained(Pushed(ops)).0;
    assert Drained(Pushed(ops)).0 <= Frames(messages);
    if missing == [] {
      assert Pushed(ops) + missing == Pushed(ops);
    }
  }
}
