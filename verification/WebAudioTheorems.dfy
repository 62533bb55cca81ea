/** Frame arithmetic, conservation and progress of one pass of the push loop. */
module WebAudioTheorems {
  import opened WebAudioModel

  // ----- Frame arithmetic -----

  lemma QuotientFits(size: nat, frameSize: nat)
    requires frameSize > 0
    ensures (size / frameSize) * frameSize <= size < (size / frameSize) * frameSize + frameSize
    ensures size / frameSize <= size
  {
    var whole := size / frameSize;
    assert size == whole * frameSize + size % frameSize;
    MulMonotone(1, frameSize, whole);
  }

  lemma MulMonotone(a: nat, b: nat, c: nat)
    requires a <= b
    ensures a * c <= b * c && c * a <= c * b
  {
  }

  /** What is written fits the room and the buffer, and its size does not wrap. */
  lemma FramesFit(size: nat, room: nat, frameSize: nat)
    requires frameSize > 0 && size < U32
    ensures var frames := FramesToWrite(size, room, frameSize);
            && frames == Min(room, size / frameSize)
            && frames * frameSize <= size
            && ByteCount(frames, frameSize) == frames * frameSize
  {
    QuotientFits(size, frameSize);
    MulMonotone(Min(room, size / frameSize), size / frameSize, frameSize);
  }

  lemma FlatFront(front: Bytes, rest: seq<Bytes>)
    ensures Flat([front] + rest) == front + Flat(rest)
  {
    assert ([front] + rest)[1..] == rest;
  }

  lemma {:induction false} FlatPush(buffers: seq<Bytes>, last: Bytes)
    ensures Flat(buffers + [last]) == Flat(buffers) + last
  {
    if buffers == [] {
      FlatFront(last, []);
      assert buffers + [last] == [last];
    } else {
      assert (buffers + [last])[1..] == buffers[1..] + [last];
      FlatPush(buffers[1..], last);
    }
  }

  /** Keeping the leftover, merged or not, keeps its bytes in place. */
  lemma LeftoverKeepsBytes(buffers: seq<Bytes>, offset: nat, leftover: nat, frameSize: nat)
    requires buffers != [] && frameSize > 0
    ensures Flat(KeepLeftover(buffers, offset, leftover, frameSize)) ==
            Resize(buffers[0], offset, leftover) + Flat(buffers[1..])
  {
    var rest := Resize(buffers[0], offset, leftover);
    if Merges(buffers, leftover, frameSize) {
      FlatFront(rest + buffers[1], buffers[2..]);
      assert buffers[1..] == [buffers[1]] + buffers[2..];
      FlatFront(buffers[1], buffers[2..]);
      assert rest + buffers[1] + Flat(buffers[2..]) == rest + (buffers[1] + Flat(buffers[2..]));
    } else {
      FlatFront(rest, buffers[1..]);
    }
  }

  // ----- Conservation in one pass -----

  /** The bytes a log line takes out of the queue. */
  function Consumes(e: Entry): Bytes {
    match e
    case Wrote(bytes, _, _, _) => bytes
    case Dropped(bytes) => bytes
    case _ => []
  }

  function Consumed(log: seq<Entry>): Bytes {
    if log == [] then [] else Consumed(log[..|log| - 1]) + Consumes(log[|log| - 1])
  }

  function AcceptedBytes(log: seq<Entry>): Bytes {
    if log == [] then []
    else AcceptedBytes(log[..|log| - 1]) + if log[|log| - 1].Accepted? then log[|log| - 1].bytes else []
  }

  lemma LogGrows(log: seq<Entry>, e: Entry)
    ensures Consumed(log + [e]) == Consumed(log) + Consumes(e)
    ensures AcceptedBytes(log + [e]) == AcceptedBytes(log) + if e.Accepted? then e.bytes else []
  {
    assert (log + [e])[..|log|] == log;
  }

  lemma ConsumedOne(e: Entry)
    ensures Consumed([e]) == Consumes(e)
  {
    assert [e][..0] == [];
  }

  /** What leaves the queue in a pass is what the log says, and the rest stays in order. */
  ghost predicate Conserves(before: seq<Bytes>, after: seq<Bytes>, entries: seq<Entry>) {
    Flat(before) == Consumed(entries) + Flat(after)
  }

  /** The pass uses up the offered room or the front buffer, or its write fails. */
  predicate FillsOrUsesUp(size: nat, frameSize: nat, r: Response)
    requires frameSize > 0
  {
    var frames := FramesToWrite(size, r.room, frameSize);
    WriteFails(frames, r) || frames == r.room || frames * frameSize == size
  }

  /** Exactly when a pass with room keeps all bytes: the 32-bit size of the offered room is the
      size written, or the buffer is used up, or nothing is written and the resize is rejected. */
  predicate KeepsBytes(size: nat, frameSize: nat, r: Response)
    requires frameSize > 0
  {
    var frames := FramesToWrite(size, r.room, frameSize);
    || WriteFails(frames, r)
    || ByteCount(r.room, frameSize) == frames * frameSize
    || frames * frameSize == size
    || (frames == 0 && ByteCount(r.room, frameSize) > size)
  }

  lemma FillingKeepsBytes(size: nat, frameSize: nat, r: Response)
    requires frameSize > 0 && size < U32
    requires FillsOrUsesUp(size, frameSize, r)
    ensures KeepsBytes(size, frameSize, r)
  {
    FramesFit(size, r.room, frameSize);
  }

  /** The resized front holds exactly the bytes not written, in the exact cases. */
  lemma ResizeExactly(front: Bytes, offset: nat, roomBytes: nat)
    requires offset < |front| < U32 && roomBytes < U32
    ensures var kept := Resize(front, offset, (|front| - roomBytes) % U32);
            kept == front[offset..] <==> roomBytes == offset || (offset == 0 && roomBytes > |front|)
  {
    var leftover := (|front| - roomBytes) % U32;
    if roomBytes <= |front| {
      assert leftover == |front| - roomBytes;
    } else {
      assert leftover == |front| - roomBytes + U32;
    }
  }

  lemma CutExactly(front: Bytes, offset: nat, kept: Bytes, tail: Bytes)
    requires offset <= |front|
    ensures front + tail == front[..offset] + (kept + tail) <==> kept == front[offset..]
  {
    if kept == front[offset..] {
      assert front == front[..offset] + kept;
    }
    if front + tail == front[..offset] + (kept + tail) {
      assert |kept| == |front| - offset;
      assert forall i | 0 <= i < |kept| :: kept[i] == (front + tail)[offset + i];
      assert kept == front[offset..];
    }
  }

  lemma ConsumedByWrite(front: Bytes, offset: nat, frames: nat, room: nat, frameSize: nat)
    requires offset == frames * frameSize <= |front|
    ensures Consumed(if frames > 0 then [Wrote(front[..offset], frames, room, frameSize)] else []) == front[..offset]
  {
    if frames > 0 {
      ConsumedOne(Wrote(front[..offset], frames, room, frameSize));
    }
  }

  lemma KeepLeftoverExactly(buffers: seq<Bytes>, offset: nat, leftover: nat, frameSize: nat)
    requires buffers != [] && frameSize > 0 && offset <= |buffers[0]|
    ensures Flat(buffers) == buffers[0][..offset] + Flat(KeepLeftover(buffers, offset, leftover, frameSize))
            <==> Resize(buffers[0], offset, leftover) == buffers[0][offset..]
  {
    LeftoverKeepsBytes(buffers, offset, leftover, frameSize);
    CutExactly(buffers[0], offset, Resize(buffers[0], offset, leftover), Flat(buffers[1..]));
  }

  /** The pass that leaves something of the front buffer, with `offset` bytes written. */
  lemma LeftoverPass(buffers: seq<Bytes>, frameSize: nat, r: Response, frames: nat, offset: nat)
    requires buffers != [] && frameSize > 0 && |buffers[0]| < U32
    requires frames == FramesToWrite(|buffers[0]|, r.room, frameSize) && !WriteFails(frames, r)
    requires offset == frames * frameSize < |buffers[0]|
    ensures WritePass(buffers, frameSize, r) ==
            (KeepLeftover(buffers, offset, Leftover(|buffers[0]|, r.room, frameSize), frameSize),
             if frames > 0 then [Wrote(buffers[0][..offset], frames, r.room, frameSize)] else [])
  {
    FramesFit(|buffers[0]|, r.room, frameSize);
  }

  /** The exact cases, for a write that leaves something of the front buffer. */
  lemma KeepsBytesHere(size: nat, frameSize: nat, r: Response, frames: nat, offset: nat)
    requires frameSize > 0 && frames == FramesToWrite(size, r.room, frameSize) && !WriteFails(frames, r)
    requires offset == frames * frameSize < size
    ensures var roomBytes := ByteCount(r.room, frameSize);
            KeepsBytes(size, frameSize, r) <==> roomBytes == offset || (offset == 0 && roomBytes > size)
  {
    ZeroFrames(frames, frameSize);
  }

  lemma WriteWithLeftoverExactly(buffers: seq<Bytes>, frameSize: nat, r: Response)
    requires buffers != [] && frameSize > 0 && |buffers[0]| < U32 && r.room > 0
    requires var frames := FramesToWrite(|buffers[0]|, r.room, frameSize);
             !WriteFails(frames, r) && frames * frameSize < |buffers[0]|
    ensures var (after, entries) := WritePass(buffers, frameSize, r);
            Conserves(buffers, after, entries) <==> KeepsBytes(|buffers[0]|, frameSize, r)
  {
    var front := buffers[0];
    var frames := FramesToWrite(|front|, r.room, frameSize);
    var offset := frames * frameSize;
    var roomBytes := ByteCount(r.room, frameSize);
    LeftoverPass(buffers, frameSize, r, frames, offset);
    ConsumedByWrite(front, offset, frames, r.room, frameSize);
    KeptExactly(buffers, frameSize, offset, roomBytes, Leftover(|front|, r.room, frameSize));
    KeepsBytesHere(|front|, frameSize, r, frames, offset);
  }

  lemma KeptExactly(buffers: seq<Bytes>, frameSize: nat, offset: nat, roomBytes: nat, leftover: nat)
    requires buffers != [] && frameSize > 0 && offset < |buffers[0]| < U32 && roomBytes < U32
    requires leftover == (|buffers[0]| - roomBytes) % U32
    ensures Flat(buffers) == buffers[0][..offset] + Flat(KeepLeftover(buffers, offset, leftover, frameSize)) <==>
            roomBytes == offset || (offset == 0 && roomBytes > |buffers[0]|)
  {
    ResizeExactly(buffers[0], offset, roomBytes);
    KeepLeftoverExactly(buffers, offset, leftover, frameSize);
  }

  lemma ZeroFrames(frames: nat, frameSize: nat)
    requires frameSize > 0
    ensures frames == 0 <==> frames * frameSize == 0
  {
    MulMonotone(1, frameSize, frames);
  }

  /** In every state, a pass that is offered room keeps every byte exactly in the cases named
      by KeepsBytes; all writes that fill the room or use up the buffer are among them. */
  lemma PassConservesExactly(buffers: seq<Bytes>, frameSize: nat, r: Response)
    requires buffers != [] && frameSize > 0 && |buffers[0]| < U32 && r.room > 0
    ensures var (after, entries) := WritePass(buffers, frameSize, r);
            Conserves(buffers, after, entries) <==> KeepsBytes(|buffers[0]|, frameSize, r)
  {
    var front := buffers[0];
    var frames := FramesToWrite(|front|, r.room, frameSize);
    FramesFit(|front|, r.room, frameSize);
    if WriteFails(frames, r) {
      ConsumedOne(Dropped(front));
    } else if frames * frameSize < |front| {
      WriteWithLeftoverExactly(buffers, frameSize, r);
    } else if frames > 0 {
      assert front[..frames * frameSize] == front;
      ConsumedOne(Wrote(front, frames, r.room, frameSize));
    }
  }

  /** A buffer of one and a quarter frames offered room for two: the whole frame is written
      and the buffer keeps all five bytes, so a frame is played twice. */
  lemma PartialFrameIsWrittenTwice(buffer: Bytes)
    requires |buffer| == 5
    ensures var (after, entries) := WritePass([buffer], 4, Response(true, 2, true, true));
            after == [buffer] && entries == [Wrote(buffer[..4], 1, 2, 4)]
            && !Conserves([buffer], after, entries)
  {
    PassConservesExactly([buffer], 4, Response(true, 2, true, true));
    FramesFit(5, 2, 4);
    assert [buffer][1..] == [];
  }

  // ----- What a filling pass leaves queued -----

  lemma RoomBelowWhole(size: nat, room: nat, frameSize: nat)
    requires frameSize > 0 && room * frameSize < size
    ensures room <= size / frameSize
  {
    var whole := size / frameSize;
    QuotientFits(size, frameSize);
    assert (whole + 1) * frameSize == whole * frameSize + frameSize;
    if whole < room {
      MulMonotone(whole + 1, room, frameSize);
    }
  }

  lemma BelowFrame(left: nat, frameSize: nat)
    requires frameSize > 0
    ensures left / frameSize == 0 <==> left < frameSize
  {
    if left >= frameSize {
      QuotientPositive(left, frameSize);
    }
  }

  /** A write that fills the room and leaves something of the front buffer. */
  lemma FillingLeftover(size: nat, room: nat, frameSize: nat)
    requires frameSize > 0 && room > 0 && room * frameSize < size < U32
    ensures FramesToWrite(size, room, frameSize) == room
    ensures ByteCount(room, frameSize) == room * frameSize
    ensures Leftover(size, room, frameSize) == size - room * frameSize
    ensures Leftover(size, room, frameSize) / frameSize == 0 <==> size < room * frameSize + frameSize
  {
    FramesFit(size, room, frameSize);
    RoomBelowWhole(size, room, frameSize);
    BelowFrame(size - room * frameSize, frameSize);
  }

  lemma NextFrame(room: nat, frameSize: nat)
    ensures (room + 1) * frameSize == room * frameSize + frameSize
  {
  }

  lemma ResizeToRest(front: Bytes, offset: nat)
    requires offset <= |front|
    ensures Resize(front, offset, |front| - offset) == front[offset..]
  {
  }

  /** What a leftover of the front buffer becomes: it stays in front, joined with the next
      buffer if it is below a frame and there is one. */
  function RestInFront(buffers: seq<Bytes>, offset: nat, frameSize: nat): seq<Bytes>
    requires buffers != [] && offset <= |buffers[0]|
  {
    var rest := buffers[0][offset..];
    if |rest| < frameSize && |buffers| > 1 then [rest + buffers[1]] + buffers[2..] else [rest] + buffers[1..]
  }

  lemma LeftoverInFront(buffers: seq<Bytes>, room: nat, frameSize: nat)
    requires buffers != [] && frameSize > 0 && room > 0 && room * frameSize < |buffers[0]| < U32
    ensures KeepLeftover(buffers, ByteCount(room, frameSize), Leftover(|buffers[0]|, room, frameSize), frameSize) ==
            RestInFront(buffers, room * frameSize, frameSize)
  {
    FillingLeftover(|buffers[0]|, room, frameSize);
    ResizeToRest(buffers[0], room * frameSize);
  }

  /** What is queued after a successful write of the whole room: the rest of the front buffer
      is in front, joined with the next buffer if it is below a frame and there is one. */
  lemma FillingPassLeaves(buffers: seq<Bytes>, frameSize: nat, r: Response)
    requires buffers != [] && frameSize > 0 && r.room > 0 && r.mapped && r.written
    requires r.room * frameSize < |buffers[0]| < U32
    ensures var rest := buffers[0][r.room * frameSize..];
            WritePass(buffers, frameSize, r).0 ==
            if |buffers[0]| < (r.room + 1) * frameSize && |buffers| > 1 then [rest + buffers[1]] + buffers[2..]
            else [rest] + buffers[1..]
  {
    FillingLeftover(|buffers[0]|, r.room, frameSize);
    LeftoverInFront(buffers, r.room, frameSize);
    NextFrame(r.room, frameSize);
  }

  /** A pass with room wakes the streaming thread exactly if it makes the queue shorter. */
  lemma NotifiesExactly(buffers: seq<Bytes>, frameSize: nat, r: Response)
    requires buffers != [] && frameSize > 0
    ensures |WritePass(buffers, frameSize, r).0| == |buffers| - if Notifies(buffers, frameSize, r) then 1 else 0
  {
  }

  /** A pass with room for it writes as many whole frames from the front of the buffer as fit
      both, if the server takes them, and otherwise drops the whole buffer. */
  lemma PassWritesAllItCan(buffers: seq<Bytes>, frameSize: nat, r: Response)
    requires buffers != [] && frameSize > 0 && r.room > 0 && frameSize <= |buffers[0]| < U32
    ensures var frames := Min(r.room, |buffers[0]| / frameSize);
            && 0 < frames && frames * frameSize <= |buffers[0]|
            && WritePass(buffers, frameSize, r).1 ==
               if r.mapped && r.written then [Wrote(buffers[0][..frames * frameSize], frames, r.room, frameSize)]
               else [Dropped(buffers[0])]
  {
    FramesFit(|buffers[0]|, r.room, frameSize);
    QuotientPositive(|buffers[0]|, frameSize);
  }

  // ----- Termination of the push loop -----

  /** The pair (queued bytes, queued buffers) goes down. */
  predicate Shrinks(before: seq<Bytes>, after: seq<Bytes>) {
    |Flat(after)| < |Flat(before)| || (|Flat(after)| == |Flat(before)| && |after| < |before|)
  }

  /** A pass with room that fills it or uses up the front buffer makes progress. */
  lemma FillingPassShrinks(buffers: seq<Bytes>, frameSize: nat, r: Response)
    requires buffers != [] && frameSize > 0 && |buffers[0]| < U32 && r.room > 0
    requires FillsOrUsesUp(|buffers[0]|, frameSize, r)
    ensures Shrinks(buffers, WritePass(buffers, frameSize, r).0)
  {
    var front := buffers[0];
    var frames := FramesToWrite(|front|, r.room, frameSize);
    FramesFit(|front|, r.room, frameSize);
    if !WriteFails(frames, r) && frames * frameSize < |front| {
      var offset := frames * frameSize;
      MulMonotone(1, frames, frameSize);
      ResizeExactly(front, offset, offset);
      LeftoverKeepsBytes(buffers, offset, Leftover(|front|, r.room, frameSize), frameSize);
    }
  }

  lemma StuckArithmetic(size: nat, room: nat, frameSize: nat)
    requires frameSize > 0 && size < U32 && (room + 1) * frameSize <= U32
    requires size / frameSize < room
    ensures var leftover := Leftover(size, room, frameSize);
            leftover > size && leftover >= frameSize && leftover / frameSize != 0
  {
    var whole := size / frameSize;
    QuotientFits(size, frameSize);
    MulMonotone(whole + 1, room, frameSize);
    assert (whole + 1) * frameSize == whole * frameSize + frameSize;
    assert (room + 1) * frameSize == room * frameSize + frameSize;
    var leftover := Leftover(size, room, frameSize);
    assert leftover == size - room * frameSize + U32;
    QuotientPositive(leftover, frameSize);
  }

  lemma QuotientPositive(n: nat, d: nat)
    requires 0 < d <= n
    ensures n / d != 0
  {
    QuotientFits(n, d);
  }

  /** Otherwise, and while the offered room is not within a frame of the 32-bit limit, the pass
      leaves the queue as it is: the loop goes on only as long as the server offers room. */
  lemma OtherPassIsStuck(buffers: seq<Bytes>, frameSize: nat, r: Response)
    requires buffers != [] && frameSize > 0 && |buffers[0]| < U32 && r.room > 0
    requires (r.room + 1) * frameSize <= U32
    requires !FillsOrUsesUp(|buffers[0]|, frameSize, r)
    ensures WritePass(buffers, frameSize, r).0 == buffers
  {
    var front := buffers[0];
    FramesFit(|front|, r.room, frameSize);
    StuckArithmetic(|front|, r.room, frameSize);
    assert buffers == [front] + buffers[1..];
  }

  /** With room clear of the 32-bit limit, a pass makes progress exactly when it fills the room
      or uses up the front buffer. */
  lemma ProgressExactly(buffers: seq<Bytes>, frameSize: nat, r: Response)
    requires buffers != [] && frameSize > 0 && |buffers[0]| < U32 && r.room > 0
    requires (r.room + 1) * frameSize <= U32
    ensures Shrinks(buffers, WritePass(buffers, frameSize, r).0) <==> FillsOrUsesUp(|buffers[0]|, frameSize, r)
  {
    if FillsOrUsesUp(|buffers[0]|, frameSize, r) {
      FillingPassShrinks(buffers, frameSize, r);
    } else {
      OtherPassIsStuck(buffers, frameSize, r);
    }
  }
}
