/** The resumable build-log stream: catch-up, follow and terminal catch-up over one growing file.

    The deploy worker appends to the file while it is read, so the file is its content at each access:
    any growth may happen between two accesses. A write to the client may fail at any time. */
module LogStream {
  import opened Tables

  newtype Byte = x: int | 0 <= x < 256

  const MAX_JSON_CHUNK := 48 * 1024
  const FOLLOW_BUFFER := 8192

  datatype EndReason = CatchUpError | StreamError | DeploymentTerminal

  /** What the client receives. `end` is the offset in the file just after the chunk. */
  datatype Frame =
    | Hello(eof: nat, cursor: nat)
    | Resync(eof: nat)
    | Rotated
    | Chunk(end: int, data: seq<Byte>)
    | End(reason: EndReason, at: Option<nat>)

  class LogFile {
    const snapshots: nat -> seq<Byte>
    const readable: nat -> bool
    var accesses: nat

    ghost predicate AppendOnly() {
      forall i: nat, j: nat | i <= j :: snapshots(i) <= snapshots(j)
    }

    ghost predicate Healthy() { forall i :: readable(i) }

    function Content(): seq<Byte>
      reads this
    {
      snapshots(accesses)
    }

    constructor (snapshots: nat -> seq<Byte>, readable: nat -> bool)
      ensures this.snapshots == snapshots && this.readable == readable && accesses == 0
    {
      this.snapshots, this.readable, accesses := snapshots, readable, 0;
    }

    method Stat() returns (size: nat)
      modifies this
      ensures accesses == old(accesses) + 1 && size == |Content()|
    {
      accesses := accesses + 1;
      size := |Content()|;
    }

    /** At most `max` bytes from offset `off`, fewer only at the end of the file. */
    method ReadAt(max: nat, off: nat) returns (ok: bool, data: seq<Byte>)
      modifies this
      ensures accesses == old(accesses) + 1 && ok == readable(accesses)
      ensures |data| <= max
      ensures data != [] ==> off + |data| <= |Content()| && data == Content()[off..off + |data|]
      ensures ok && off < |Content()| && max > 0 ==> data != []
    {
      accesses := accesses + 1;
      ok := readable(accesses);
      data := [];
      var content := Content();
      if ok && off < |content| {
        data := content[off..if off + max < |content| then off + max else |content|];
      }
    }
  }

  class Sink {
    const accepts: nat -> bool
    var calls: nat
    var frames: seq<Frame>

    constructor (accepts: nat -> bool)
      ensures this.accepts == accepts && calls == 0 && frames == []
    {
      this.accepts, calls, frames := accepts, 0, [];
    }

    ghost predicate Healthy() { forall i :: accepts(i) }

    method WriteJSON(frame: Frame) returns (ok: bool)
      modifies this
      ensures ok == accepts(old(calls)) && calls == old(calls) + 1
      ensures frames == if ok then old(frames) + [frame] else old(frames)
    {
      ok := accepts(calls);
      calls := calls + 1;
      if ok { frames := frames + [frame]; }
    }
  }

  // ----- what the client ends up with -------------------------------------

  /** The bytes of all chunks, in the order they arrive. */
  function Sent(frames: seq<Frame>): seq<Byte> {
    if frames == [] then []
    else
      var last := frames[|frames| - 1];
      Sent(frames[..|frames| - 1]) + if last.Chunk? then last.data else []
  }

  /** The chunks tile the file from `from` up to `to`: each is non-empty, at most 48 KiB, starts where the
      one before it ended, and carries its own absolute end offset. */
  ghost predicate Tiles(frames: seq<Frame>, from: int, to: int, content: seq<Byte>) {
    if frames == [] then from == to
    else
      var last := frames[|frames| - 1];
      if last.Chunk? then
        && last.end == to && 0 < |last.data| <= 48 * 1024
        && Backed(content, last.data, to)
        && Tiles(frames[..|frames| - 1], from, to - |last.data|, content)
      else Tiles(frames[..|frames| - 1], from, to, content)
  }

  /** `data` is what the file holds just before `end`. */
  ghost predicate Backed(content: seq<Byte>, data: seq<Byte>, end: int) {
    0 <= end - |data| && end <= |content| && content[end - |data|..end] == data
  }

  lemma {:induction false} TilesGrow(frames: seq<Frame>, from: int, to: int, content: seq<Byte>, content': seq<Byte>)
    requires Tiles(frames, from, to, content) && content <= content'
    ensures Tiles(frames, from, to, content')
  {
    if frames != [] {
      var last := frames[|frames| - 1];
      if last.Chunk? { assert content'[to - |last.data|..to] == content[to - |last.data|..to]; }
      TilesGrow(frames[..|frames| - 1], from, if last.Chunk? then to - |last.data| else to, content, content');
    }
  }

  lemma TilesAppend(frames: seq<Frame>, frame: Frame, from: int, to: int, content: seq<Byte>)
    requires Tiles(frames, from, to, content)
    ensures !frame.Chunk? ==> Tiles(frames + [frame], from, to, content)
    ensures frame.Chunk? && 0 < |frame.data| <= MAX_JSON_CHUNK && frame.end == to + |frame.data|
        && Backed(content, frame.data, frame.end)
      ==> Tiles(frames + [frame], from, frame.end, content)
  {
    assert (frames + [frame])[..|frames|] == frames;
  }

  /** Tiling means exactly the bytes of the range were sent. */
  lemma {:induction false} TiledBytes(frames: seq<Frame>, from: int, to: int, content: seq<Byte>)
    requires Tiles(frames, from, to, content) && 0 <= from <= |content|
    ensures from <= to <= |content| && Sent(frames) == content[from..to]
  {
    if frames != [] {
      var last := frames[|frames| - 1];
      if last.Chunk? {
        TiledBytes(frames[..|frames| - 1], from, to - |last.data|, content);
        assert content[from..to] == content[from..to - |last.data|] + content[to - |last.data|..to];
      } else {
        TiledBytes(frames[..|frames| - 1], from, to, content);
      }
    }
  }

  /** What was received up to and including any chunk tiles the file up to that chunk's `end`. */
  lemma {:induction false} TiledUpTo(frames: seq<Frame>, from: int, to: int, content: seq<Byte>, k: nat)
    requires Tiles(frames, from, to, content) && k < |frames| && frames[k].Chunk?
    ensures Tiles(frames[..k + 1], from, frames[k].end, content)
  {
    if k + 1 == |frames| {
      assert frames[..k + 1] == frames;
    } else {
      var last := frames[|frames| - 1];
      TiledUpTo(frames[..|frames| - 1], from, if last.Chunk? then to - |last.data| else to, content, k);
      assert frames[..|frames| - 1][..k + 1] == frames[..k + 1];
    }
  }

  /** A client that reconnects with the `end` of any chunk it received misses no byte and gets none twice. */
  lemma ResumeIsSeamless(frames: seq<Frame>, from: nat, to: int, content: seq<Byte>, k: nat,
                         resumed: seq<Frame>, to': int, content': seq<Byte>)
    requires Tiles(frames, from, to, content) && from <= |content| && content <= content'
    requires k < |frames| && frames[k].Chunk?
    requires Tiles(resumed, frames[k].end, to', content')
    ensures from <= to' <= |content'| && Sent(frames[..k + 1]) + Sent(resumed) == content'[from..to']
  {
    TiledUpTo(frames, from, to, content, k);
    TilesGrow(frames[..k + 1], from, frames[k].end, content, content');
    TiledBytes(frames[..k + 1], from, frames[k].end, content');
    TiledBytes(resumed, frames[k].end, to', content');
    assert content'[from..to'] == content'[from..frames[k].end] + content'[frames[k].end..to'];
  }

  // ----- the stream -------------------------------------------------------

  /** Splits `data`, which ends at `endOffset` in the file, into chunks of at most 48 KiB. `upto` is how far it got. */
  method EmitChunks(sink: Sink, data: seq<Byte>, endOffset: int, ghost from: int, ghost content: seq<Byte>)
    returns (ok: bool, ghost upto: int)
    modifies sink
    ensures endOffset - |data| <= upto <= endOffset && (ok ==> upto == endOffset)
    ensures !ok && |data| <= MAX_JSON_CHUNK ==> upto == endOffset - |data|
    ensures old(sink.frames) <= sink.frames
    ensures sink.Healthy() ==> ok
    ensures Backed(content, data, endOffset) && Tiles(old(sink.frames), from, endOffset - |data|, content)
      ==> Tiles(sink.frames, from, upto, content)
  {
    var remaining, baseEnd := data, endOffset - |data|;
    ghost var good := Backed(content, data, endOffset) && Tiles(sink.frames, from, endOffset - |data|, content);
    while |remaining| > 0
      invariant old(sink.frames) <= sink.frames
      invariant |remaining| <= |data| && remaining == data[|data| - |remaining|..]
      invariant baseEnd == endOffset - |remaining|
      invariant |data| <= MAX_JSON_CHUNK ==> remaining == data || remaining == []
      invariant good ==> Tiles(sink.frames, from, baseEnd, content)
    {
      var n := if |remaining| > MAX_JSON_CHUNK then MAX_JSON_CHUNK else |remaining|;
      var chunk := remaining[..n];
      remaining := remaining[n..];
      var partEnd := baseEnd + |chunk|;
      if good {
        assert chunk == content[baseEnd..partEnd];
        TilesAppend(sink.frames, Chunk(partEnd, chunk), from, baseEnd, content);
      }
      var accepted := sink.WriteJSON(Chunk(partEnd, chunk));
      if !accepted { return false, baseEnd; }
      baseEnd := partEnd;
    }
    return true, baseEnd;
  }

  lemma ContentGrows(file: LogFile, i: nat, j: nat)
    requires i <= j
    ensures file.AppendOnly() ==> file.snapshots(i) <= file.snapshots(j)
  {}

  /** Reads [start, end) and emits it. */
  method EmitCatchUp(file: LogFile, sink: Sink, start: nat, end: nat, ghost from: int)
    returns (ok: bool, ghost upto: int)
    modifies file, sink
    ensures file.accesses >= old(file.accesses) && old(sink.frames) <= sink.frames
    ensures file.Healthy() && sink.Healthy() ==> ok
    ensures file.AppendOnly() && start <= end <= |old(file.Content())|
        && Tiles(old(sink.frames), from, start, old(file.Content()))
      ==> Tiles(sink.frames, from, upto, file.Content()) && (ok ==> upto == end)
  {
    if start >= end { return true, start; }
    ghost var good := file.AppendOnly() && end <= |file.Content()| && Tiles(sink.frames, from, start, file.Content());
    var off := start;
    while off < end
      invariant start <= off <= end && file.accesses >= old(file.accesses) && old(sink.frames) <= sink.frames
      invariant good ==> end <= |file.Content()| && Tiles(sink.frames, from, off, file.Content())
    {
      var toRead := if end - off < MAX_JSON_CHUNK then end - off else MAX_JSON_CHUNK;
      ghost var before := file.accesses;
      var readOk, chunk := file.ReadAt(toRead, off);
      if good {
        ContentGrows(file, before, file.accesses);
        TilesGrow(sink.frames, from, off, file.snapshots(before), file.Content());
      }
      if !readOk { return false, off; }
      if |chunk| == 0 { break; }
      off := off + |chunk|;
      ok, upto := EmitChunks(sink, chunk, off, from, file.Content());
      if !ok { return; }
    }
    return true, off;
  }

  ghost predicate InStep(file: LogFile, sink: Sink, from: int, offset: nat)
    reads file, sink
  {
    file.AppendOnly() && offset <= |file.Content()| && Tiles(sink.frames, from, offset, file.Content())
  }

  /** The current size. A file shorter than what was already read was truncated: reading restarts at 0. */
  method StatForFollow(file: LogFile, sink: Sink, offset: nat, ghost from: int) returns (size: nat, next: nat)
    modifies file, sink
    ensures old(sink.frames) <= sink.frames
    ensures file.accesses >= old(file.accesses) && size == |file.Content()| && next <= size
    ensures old(InStep(file, sink, from, offset)) ==> next == offset && InStep(file, sink, from, offset)
  {
    ghost var seen := file.accesses;
    size := file.Stat();
    next := offset;
    if old(InStep(file, sink, from, offset)) {
      ContentGrows(file, seen, file.accesses);
      TilesGrow(sink.frames, from, offset, file.snapshots(seen), file.Content());
    }
    if size < offset {
      next := 0;
      var _ := sink.WriteJSON(Rotated);
    }
  }

  /** One poll: reads up to the size just seen, handing over each piece before it reads the next. */
  method Poll(file: LogFile, sink: Sink, offset: nat, size: nat, ghost from: int) returns (ok: bool, sent: nat)
    modifies file, sink
    ensures file.accesses >= old(file.accesses) && old(sink.frames) <= sink.frames
    ensures file.Healthy() && sink.Healthy() ==> ok
    ensures old(InStep(file, sink, from, offset)) ==> InStep(file, sink, from, sent)
    ensures old(InStep(file, sink, from, offset)) && offset <= size <= |old(file.Content())| ==>
      ok && file.Healthy() ==> sent == size
  {
    hide Tiles;
    sent := offset;
    while sent < size
      invariant file.accesses >= old(file.accesses) && old(sink.frames) <= sink.frames
      invariant sent <= size || sent == offset
      invariant old(InStep(file, sink, from, offset)) ==>
        InStep(file, sink, from, sent) && |old(file.Content())| <= |file.Content()|
    {
      var toRead := if size - sent < FOLLOW_BUFFER then size - sent else FOLLOW_BUFFER;
      ghost var seen := file.accesses;
      var readOk, data := file.ReadAt(toRead, sent);
      if old(InStep(file, sink, from, offset)) {
        ContentGrows(file, seen, file.accesses);
        TilesGrow(sink.frames, from, sent, file.snapshots(seen), file.Content());
      }
      if !readOk { return false, sent; }
      if |data| == 0 { break; }
      var emitted; ghost var upto;
      emitted, upto := EmitChunks(sink, data, sent + |data|, from, file.Content());
      if !emitted { return false, sent; }
      sent := sent + |data|;
    }
    ok := true;
  }

  /** Polls the file `ticks` times; undisturbed, each poll catches up with the file. `sent` is the offset just after
      the last piece handed over: a piece
      is smaller than a chunk, so it is exact even when the write of a piece fails. */
  method FollowFileFromOffset(file: LogFile, sink: Sink, initial: nat, ticks: nat, ghost from: int)
    returns (ok: bool, sent: nat)
    modifies file, sink
    ensures file.accesses >= old(file.accesses) && old(sink.frames) <= sink.frames
    ensures file.Healthy() && sink.Healthy() ==> ok
    ensures old(InStep(file, sink, from, initial)) ==> InStep(file, sink, from, sent)
    ensures old(InStep(file, sink, from, initial)) && file.Healthy() && sink.Healthy() && ticks > 0 ==>
      sent >= |old(file.Content())|
  {
    hide Tiles;
    var size;
    size, sent := StatForFollow(file, sink, initial, from);
    for tick := 0 to ticks
      invariant file.accesses >= old(file.accesses) && old(sink.frames) <= sink.frames
      invariant old(InStep(file, sink, from, initial)) ==> InStep(file, sink, from, sent)
      invariant old(InStep(file, sink, from, initial)) && file.Healthy() && sink.Healthy() && tick > 0 ==>
        sent >= |old(file.Content())|
    {
      size, sent := StatForFollow(file, sink, sent, from);
      if old(InStep(file, sink, from, initial)) { ContentGrows(file, old(file.accesses), file.accesses); }
      ok, sent := Poll(file, sink, sent, size, from);
      if !ok { return; }
    }
    ok := true;
  }

  lemma NothingSent(from: int, content: seq<Byte>)
    ensures Tiles([], from, from, content)
  {}

  /** What a client sees first: its cursor confirmed, or a resync to the start if it lies past the end. */
  ghost function Greeting(snapshots: nat -> seq<Byte>, accesses: nat, resumeCursor: nat): seq<Frame> {
    var eof := |snapshots(accesses + 1)|;
    if resumeCursor <= eof then [Hello(eof, resumeCursor)]
    else [Resync(eof), Hello(|snapshots(accesses + 2)|, 0)]
  }

  /** Hello, after a resync if the client's cursor lies past the end, and everything up to the size then seen. */
  method OpenStream(file: LogFile, sink: Sink, resumeCursor: nat)
    returns (ok: bool, cursor: nat, ghost start: nat, ghost upto: int)
    requires sink.frames == []
    modifies file, sink
    ensures file.accesses >= old(file.accesses)
    ensures sink.Healthy() ==> Greeting(file.snapshots, old(file.accesses), resumeCursor) <= sink.frames
    ensures file.Healthy() && sink.Healthy() ==> ok
    ensures start == if resumeCursor <= |file.snapshots(old(file.accesses) + 1)| then resumeCursor else 0
    ensures file.AppendOnly() ==>
      start <= cursor <= |file.Content()| && Tiles(sink.frames, start, upto, file.Content()) && (ok ==> upto == cursor)
  {
    hide Tiles;
    var eof := file.Stat();
    cursor := resumeCursor;
    NothingSent(resumeCursor, file.Content());
    if cursor > eof {
      ghost var resync := Resync(eof);
      var _ := sink.WriteJSON(Resync(eof));
      cursor := 0;
      eof := file.Stat();
      NothingSent(0, file.Content());
      TilesAppend([], resync, 0, 0, file.Content());
    }
    start, upto := cursor, cursor;
    TilesAppend(sink.frames, Hello(eof, cursor), start, cursor, file.Content());
    var _ := sink.WriteJSON(Hello(eof, cursor));
    ok := true;
    if cursor < eof {
      ghost var seen := file.accesses;
      ok, upto := EmitCatchUp(file, sink, cursor, eof, start);
      ContentGrows(file, seen, file.accesses);
      if ok { cursor := eof; }
    }
  }

  /** The deployment is terminal: the rest of the file, and the end frame that names its size. */
  method FinishStream(file: LogFile, sink: Sink, currentOffset: nat, ghost start: nat)
    returns (complete: bool, finalEOF: nat, ghost upto: int)
    modifies file, sink
    ensures file.accesses >= old(file.accesses) && old(sink.frames) <= sink.frames
    ensures sink.Healthy() ==>
      var last := if complete then End(DeploymentTerminal, Some(finalEOF)) else End(CatchUpError, Some(currentOffset));
      sink.frames != [] && sink.frames[|sink.frames| - 1] == last
    ensures file.Healthy() && sink.Healthy() ==> complete
    ensures file.AppendOnly() && currentOffset <= |old(file.Content())|
        && Tiles(old(sink.frames), start, currentOffset, old(file.Content()))
      ==> Tiles(sink.frames, start, upto, file.Content()) && (complete ==> upto == finalEOF)
    ensures finalEOF == |file.snapshots(old(file.accesses) + 1)|
  {
    hide Tiles;
    ghost var good := file.AppendOnly() && currentOffset <= |file.Content()|
        && Tiles(sink.frames, start, currentOffset, file.Content());
    ghost var seen := file.accesses;
    finalEOF := file.Stat();
    complete, upto := true, currentOffset;
    if good {
      ContentGrows(file, seen, file.accesses);
      TilesGrow(sink.frames, start, currentOffset, file.snapshots(seen), file.Content());
    }
    if currentOffset < finalEOF {
      complete, upto := EmitCatchUp(file, sink, currentOffset, finalEOF, start);
    }
    var last := if complete then End(DeploymentTerminal, Some(finalEOF)) else End(CatchUpError, Some(currentOffset));
    if good { TilesAppend(sink.frames, last, start, upto, file.Content()); }
    var _ := sink.WriteJSON(last);
  }

  ghost predicate EndsWithReason(frames: seq<Frame>, complete: bool, finalEOF: nat) {
    && frames != []
    && var last := frames[|frames| - 1];
       if complete then last == End(DeploymentTerminal, Some(finalEOF))
       else last.End? && last.reason in {CatchUpError, StreamError}
  }

  /** From the end of the catch-up on. The deployment turns terminal after `ticks` polls; if the follower failed by
      then, either event may be seen first. */
  method FollowToEnd(file: LogFile, sink: Sink, cursor: nat, ticks: nat, terminalSeenFirst: bool, ghost start: nat)
    returns (complete: bool, finalEOF: nat, ghost upto: int)
    modifies file, sink
    ensures file.accesses >= old(file.accesses) && old(sink.frames) <= sink.frames
    ensures old(InStep(file, sink, start, cursor)) ==>
      Tiles(sink.frames, start, upto, file.Content()) && (complete ==> upto == finalEOF)
    ensures file.Healthy() && sink.Healthy() ==> complete
    ensures sink.Healthy() ==> EndsWithReason(sink.frames, complete, finalEOF)
  {
    hide Tiles;
    finalEOF := 0;
    ghost var seen := file.accesses;
    var ok, currentOffset := FollowFileFromOffset(file, sink, cursor, ticks, start);
    ContentGrows(file, seen, file.accesses);
    upto := currentOffset;
    if !ok && !terminalSeenFirst {
      var last := End(StreamError, None);
      if file.AppendOnly() && Tiles(sink.frames, start, upto, file.Content()) {
        TilesAppend(sink.frames, last, start, upto, file.Content());
      }
      var _ := sink.WriteJSON(last);
      complete := false;
    } else {
      seen := file.accesses;
      complete, finalEOF, upto := FinishStream(file, sink, currentOffset, start);
      ContentGrows(file, seen, file.accesses);
    }
  }

  /** One connection. The client has received exactly the bytes from `start` to `upto`, and a complete stream
      reached the file's size as it was after the deployment turned terminal. A client that takes every frame is
      greeted first and told last how the stream ended. */
  method StreamBuildLog(file: LogFile, sink: Sink, resumeCursor: nat, ticks: nat, terminalSeenFirst: bool)
    returns (complete: bool, finalEOF: nat, ghost start: nat, ghost upto: int)
    requires sink.frames == []
    modifies file, sink
    ensures start == if resumeCursor <= |file.snapshots(old(file.accesses) + 1)| then resumeCursor else 0
    ensures file.AppendOnly() ==>
      && Tiles(sink.frames, start, upto, file.Content())
      && start <= upto <= |file.Content()| && Sent(sink.frames) == file.Content()[start..upto]
      && (complete ==> upto == finalEOF)
    ensures file.Healthy() && sink.Healthy() ==> complete
    ensures sink.Healthy() ==>
      Greeting(file.snapshots, old(file.accesses), resumeCursor) <= sink.frames
      && EndsWithReason(sink.frames, complete, finalEOF)
  {
    hide Tiles, Sent, Greeting, EndsWithReason;
    var ok, cursor;
    finalEOF := 0;
    ok, cursor, start, upto := OpenStream(file, sink, resumeCursor);
    if !ok {
      complete := RefuseStream(file, sink, start, upto);
    } else {
      ghost var seen := file.accesses;
      complete, finalEOF, upto := FollowToEnd(file, sink, cursor, ticks, terminalSeenFirst, start);
      ContentGrows(file, seen, file.accesses);
    }
    if file.AppendOnly() { TiledBytes(sink.frames, start, upto, file.Content()); }
  }

  /** The catch-up failed: the client is told so. */
  method RefuseStream(file: LogFile, sink: Sink, ghost start: nat, ghost upto: int) returns (complete: bool)
    modifies sink
    ensures !complete && old(sink.frames) <= sink.frames
    ensures Tiles(old(sink.frames), start, upto, file.Content()) ==> Tiles(sink.frames, start, upto, file.Content())
    ensures sink.Healthy() ==> EndsWithReason(sink.frames, complete, 0)
  {
    hide Tiles;
    var last := End(CatchUpError, None);
    if Tiles(sink.frames, start, upto, file.Content()) {
      TilesAppend(sink.frames, last, start, upto, file.Content());
    }
    var _ := sink.WriteJSON(last);
    complete := false;
  }
}
