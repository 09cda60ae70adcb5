/** The frame layer of encrypted backups: a magic header, then length, nonce and ciphertext per chunk.

    The cipher is any pair of functions that undo each other; compression above the frames is not modelled. */
module BackupFrames {
  import opened Tables

  newtype Byte = x: int | 0 <= x < 256

  type Bytes = seq<Byte>

  const MAGIC: Bytes := [0x48, 0x46, 0x42, 0x4B, 0x31, 0x00]
  const LENGTH_BYTES := 4
  const MAX_UINT32 := 0xFFFF_FFFF

  datatype Aead = Aead(nonceSize: nat, overhead: nat, seal: (Bytes, Bytes) -> Bytes,
      open: (Bytes, Bytes) -> Option<Bytes>) {
    ghost predicate Valid() {
      && nonceSize > 0 && overhead > 0
      && forall nonce: Bytes, plain: Bytes ::
           |seal(nonce, plain)| == |plain| + overhead
           && (|nonce| == nonceSize ==> open(nonce, seal(nonce, plain)) == Some(plain))
    }
  }

  // ----- lengths ----------------------------------------------------------

  function PutUint32(n: nat): (b: Bytes)
    requires n <= MAX_UINT32
    ensures |b| == LENGTH_BYTES
  {
    [(n / 0x100_0000) as Byte, (n / 0x1_0000 % 0x100) as Byte, (n / 0x100 % 0x100) as Byte, (n % 0x100) as Byte]
  }

  function Uint32(b: Bytes): nat
    requires |b| == LENGTH_BYTES
  {
    b[0] as nat * 0x100_0000 + b[1] as nat * 0x1_0000 + b[2] as nat * 0x100 + b[3] as nat
  }

  lemma LengthRoundTrip(n: nat)
    requires n <= MAX_UINT32
    ensures Uint32(PutUint32(n)) == n
    ensures var b := PutUint32(n);
      n == ((b[0] as nat * 0x100 + b[1] as nat) * 0x100 + b[2] as nat) * 0x100 + b[3] as nat
  {
    assert n == (n / 0x100) * 0x100 + n % 0x100;
    assert n / 0x100 == (n / 0x1_0000) * 0x100 + n / 0x100 % 0x100;
    assert n / 0x1_0000 == (n / 0x100_0000) * 0x100 + n / 0x1_0000 % 0x100;
  }

  // ----- the format -------------------------------------------------------

  datatype Frame = Frame(nonce: Bytes, chunk: Bytes)

  predicate Encodable(aead: Aead, f: Frame) {
    |f.nonce| == aead.nonceSize && f.chunk != [] && |aead.seal(f.nonce, f.chunk)| <= MAX_UINT32
  }

  predicate AllEncodable(aead: Aead, frames: seq<Frame>) {
    forall k | 0 <= k < |frames| :: Encodable(aead, frames[k])
  }

  function FrameBytes(aead: Aead, f: Frame): Bytes
    requires Encodable(aead, f)
  {
    var ciphertext := aead.seal(f.nonce, f.chunk);
    PutUint32(|ciphertext|) + f.nonce + ciphertext
  }

  function Encode(aead: Aead, frames: seq<Frame>): Bytes
    requires AllEncodable(aead, frames)
  {
    if frames == [] then [] else FrameBytes(aead, frames[0]) + Encode(aead, frames[1..])
  }

  function ChunksOf(frames: seq<Frame>): (chunks: seq<Bytes>)
    ensures |chunks| == |frames|
  {
    if frames == [] then [] else [frames[0].chunk] + ChunksOf(frames[1..])
  }

  datatype Ending = Clean | Truncated | Corrupt
  datatype Decoded = Decoded(chunks: seq<Bytes>, ending: Ending)

  /** What the reader hands on, and how it ends. An end of input where a length, a nonce or a
      ciphertext would begin is passed on as a plain end of file. */
  function Decode(aead: Aead, source: Bytes): Decoded
    decreases |source|
  {
    if source == [] then Decoded([], Clean)
    else if |source| < LENGTH_BYTES then Decoded([], Truncated)
    else
      var length, rest := Uint32(source[..LENGTH_BYTES]), source[LENGTH_BYTES..];
      if |rest| < aead.nonceSize then Decoded([], if rest == [] then Clean else Truncated)
      else
        var nonce, body := rest[..aead.nonceSize], rest[aead.nonceSize..];
        if |body| < length then Decoded([], if body == [] then Clean else Truncated)
        else match aead.open(nonce, body[..length])
          case None => Decoded([], Corrupt)
          case Some(plain) =>
            var more := Decode(aead, body[length..]);
            Decoded([plain] + more.chunks, more.ending)
  }

  // ----- the theorems -----------------------------------------------------

  lemma {:induction false} EncodeAppend(aead: Aead, frames: seq<Frame>, f: Frame)
    requires AllEncodable(aead, frames) && Encodable(aead, f)
    ensures AllEncodable(aead, frames + [f]) && Encode(aead, frames + [f]) == Encode(aead, frames) + FrameBytes(aead, f)
  {
    if frames == [] {
      assert frames + [f] == [f];
    } else {
      EncodeAppend(aead, frames[1..], f);
      assert (frames + [f])[0] == frames[0] && (frames + [f])[1..] == frames[1..] + [f];
    }
  }

  /** Reading one whole frame yields its chunk and leaves the rest to be read the same way. */
  lemma DecodeFrame(aead: Aead, f: Frame, rest: Bytes)
    requires aead.Valid() && Encodable(aead, f)
    ensures Decode(aead, FrameBytes(aead, f) + rest)
         == Decoded([f.chunk] + Decode(aead, rest).chunks, Decode(aead, rest).ending)
  {
    var ciphertext := aead.seal(f.nonce, f.chunk);
    var source := FrameBytes(aead, f) + rest;
    LengthRoundTrip(|ciphertext|);
    assert source[..LENGTH_BYTES] == PutUint32(|ciphertext|);
    assert source[LENGTH_BYTES..] == f.nonce + ciphertext + rest;
    assert source[LENGTH_BYTES..][..aead.nonceSize] == f.nonce;
    assert source[LENGTH_BYTES..][aead.nonceSize..] == ciphertext + rest;
    assert (ciphertext + rest)[..|ciphertext|] == ciphertext && (ciphertext + rest)[|ciphertext|..] == rest;
  }

  /** Offsets inside a frame at which the reader cannot tell a cut from a proper end. */
  predicate Seam(aead: Aead, offset: nat) {
    offset == 0 || offset == LENGTH_BYTES || offset == LENGTH_BYTES + aead.nonceSize
  }

  lemma DecodePartOfFrame(aead: Aead, f: Frame, n: nat)
    requires aead.Valid() && Encodable(aead, f) && n < |FrameBytes(aead, f)|
    ensures Decode(aead, FrameBytes(aead, f)[..n]) == Decoded([], if Seam(aead, n) then Clean else Truncated)
  {
    var ciphertext := aead.seal(f.nonce, f.chunk);
    var source := FrameBytes(aead, f)[..n];
    if n >= LENGTH_BYTES {
      LengthRoundTrip(|ciphertext|);
      assert source[..LENGTH_BYTES] == PutUint32(|ciphertext|);
    }
  }

  /** How many frames lie wholly within the first n bytes, and how many bytes follow the last of them. */
  function WholeFrames(aead: Aead, frames: seq<Frame>, n: nat): (r: (nat, nat))
    requires AllEncodable(aead, frames)
    ensures r.0 <= |frames| && r.1 <= n
    ensures n == |Encode(aead, frames[..r.0])| + r.1
    ensures r.0 < |frames| ==> r.1 < |FrameBytes(aead, frames[r.0])|
  {
    if frames == [] || n < |FrameBytes(aead, frames[0])| then (0, n)
    else
      var more := WholeFrames(aead, frames[1..], n - |FrameBytes(aead, frames[0])|);
      assert frames[..more.0 + 1][1..] == frames[1..][..more.0];
      (more.0 + 1, more.1)
  }

  lemma DecodeNothing(aead: Aead, n: nat)
    requires n <= |Encode(aead, [])|
    ensures Decode(aead, Encode(aead, [])[..n]) == Decoded([], Clean) && WholeFrames(aead, [], n) == (0, 0)
        && ChunksOf([]) == []
  {}

  lemma CutInFirst(aead: Aead, frames: seq<Frame>, n: nat)
    requires frames != [] && AllEncodable(aead, frames) && n < |FrameBytes(aead, frames[0])|
    ensures n <= |Encode(aead, frames)| && Encode(aead, frames)[..n] == FrameBytes(aead, frames[0])[..n]
    ensures WholeFrames(aead, frames, n) == (0, n) && ChunksOf(frames)[..0] == []
  {
    hide FrameBytes;
  }

  lemma CutPastFirst(aead: Aead, frames: seq<Frame>, n: nat)
    requires frames != [] && AllEncodable(aead, frames) && |FrameBytes(aead, frames[0])| <= n <= |Encode(aead, frames)|
    ensures var first, tail, m := FrameBytes(aead, frames[0]), Encode(aead, frames[1..]),
        n - |FrameBytes(aead, frames[0])|;
      && m <= |tail| && Encode(aead, frames)[..n] == first + tail[..m]
      && WholeFrames(aead, frames, n) == (WholeFrames(aead, frames[1..], m).0 + 1, WholeFrames(aead, frames[1..], m).1)
      && ChunksOf(frames)[..WholeFrames(aead, frames[1..], m).0 + 1]
         == [frames[0].chunk] + ChunksOf(frames[1..])[..WholeFrames(aead, frames[1..], m).0]
  {
    hide FrameBytes;
    assert Encode(aead, frames) == FrameBytes(aead, frames[0]) + Encode(aead, frames[1..]);
  }

  /** Cutting a valid stream anywhere loses whole chunks from the end and never yields part of one; the
      cut goes unnoticed exactly at a frame boundary, after a length or after a nonce. */
  lemma {:induction false} DecodePrefix(aead: Aead, frames: seq<Frame>, n: nat)
    requires aead.Valid() && AllEncodable(aead, frames) && n <= |Encode(aead, frames)|
    ensures var (whole, part) := WholeFrames(aead, frames, n);
      Decode(aead, Encode(aead, frames)[..n])
        == Decoded(ChunksOf(frames)[..whole], if Seam(aead, part) then Clean else Truncated)
  {
    hide Decode, FrameBytes, Encode, ChunksOf, WholeFrames;
    if frames == [] {
      DecodeNothing(aead, n);
    } else if n < |FrameBytes(aead, frames[0])| {
      CutInFirst(aead, frames, n);
      DecodePartOfFrame(aead, frames[0], n);
    } else {
      CutPastFirst(aead, frames, n);
      var m := n - |FrameBytes(aead, frames[0])|;
      DecodeFrame(aead, frames[0], Encode(aead, frames[1..])[..m]);
      DecodePrefix(aead, frames[1..], m);
    }
  }

  lemma {:induction false} RoundTrip(aead: Aead, frames: seq<Frame>)
    requires aead.Valid() && AllEncodable(aead, frames)
    ensures Decode(aead, Encode(aead, frames)) == Decoded(ChunksOf(frames), Clean)
  {
    if frames != [] {
      DecodeFrame(aead, frames[0], Encode(aead, frames[1..]));
      RoundTrip(aead, frames[1..]);
    }
  }

  // ----- the writer -------------------------------------------------------

  /** What `room` lets through of one write: everything, or only so many bytes before it fails. */
  function Taken(room: Option<nat>, value: Bytes): Bytes {
    if room.None? || room.value >= |value| then value else value[..room.value]
  }

  /** Frames `value` chunk by chunk into a destination whose k-th write takes what `room(k)` allows. */
  class ChunkEncryptWriter {
    const aead: Aead
    const room: nat -> Option<nat>
    var destination: Bytes
    var written: nat
    var writes: nat
    ghost var frames: seq<Frame>

    /** Whole frames only, so far. */
    ghost predicate Valid()
      reads this
    {
      && AllEncodable(aead, frames) && destination == MAGIC + Encode(aead, frames)
      && written == |destination|
    }

    /** A write failed: the destination holds whole frames and a proper part of the frame that failed. */
    ghost predicate Broken(f: Frame)
      reads this
    {
      && AllEncodable(aead, frames) && Encodable(aead, f) && written == |destination|
      && exists n ::
           0 <= n < |FrameBytes(aead, f)| && destination == MAGIC + Encode(aead, frames) + FrameBytes(aead, f)[..n]
    }

    ghost predicate Healthy() { forall k :: room(k).None? }

    constructor (aead: Aead, room: nat -> Option<nat>)
      ensures Valid() && this.aead == aead && this.room == room && frames == []
    {
      this.aead, this.room, destination, written, writes, frames := aead, room, MAGIC, |MAGIC|, 1, [];
    }

    /** countingWriter.Write over the destination. */
    method Put(value: Bytes) returns (ok: bool)
      requires written == |destination|
      modifies this`destination, this`written, this`writes
      ensures destination == old(destination) + Taken(room(old(writes)), value) && written == |destination|
      ensures ok <==> Taken(room(old(writes)), value) == value
    {
      var n := if room(writes).None? || room(writes).value >= |value| then |value| else room(writes).value;
      destination, written, writes := destination + value[..n], written + n, writes + 1;
      ok := n == |value|;
    }

    /** The three writes of a frame. The destination gets all of it, or a proper part if one of them fails. */
    method PutFrame(length: Bytes, nonce: Bytes, ciphertext: Bytes) returns (ok: bool)
      requires written == |destination|
      modifies this`destination, this`written, this`writes
      ensures written == |destination|
          && |old(destination)| <= |destination| <= |old(destination)| + |length + nonce + ciphertext|
      ensures destination == old(destination) + (length + nonce + ciphertext)[..|destination| - |old(destination)|]
      ensures ok ==> destination == old(destination) + (length + nonce + ciphertext)
      ensures !ok ==> |destination| < |old(destination)| + |length + nonce + ciphertext|
      ensures Healthy() ==> ok
    {
      ok := Put(length);
      if ok { ok := Put(nonce); }
      if ok { ok := Put(ciphertext); }
    }

    /** One chunk, under a fresh nonce if the random source gives one. An empty chunk leaves no trace; an
        oversized one is refused; a failing destination keeps part of the frame. */
    method Write(value: Bytes, nonce: Bytes, random: bool) returns (r: Result<nat>)
      requires Valid() && |nonce| == aead.nonceSize
      modifies this
      ensures r.Ok? ==> Valid() && r.value == |value|
      ensures r.Ok? ==> frames == old(frames) + if value == [] then [] else [Frame(nonce, value)]
      ensures !r.Ok? ==> frames == old(frames)
      ensures !r.Ok? ==> Valid() || (|aead.seal(nonce, value)| <= MAX_UINT32 && Broken(Frame(nonce, value)))
      ensures r.Ok? ==> value == [] || (random && |aead.seal(nonce, value)| <= MAX_UINT32)
      ensures Healthy() ==> (r.Ok? <==> value == [] || (random && |aead.seal(nonce, value)| <= MAX_UINT32))
    {
      hide PutUint32, Encode;
      if |value| == 0 { return Ok(0); }
      if !random { return Rejected; }
      var ciphertext := aead.seal(nonce, value);
      if |ciphertext| > MAX_UINT32 { return Rejected; }
      ghost var f := Frame(nonce, value);
      EncodeAppend(aead, frames, f);
      var ok := PutFrame(PutUint32(|ciphertext|), nonce, ciphertext);
      if !ok { return Rejected; }
      frames := frames + [f];
      r := Ok(|value|);
    }
  }

  /** Whatever a failed write left behind decodes to the chunks framed before it. */
  lemma {:induction false} DecodeBroken(aead: Aead, frames: seq<Frame>, f: Frame, n: nat)
    requires aead.Valid() && AllEncodable(aead, frames) && Encodable(aead, f) && n < |FrameBytes(aead, f)|
    ensures Decode(aead, Encode(aead, frames) + FrameBytes(aead, f)[..n]).chunks == ChunksOf(frames)
  {
    hide Decode, FrameBytes;
    var part := FrameBytes(aead, f)[..n];
    if frames == [] {
      assert Encode(aead, frames) + part == part;
      DecodePartOfFrame(aead, f, n);
    } else {
      assert Encode(aead, frames) + part == FrameBytes(aead, frames[0]) + (Encode(aead, frames[1..]) + part);
      DecodeFrame(aead, frames[0], Encode(aead, frames[1..]) + part);
      DecodeBroken(aead, frames[1..], f, n);
    }
  }

  function Paired(chunks: seq<Bytes>, nonces: seq<Bytes>): seq<Frame>
    requires |nonces| == |chunks|
  {
    if chunks == [] then []
    else
      var n := |chunks| - 1;
      Paired(chunks[..n], nonces[..n]) + if chunks[n] == [] then [] else [Frame(nonces[n], chunks[n])]
  }

  function Flatten(chunks: seq<Bytes>): Bytes {
    if chunks == [] then [] else Flatten(chunks[..|chunks| - 1]) + chunks[|chunks| - 1]
  }

  lemma {:induction false} ChunksAppend(frames: seq<Frame>, f: Frame)
    ensures ChunksOf(frames + [f]) == ChunksOf(frames) + [f.chunk]
  {
    if frames == [] {
      assert frames + [f] == [f];
    } else {
      ChunksAppend(frames[1..], f);
      assert (frames + [f])[1..] == frames[1..] + [f];
    }
  }

  lemma {:induction false} PairedKeepsBytes(chunks: seq<Bytes>, nonces: seq<Bytes>)
    requires |nonces| == |chunks|
    ensures Flatten(ChunksOf(Paired(chunks, nonces))) == Flatten(chunks)
  {
    if chunks != [] {
      var n := |chunks| - 1;
      PairedKeepsBytes(chunks[..n], nonces[..n]);
      if chunks[n] != [] {
        ChunksAppend(Paired(chunks[..n], nonces[..n]), Frame(nonces[n], chunks[n]));
        var cs := ChunksOf(Paired(chunks[..n], nonces[..n]));
        assert (cs + [chunks[n]])[..|cs|] == cs;
      } else {
        assert Paired(chunks, nonces) == Paired(chunks[..n], nonces[..n]);
        assert Flatten(chunks) == Flatten(chunks[..n]) + [];
      }
    }
  }

  /** The decompressor is given exactly the bytes the compressor wrote, however they were cut into chunks. */
  lemma PlaintextSurvives(aead: Aead, chunks: seq<Bytes>, nonces: seq<Bytes>)
    requires aead.Valid() && |nonces| == |chunks| && AllEncodable(aead, Paired(chunks, nonces))
    ensures var d := Decode(aead, Encode(aead, Paired(chunks, nonces)));
      d.ending == Clean && Flatten(d.chunks) == Flatten(chunks)
  {
    RoundTrip(aead, Paired(chunks, nonces));
    PairedKeepsBytes(chunks, nonces);
  }

  /** What can be read back from a stored object, whole or cut short by a failed write. */
  ghost predicate Holds(aead: Aead, stored: Bytes, frames: seq<Frame>) {
    MAGIC <= stored && Decode(aead, stored[|MAGIC|..]).chunks == ChunksOf(frames)
  }

  predicate Writable(aead: Aead, chunk: Bytes, nonce: Bytes, random: bool) {
    chunk == [] || (random && |aead.seal(nonce, chunk)| <= MAX_UINT32)
  }

  /** Encrypts what the compressor writes, after the header went through; stops at the first chunk that
      fails. `stored` is what the destination then holds, `done` how many chunks went through. */
  method EncryptChunks(aead: Aead, room: nat -> Option<nat>, chunks: seq<Bytes>, nonces: seq<Bytes>, random: seq<bool>)
    returns (r: Result<nat>, stored: Bytes, ghost done: nat)
    requires |nonces| == |random| == |chunks| && forall k | 0 <= k < |nonces| :: |nonces[k]| == aead.nonceSize
    ensures done <= |chunks| && (r.Ok? ==> done == |chunks|)
    ensures r.Ok? ==> AllEncodable(aead, Paired(chunks, nonces)) && r.value == |stored|
    ensures r.Ok? ==> stored == MAGIC + Encode(aead, Paired(chunks, nonces))
    ensures aead.Valid() ==> Holds(aead, stored, Paired(chunks[..done], nonces[..done]))
    ensures r.Ok? ==> forall k | 0 <= k < |chunks| :: Writable(aead, chunks[k], nonces[k], random[k])
    ensures (forall k :: room(k).None?) ==>
      (forall k | 0 <= k < |chunks| :: Writable(aead, chunks[k], nonces[k], random[k])) ==> r.Ok?
  {
    hide Encode, Decode, Paired, ChunksOf;
    NothingPaired();
    var writer := new ChunkEncryptWriter(aead, room);
    done := 0;
    for k := 0 to |chunks|
      invariant writer.Valid() && writer.aead == aead && writer.room == room && fresh(writer) && done == k
      invariant writer.frames == Paired(chunks[..k], nonces[..k])
      invariant forall j | 0 <= j < k :: Writable(aead, chunks[j], nonces[j], random[j])
    {
      NextPaired(chunks, nonces, k);
      var written := writer.Write(chunks[k], nonces[k], random[k]);
      if !written.Ok? {
        if aead.Valid() { StoredHolds(writer, Frame(nonces[k], chunks[k])); }
        return Rejected, writer.destination, done;
      }
      done := k + 1;
    }
    assert chunks[..|chunks|] == chunks && nonces[..|chunks|] == nonces;
    if aead.Valid() { StoredHolds(writer, Frame([], [])); }
    return Ok(writer.written), writer.destination, done;
  }

  lemma NothingPaired()
    ensures Paired([], []) == []
  {}

  lemma NextPaired(chunks: seq<Bytes>, nonces: seq<Bytes>, k: nat)
    requires |nonces| == |chunks| && k < |chunks|
    ensures Paired(chunks[..k + 1], nonces[..k + 1])
         == Paired(chunks[..k], nonces[..k]) + if chunks[k] == [] then [] else [Frame(nonces[k], chunks[k])]
  {
    assert chunks[..k + 1][..k] == chunks[..k] && nonces[..k + 1][..k] == nonces[..k];
  }

  lemma StoredHolds(writer: ChunkEncryptWriter, f: Frame)
    requires writer.aead.Valid() && (writer.Valid() || writer.Broken(f))
    ensures Holds(writer.aead, writer.destination, writer.frames)
  {
    hide Decode, FrameBytes, Encode, ChunksOf;
    if writer.Valid() {
      RoundTrip(writer.aead, writer.frames);
      assert writer.destination[|MAGIC|..] == Encode(writer.aead, writer.frames);
    } else {
      var n :| 0 <= n < |FrameBytes(writer.aead, f)|
        && writer.destination == MAGIC + Encode(writer.aead, writer.frames) + FrameBytes(writer.aead, f)[..n];
      DecodeBroken(writer.aead, writer.frames, f, n);
      assert writer.destination[|MAGIC|..] == Encode(writer.aead, writer.frames) + FrameBytes(writer.aead, f)[..n];
    }
  }

  // ----- the reader -------------------------------------------------------

  datatype ReadResult = Read(data: Bytes) | Eof | UnexpectedEof

  class Source {
    const content: Bytes
    var position: nat

    ghost predicate Valid()
      reads this
    {
      position <= |content|
    }

    constructor (content: Bytes)
      ensures Valid() && this.content == content && position == 0
    {
      this.content, position := content, 0;
    }

    /** io.ReadFull: everything asked for, nothing at all, or something in between. */
    method ReadFull(n: nat) returns (r: ReadResult)
      requires Valid()
      modifies this
      ensures Valid()
      ensures var rest := old(content[position..]);
        r == if |rest| >= n then Read(rest[..n]) else if rest == [] then Eof else UnexpectedEof
      ensures r.Read? ==> position == old(position) + n
    {
      if |content| - position >= n {
        r := Read(content[position..position + n]);
        position := position + n;
      } else {
        r := if position == |content| then Eof else UnexpectedEof;
        position := |content|;
      }
    }
  }

  function Prepend(chunks: seq<Bytes>, d: Decoded): Decoded { Decoded(chunks + d.chunks, d.ending) }

  /** One turn of the read loop, case by case. */
  lemma DecodeTurn(aead: Aead, rest: Bytes)
    ensures |rest| < LENGTH_BYTES ==> Decode(aead, rest) == Decoded([], if rest == [] then Clean else Truncated)
    ensures |rest| >= LENGTH_BYTES ==>
      var length, more := Uint32(rest[..LENGTH_BYTES]), rest[LENGTH_BYTES..];
      && (|more| < aead.nonceSize ==> Decode(aead, rest) == Decoded([], if more == [] then Clean else Truncated))
      && (|more| >= aead.nonceSize ==>
            var nonce, body := more[..aead.nonceSize], more[aead.nonceSize..];
            && (|body| < length ==> Decode(aead, rest) == Decoded([], if body == [] then Clean else Truncated))
            && (|body| >= length ==>
                  var plain := aead.open(nonce, body[..length]);
                  Decode(aead, rest) == if plain.None? then Decoded([], Corrupt)
                      else Prepend([plain.value], Decode(aead, body[length..]))))
  {}

  /** The goroutine that feeds the decompressor: closing its pipe with io.EOF looks like a plain close. */
  method DecodeFrames(aead: Aead, source: Source) returns (d: Decoded)
    requires source.Valid()
    modifies source
    ensures d == Decode(aead, old(source.content[source.position..]))
  {
    hide Decode, Uint32;
    var chunks: seq<Bytes> := [];
    ghost var start := source.position;
    while true
      invariant source.Valid()
      invariant Prepend(chunks, Decode(aead, source.content[source.position..]))
          == Decode(aead, source.content[start..])
      decreases |source.content| - source.position
    {
      ghost var rest := source.content[source.position..];
      DecodeTurn(aead, rest);
      var length := source.ReadFull(LENGTH_BYTES);
      if !length.Read? { return Decoded(chunks, if length.Eof? then Clean else Truncated); }
      assert source.content[source.position..] == rest[LENGTH_BYTES..];
      var nonce := source.ReadFull(aead.nonceSize);
      if !nonce.Read? { return Decoded(chunks, if nonce.Eof? then Clean else Truncated); }
      assert source.content[source.position..] == rest[LENGTH_BYTES..][aead.nonceSize..];
      var ciphertext := source.ReadFull(Uint32(length.data));
      if !ciphertext.Read? { return Decoded(chunks, if ciphertext.Eof? then Clean else Truncated); }
      assert source.content[source.position..] == rest[LENGTH_BYTES..][aead.nonceSize..][Uint32(length.data)..];
      match aead.open(nonce.data, ciphertext.data)
      case None => return Decoded(chunks, Corrupt);
      case Some(plain) => chunks := chunks + [plain];
    }
  }

  /** Decrypts a stored object: its header must match before anything is decoded. */
  method DecryptObject(aead: Aead, stored: Bytes) returns (r: Result<Decoded>)
    ensures r == if MAGIC <= stored then Ok(Decode(aead, stored[|MAGIC|..])) else Rejected
  {
    var source := new Source(stored);
    var header := source.ReadFull(|MAGIC|);
    if !header.Read? || header.data != MAGIC { return Rejected; }
    var d := DecodeFrames(aead, source);
    r := Ok(d);
  }
}
