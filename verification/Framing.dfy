/** The framed-v1 downlink: the server's generator, the device's incremental parser with its
    growing buffer, the nested Opus splitter and the smoke script's parser. */
module Framing {
  import opened Bytes
  import opened PacketScan

  /** `size_t` on the device has 32 bits, so a frame length is computed modulo this. */
  const SIZE_T: int := TWO_TO_THE_32
  const FRAME_HEADER := 8
  const OPUS_HEADER := 2
  const FIRST_CAPACITY := 4096

  // ---------------------------------------------------------------- header rules

  function DeviceRule(h: seq<byte>): Verdict {
    if |h| == FRAME_HEADER && ReadBe32(h[4..]) + FRAME_HEADER < SIZE_T then Payload(ReadBe32(h[4..]))
    else Refused
  }

  /** The script computes with Python's unbounded integers. */
  function ScriptRule(h: seq<byte>): Verdict {
    if |h| == FRAME_HEADER then Payload(ReadBe32(h[4..])) else Refused
  }

  function OpusRule(h: seq<byte>): Verdict {
    if |h| == OPUS_HEADER && ReadBe16(h) != 0 then Payload(ReadBe16(h)) else Refused
  }

  /** What the headers say, byte by byte: a length in big-endian order, behind a sequence number or not.
      The device refuses a frame whose length would wrap, and an Opus packet of no bytes. */
  lemma HeadersMean(h: seq<byte>, n: nat)
    ensures DeviceRule(h) == Payload(n) <==>
              |h| == 8 && n == (h[4] as int) * 0x100_0000 + (h[5] as int) * 0x1_0000 + (h[6] as int) * 0x100 + h[7] && n + 8 < 0x1_0000_0000
    ensures ScriptRule(h) == Payload(n) <==>
              |h| == 8 && n == (h[4] as int) * 0x100_0000 + (h[5] as int) * 0x1_0000 + (h[6] as int) * 0x100 + h[7]
    ensures OpusRule(h) == Payload(n) <==> |h| == 2 && n == (h[0] as int) * 0x100 + h[1] && n != 0
    ensures |h| == 8 ==>
              ReadBe32(h[..4]) == (h[0] as int) * 0x100_0000 + (h[1] as int) * 0x1_0000 + (h[2] as int) * 0x100 + h[3]
  {
  }

  function DeviceScan(s: seq<byte>): Scanned { Scan(FRAME_HEADER, DeviceRule, s) }

  function ScriptScan(s: seq<byte>): Scanned { Scan(FRAME_HEADER, ScriptRule, s) }

  function OpusScan(s: seq<byte>): Scanned { Scan(OPUS_HEADER, OpusRule, s) }

  function Sequence(p: Packet): uint32
    requires |p.header| == FRAME_HEADER
  {
    ReadBe32(p.header[..4])
  }

  // ---------------------------------------------------------------- the server's generator

  function NonEmpty(chunks: seq<seq<byte>>): (r: seq<seq<byte>>)
    ensures forall c <- r :: c != []
  {
    if chunks == [] then []
    else (if chunks[0] == [] then [] else [chunks[0]]) + NonEmpty(chunks[1..])
  }

  /** `int.to_bytes(4, "big")` raises OverflowError from 2^32 on. */
  predicate Encodable(sequence: int, chunk: seq<byte>) {
    0 <= sequence < TWO_TO_THE_32 && |chunk| < TWO_TO_THE_32
  }

  function Frame(sequence: nat, chunk: seq<byte>): (p: Packet)
    requires Encodable(sequence, chunk)
    ensures |p.header| == FRAME_HEADER && p.payload == chunk
  {
    Packet(WriteBe32(sequence) + WriteBe32(|chunk|), chunk)
  }

  predicate AllEncodable(chunks: seq<seq<byte>>) {
    forall i :: 0 <= i < |chunks| ==> Encodable(i, chunks[i])
  }

  function Frames(chunks: seq<seq<byte>>): (ps: seq<Packet>)
    requires AllEncodable(chunks)
    ensures |ps| == |chunks|
  {
    seq(|chunks|, i requires 0 <= i < |chunks| => Frame(i, chunks[i]))
  }

  /** What chunk k adds to the non-empty ones. */
  lemma {:induction false} NonEmptyMore(chunks: seq<seq<byte>>, k: nat)
    requires k < |chunks|
    ensures NonEmpty(chunks[k..]) == (if chunks[k] == [] then [] else [chunks[k]]) + NonEmpty(chunks[k + 1..])
  {
    assert chunks[k..][1..] == chunks[k + 1..];
  }

  lemma {:induction false} DropFirst<T>(s: seq<T>, k: nat, x: T, rest: seq<T>)
    requires k <= |s| && s[k..] == [x] + rest
    ensures k < |s| && s[k] == x && s[k + 1..] == rest
  {
    assert s[k] == s[k..][0] && s[k + 1..] == s[k..][1..];
  }

  /** The frames made so far are the first ones. */
  ghost predicate FramedSoFar(whole: seq<seq<byte>>, frames: seq<Packet>) {
    && |frames| <= |whole|
    && forall i :: 0 <= i < |frames| ==> Encodable(i, whole[i]) && frames[i] == Frame(i, whole[i])
  }

  lemma {:induction false} OneFramedMore(whole: seq<seq<byte>>, frames: seq<Packet>, chunk: seq<byte>)
    requires FramedSoFar(whole, frames) && |frames| < |whole| && whole[|frames|] == chunk
    ensures if Encodable(|frames|, chunk) then FramedSoFar(whole, frames + [Frame(|frames|, chunk)])
            else !AllEncodable(whole)
  {
  }

  lemma {:induction false} AllFramed(whole: seq<seq<byte>>, frames: seq<Packet>)
    requires FramedSoFar(whole, frames) && |frames| == |whole|
    ensures AllEncodable(whole) && frames == Frames(whole)
  {
  }

  /** The generator: it skips empty chunks, numbers the others, and fails on what does not fit. */
  method FrameAudioPackets(chunks: seq<seq<byte>>) returns (frames: seq<Packet>, overflow: bool)
    ensures overflow <==> !AllEncodable(NonEmpty(chunks))
    ensures !overflow ==> frames == Frames(NonEmpty(chunks))
  {
    frames, overflow := [], false;
    var sequence := 0;
    ghost var whole := NonEmpty(chunks);
    for k := 0 to |chunks|
      invariant sequence == |frames| && FramedSoFar(whole, frames)
      invariant whole[sequence..] == NonEmpty(chunks[k..])
    {
      var chunk := chunks[k];
      NonEmptyMore(chunks, k);
      if chunk == [] {
        continue;
      }
      DropFirst(whole, sequence, chunk, NonEmpty(chunks[k + 1..]));
      OneFramedMore(whole, frames, chunk);
      if !Encodable(sequence, chunk) {
        return frames, true;
      }
      frames := frames + [Frame(sequence, chunk)];
      sequence := sequence + 1;
    }
    AllFramed(whole, frames);
  }

  // ---------------------------------------------------------------- the device's parser

  /** What the receiver remembers about sequence numbers: the next one it expects (once it has
      seen a frame) and how many frames did not carry the expected one. */
  datatype SeqTrack = SeqTrack(valid: bool, expected: uint32, gaps: nat)

  function Note(t: SeqTrack, sequence: uint32): SeqTrack {
    SeqTrack(true, (sequence + 1) % TWO_TO_THE_32,
             if t.valid && sequence != t.expected then t.gaps + 1 else t.gaps)
  }

  function NoteAll(t: SeqTrack, sequences: seq<uint32>): SeqTrack {
    if sequences == [] then t
    else Note(NoteAll(t, sequences[..|sequences| - 1]), sequences[|sequences| - 1])
  }

  function Sequences(ps: seq<Packet>): seq<uint32>
    requires forall i :: 0 <= i < |ps| ==> |ps[i].header| == FRAME_HEADER
  {
    seq(|ps|, i requires 0 <= i < |ps| => Sequence(ps[i]))
  }

  lemma NoteAllSnoc(t: SeqTrack, ps: seq<Packet>, p: Packet)
    requires WellFormed(FRAME_HEADER, DeviceRule, ps) && |p.header| == FRAME_HEADER
    ensures NoteAll(t, Sequences(ps + [p])) == Note(NoteAll(t, Sequences(ps)), Sequence(p))
  {
    assert Sequences(ps + [p])[..|ps|] == Sequences(ps);
  }

  /** The wrapped frame length decides as the unwrapped rule does. */
  lemma WrappedLength(s: seq<byte>, offset: nat, header: seq<byte>, payloadLen: nat, frameLen: nat)
    requires offset + FRAME_HEADER <= |s| && header == s[offset..offset + FRAME_HEADER]
    requires payloadLen == ReadBe32(header[4..]) && frameLen == (payloadLen + FRAME_HEADER) % SIZE_T
    ensures |s| - offset < frameLen ==>
              Stuck(FRAME_HEADER, DeviceRule, s[offset..]) && !RefusedAt(FRAME_HEADER, DeviceRule, s[offset..])
    ensures payloadLen + FRAME_HEADER >= SIZE_T ==> RefusedAt(FRAME_HEADER, DeviceRule, s[offset..])
    ensures payloadLen + FRAME_HEADER < SIZE_T && |s| - offset >= frameLen ==>
              && !Stuck(FRAME_HEADER, DeviceRule, s[offset..])
              && DeviceRule(header) == Payload(payloadLen)
              && frameLen == FRAME_HEADER + payloadLen
  {
    assert s[offset..][..FRAME_HEADER] == header;
  }

  /** Why a loop stopped tells whether the scan has more than it took. */
  lemma LoopStops(s: seq<byte>, done: seq<Packet>, offset: nat, look: Look)
    requires WellFormed(FRAME_HEADER, DeviceRule, done) && Sees(FRAME_HEADER, DeviceRule, s, offset, look)
    requires Wire(done) == s[..offset] && !look.Incomplete?
    ensures |DeviceScan(s).packets| > |done| <==> look.Complete?
  {
    LoopMeetsScan(FRAME_HEADER, DeviceRule, s, done, offset);
  }

  /** A byte buffer that grows by doubling and drops a consumed prefix by moving the rest down. */
  class PendingBytes {
    var data: array<byte>
    var len: nat

    ghost predicate Valid()
      reads this
    {
      len <= data.Length
    }

    ghost function Contents(): (s: seq<byte>)
      reads this, data
      requires Valid()
    {
      data[..len]
    }

    constructor ()
      ensures Valid() && fresh(data) && Contents() == []
    {
      data := new byte[0];
      len := 0;
    }

    method Append(more: seq<byte>, canAllocate: bool) returns (err: EspErr)
      requires Valid()
      modifies this, data
      ensures Valid() && (data == old(data) || fresh(data))
      ensures err == OK ==> Contents() == old(Contents()) + more
      ensures err != OK ==> err == NoMem && !canAllocate && Contents() == old(Contents())
    {
      if |more| == 0 {
        return OK;
      }
      if len + |more| > data.Length {
        var newCap := if data.Length == 0 then FIRST_CAPACITY else data.Length;
        while len + |more| > newCap
          invariant newCap >= data.Length && newCap > 0
          decreases len + |more| - newCap
        {
          newCap := newCap * 2;
        }
        if !canAllocate {
          return NoMem;
        }
        var grown := new byte[newCap];
        CopyInto(grown, 0, data[..len]);
        data := grown;
      }
      assert data[..len] == old(Contents());
      CopyInto(data, len, more);
      len := len + |more|;
      return OK;
    }

    /** The view of `n` buffered bytes from `at` on. */
    method Peek(at: nat, n: nat) returns (s: seq<byte>)
      requires Valid() && at + n <= len
      ensures s == Contents()[at..at + n]
    {
      s := data[at..at + n];
    }

    method DropFront(n: nat)
      requires Valid() && n <= len
      modifies this, data
      ensures Valid() && data == old(data)
      ensures Contents() == old(Contents())[n..]
    {
      MoveDown(data, n, len);
      len := len - n;
    }
  }

  class FrameStream {
    const pending: PendingBytes
    var expectedSeq: uint32
    var expectedSeqValid: bool
    var gapCount: nat

    function Track(): SeqTrack
      reads this
    {
      SeqTrack(expectedSeqValid, expectedSeq, gapCount)
    }

    constructor ()
      ensures fresh(pending) && pending.Valid() && fresh(pending.data) && pending.Contents() == []
      ensures Track() == SeqTrack(false, 0, 0)
    {
      pending := new PendingBytes();
      expectedSeqValid, expectedSeq, gapCount := false, 0, 0;
    }

    method Remember(header: seq<byte>)
      requires |header| == FRAME_HEADER
      modifies this
      ensures Track() == Note(old(Track()), ReadBe32(header[..4]))
    {
      var sequence := ReadBe32(header[..4]);
      if expectedSeqValid && sequence != expectedSeq {
        gapCount := gapCount + 1;
      }
      expectedSeq, expectedSeqValid := (sequence + 1) % TWO_TO_THE_32, true;
    }

    /** Looks at the frame that starts at `offset`. */
    method NextFrame(offset: nat) returns (next: Look)
      requires pending.Valid() && offset + FRAME_HEADER <= pending.len
      ensures Sees(FRAME_HEADER, DeviceRule, pending.Contents(), offset, next)
    {
      ghost var s := pending.Contents();
      var header := pending.Peek(offset, FRAME_HEADER);
      var payloadLen := ReadBe32(header[4..]);
      var frameLen := (payloadLen + FRAME_HEADER) % SIZE_T;
      WrappedLength(s, offset, header, payloadLen, frameLen);
      if pending.len - offset < frameLen {
        return Incomplete;
      }
      if payloadLen + FRAME_HEADER >= SIZE_T {
        return Hopeless(header);
      }
      var payload := pending.Peek(offset + FRAME_HEADER, payloadLen);
      return Complete(Packet(header, payload));
    }

    /** Hands every complete frame to the encoded queue. `budget` is how many packets can be
        allocated and queued before one attempt fails, with `failure`; a payload so long that the
        frame length wraps around `size_t` can never be allocated. On failure nothing is dropped. */
    method Consume(budget: nat, failure: EspErr) returns (err: EspErr, queued: seq<Packet>)
      requires pending.Valid() && failure != OK
      modifies this, pending, pending.data
      ensures pending.Valid() && pending.data == old(pending.data)
      ensures HandsOver(FRAME_HEADER, DeviceRule, old(pending.Contents()), budget, err == OK, queued)
      ensures pending.Contents() == if err == OK then DeviceScan(old(pending.Contents())).rest
                                    else old(pending.Contents())
      ensures WellFormed(FRAME_HEADER, DeviceRule, queued)
      ensures err != OK ==> err == if |DeviceScan(old(pending.Contents())).packets| <= budget then NoMem else failure
      ensures err == OK ==> Track() == NoteAll(old(Track()), Sequences(queued))
    {
      ghost var s := pending.Contents();
      ghost var track := Track();
      queued := [];
      var offset: nat := 0;
      while pending.len - offset >= FRAME_HEADER
        modifies this
        invariant offset <= pending.len && pending.Contents() == s
        invariant WellFormed(FRAME_HEADER, DeviceRule, queued) && Wire(queued) == s[..offset]
        invariant |queued| <= budget
        invariant Track() == NoteAll(track, Sequences(queued))
      {
        var next := NextFrame(offset);
        if next.Incomplete? {
          break;
        }
        Remember(if next.Complete? then next.packet.header else next.header);
        if next.Hopeless? || |queued| == budget {
          LoopHandsOver(FRAME_HEADER, DeviceRule, s, budget, false, queued, offset);
          LoopStops(s, queued, offset, next);
          return if next.Hopeless? then NoMem else failure, queued;
        }
        LoopTakes(FRAME_HEADER, DeviceRule, s, queued, offset, next.packet);
        NoteAllSnoc(track, queued, next.packet);
        queued := queued + [next.packet];
        offset := offset + |Bare(next.packet)|;
      }
      LoopHandsOver(FRAME_HEADER, DeviceRule, s, budget, true, queued, offset);
      if offset > 0 {
        pending.DropFront(offset);
      }
      return OK, queued;
    }
  }

  /** The frames that read k completes. */
  function FramesOfRead(cuts: seq<seq<byte>>, k: nat): (n: int)
    requires k < |cuts|
  {
    |DeviceScan(Flatten(cuts[..k + 1])).packets| - |DeviceScan(Flatten(cuts[..k])).packets|
  }

  /** What the scan makes of one more read. */
  lemma {:induction false} OneReadMore(cuts: seq<seq<byte>>, k: nat)
    requires k < |cuts|
    ensures var p, q := DeviceScan(Flatten(cuts[..k])), DeviceScan(Flatten(cuts[..k + 1]));
            var r := DeviceScan(p.rest + cuts[k]);
      && q == Scanned(p.packets + r.packets, r.rest, r.refused) && FramesOfRead(cuts, k) == |r.packets|
      && q.packets <= DeviceScan(Flatten(cuts)).packets
      && (q.refused ==> DeviceScan(Flatten(cuts)).refused)
  {
    var before, after := Flatten(cuts[..k]), Flatten(cuts[..k + 1]);
    var more := Flatten(cuts[k + 1..]);
    assert cuts[..k + 1] == cuts[..k] + [cuts[k]] && cuts == cuts[..k + 1] + cuts[k + 1..];
    FlattenSnoc(cuts[..k], cuts[k]);
    FlattenConcat(cuts[..k + 1], cuts[k + 1..]);
    ScanIsCutInvariant(FRAME_HEADER, DeviceRule, before, cuts[k]);
    ScanIsCutInvariant(FRAME_HEADER, DeviceRule, after, more);
    if DeviceScan(after).refused {
      RefusedIsFinal(FRAME_HEADER, DeviceRule, after, more);
    }
  }

  /** Memory and queue never stand in the way of a read. */
  predicate RoomForReads(cuts: seq<seq<byte>>, memory: seq<bool>, room: seq<nat>)
    requires |memory| == |room| == |cuts|
  {
    forall k :: 0 <= k < |cuts| ==> memory[k] && FramesOfRead(cuts, k) <= room[k]
  }

  /** The reader's loop over a framed body: append each read, then consume. `memory[k]` is whether the
      buffer could grow for read k, `room[k]` how many packets can be queued after it. Whatever happens,
      what was queued is the beginning of the body's frames. With room for every read it is all of them
      up to a header the device refuses, and the stream succeeds exactly when there is none and the body
      does not end inside a frame. */
  method ReceiveBody(stream: FrameStream, cuts: seq<seq<byte>>, memory: seq<bool>, room: seq<nat>, failure: EspErr)
    returns (err: EspErr, queued: seq<Packet>)
    requires stream.pending.Valid() && stream.pending.Contents() == [] && failure != OK
    requires |memory| == |room| == |cuts|
    modifies stream, stream.pending, stream.pending.data
    ensures var body := DeviceScan(Flatten(cuts));
      && queued <= body.packets
      && (err == OK ==> body == Scanned(queued, [], false))
      && (err == OK ==> forall k :: 0 <= k < |cuts| ==> FramesOfRead(cuts, k) <= room[k])
      && (RoomForReads(cuts, memory, room) ==>
            if body.refused then err == NoMem
            else queued == body.packets && err == if body.rest == [] then OK else Fail)
  {
    queued := [];
    for k := 0 to |cuts|
      invariant stream.pending.Valid()
      invariant stream.pending.data == old(stream.pending.data) || fresh(stream.pending.data)
      invariant DeviceScan(Flatten(cuts[..k])) == Scanned(queued, stream.pending.Contents(), false)
      invariant queued <= DeviceScan(Flatten(cuts)).packets
      invariant forall j :: 0 <= j < k ==> FramesOfRead(cuts, j) <= room[j]
    {
      OneReadMore(cuts, k);
      err, queued := ReceiveRead(stream, cuts[k], memory[k], room[k], failure, queued);
      if err != OK {
        assert RoomForReads(cuts, memory, room) ==> memory[k] && FramesOfRead(cuts, k) <= room[k];
        return;
      }
    }
    assert cuts[..|cuts|] == cuts;
    err := if stream.pending.len != 0 then Fail else OK;
  }

  /** One turn of that loop, behind the frames `before`. */
  method ReceiveRead(stream: FrameStream, chunk: seq<byte>, memory: bool, room: nat, failure: EspErr,
                     before: seq<Packet>)
    returns (err: EspErr, queued: seq<Packet>)
    requires stream.pending.Valid() && failure != OK
    modifies stream, stream.pending, stream.pending.data
    ensures stream.pending.Valid()
    ensures stream.pending.data == old(stream.pending.data) || fresh(stream.pending.data)
    ensures var r := DeviceScan(old(stream.pending.Contents()) + chunk);
      && queued <= before + r.packets
      && (err == OK ==> queued == before + r.packets && stream.pending.Contents() == r.rest)
      && (err == OK ==> |r.packets| <= room && !r.refused)
      && (memory && |r.packets| <= room ==> err == if r.refused then NoMem else OK)
  {
    err := stream.pending.Append(chunk, memory);
    if err != OK {
      return err, before;
    }
    var more;
    err, more := stream.Consume(room, failure);
    queued := before + more;
  }

  // ---------------------------------------------------------------- the nested Opus splitter

  method NextOpusPacket(pending: PendingBytes) returns (next: Look)
    requires pending.Valid() && pending.len >= OPUS_HEADER
    ensures Sees(OPUS_HEADER, OpusRule, pending.Contents(), 0, next)
  {
    var header := pending.Peek(0, OPUS_HEADER);
    assert pending.Contents()[0..][..OPUS_HEADER] == header;
    var packetLen := ReadBe16(header);
    if packetLen == 0 {
      return Hopeless(header);
    }
    if pending.len < packetLen + OPUS_HEADER {
      return Incomplete;
    }
    var payload := pending.Peek(OPUS_HEADER, packetLen);
    return Complete(Packet(header, payload));
  }

  /** Splits decoded-so-far bytes into Opus packets, decoding and delivering each before it is
      dropped; `budget` is how many the decoder and its callback accept before one fails. */
  method DecodeOpusPending(pending: PendingBytes, budget: nat) returns (err: EspErr, decoded: seq<Packet>)
    requires pending.Valid()
    modifies pending, pending.data
    ensures pending.Valid() && pending.data == old(pending.data)
    ensures HandsOver(OPUS_HEADER, OpusRule, old(pending.Contents()), budget, err == OK, decoded)
    ensures Wire(decoded) + pending.Contents() == old(pending.Contents())
    ensures err == OK ==> pending.Contents() == OpusScan(old(pending.Contents())).rest
  {
    ghost var s := pending.Contents();
    ghost var offset: nat := 0;
    decoded := [];
    while pending.len >= OPUS_HEADER
      invariant pending.Valid() && pending.data == old(pending.data)
      invariant offset <= |s| && pending.Contents() == s[offset..]
      invariant WellFormed(OPUS_HEADER, OpusRule, decoded) && Wire(decoded) == s[..offset]
      invariant |decoded| <= budget
      decreases pending.len
    {
      var next := NextOpusPacket(pending);
      SeesThrough(OPUS_HEADER, OpusRule, s, offset, next);
      if next.Incomplete? {
        break;
      }
      if next.Hopeless? || |decoded| == budget {
        LoopHandsOver(OPUS_HEADER, OpusRule, s, budget, false, decoded, offset);
        return Fail, decoded;
      }
      LoopTakes(OPUS_HEADER, OpusRule, s, decoded, offset, next.packet);
      pending.DropFront(|Bare(next.packet)|);
      decoded := decoded + [next.packet];
      offset := offset + |Bare(next.packet)|;
    }
    LoopHandsOver(OPUS_HEADER, OpusRule, s, budget, true, decoded, offset);
    return OK, decoded;
  }

  // ---------------------------------------------------------------- the smoke script's parser

  method ParseFramedPackets(buffer: seq<byte>) returns (packets: seq<Packet>, rest: seq<byte>)
    ensures ScriptScan(buffer) == Scanned(packets, rest, false)
  {
    packets := [];
    var offset: nat := 0;
    while |buffer| - offset >= FRAME_HEADER
      invariant offset <= |buffer|
      invariant WellFormed(FRAME_HEADER, ScriptRule, packets) && Wire(packets) == buffer[..offset]
    {
      var header := buffer[offset..offset + FRAME_HEADER];
      assert header == buffer[offset..][..FRAME_HEADER];
      var frameLen := FRAME_HEADER + ReadBe32(header[4..]);
      if |buffer| - offset < frameLen {
        break;
      }
      var packet := Packet(header, buffer[offset + FRAME_HEADER..offset + frameLen]);
      LoopTakes(FRAME_HEADER, ScriptRule, buffer, packets, offset, packet);
      packets := packets + [packet];
      offset := offset + frameLen;
    }
    LoopMeetsScan(FRAME_HEADER, ScriptRule, buffer, packets, offset);
    rest := buffer[offset..];
  }

  // ---------------------------------------------------------------- what the two ends agree on

  predicate FitsDevice(chunks: seq<seq<byte>>) {
    forall i :: 0 <= i < |chunks| ==> |chunks[i]| + FRAME_HEADER < SIZE_T
  }

  lemma FramesAreWellFormed(chunks: seq<seq<byte>>)
    requires AllEncodable(chunks)
    ensures WellFormed(FRAME_HEADER, ScriptRule, Frames(chunks))
    ensures forall i :: 0 <= i < |chunks| ==> Sequence(Frames(chunks)[i]) == i
    ensures WellFormed(FRAME_HEADER, DeviceRule, Frames(chunks)) <==> FitsDevice(chunks)
    ensures Payloads(Frames(chunks)) == chunks
  {
    var ps := Frames(chunks);
    forall i | 0 <= i < |chunks|
      ensures ps[i].header[..4] == WriteBe32(i)
      ensures ps[i].header[4..] == WriteBe32(|chunks[i]|)
      ensures ReadBe32(ps[i].header[..4]) == i && ReadBe32(ps[i].header[4..]) == |chunks[i]|
    {
      Be32RoundTrip(i);
      Be32RoundTrip(|chunks[i]|);
    }
    if !FitsDevice(chunks) {
      var i :| 0 <= i < |chunks| && !(|chunks[i]| + FRAME_HEADER < SIZE_T);
      assert DeviceRule(ps[i].header) == Refused;
    }
  }

  lemma {:induction false} NumberedHaveNoGaps(sequences: seq<uint32>)
    requires forall i :: 0 <= i < |sequences| ==> sequences[i] == i
    ensures NoteAll(SeqTrack(false, 0, 0), sequences)
              == SeqTrack(sequences != [], |sequences| % TWO_TO_THE_32, 0)
  {
    if sequences != [] {
      NumberedHaveNoGaps(sequences[..|sequences| - 1]);
    }
  }

  /** How often a number is not the one after its predecessor. */
  function Jumps(sequences: seq<uint32>): nat {
    if |sequences| < 2 then 0
    else
      var n := |sequences| - 1;
      Jumps(sequences[..n]) + if sequences[n] == (sequences[n - 1] + 1) % TWO_TO_THE_32 then 0 else 1
  }

  /** The gaps that are counted are the jumps, wherever the numbers begin. */
  lemma {:induction false} GapsAreJumps(sequences: seq<uint32>)
    ensures NoteAll(SeqTrack(false, 0, 0), sequences).gaps == Jumps(sequences)
    ensures sequences != [] ==>
              var t := NoteAll(SeqTrack(false, 0, 0), sequences);
              t.valid && t.expected == (sequences[|sequences| - 1] + 1) % TWO_TO_THE_32
    ensures sequences == [] ==> !NoteAll(SeqTrack(false, 0, 0), sequences).valid
  {
    if sequences != [] {
      GapsAreJumps(sequences[..|sequences| - 1]);
    }
  }

  /** The downlink theorem. However the framed body is cut into reads, the device's parser, scanning
      after every read, ends with exactly the server's frames (numbered from 0 without a gap) and
      nothing left over, if and only if no chunk is so long that its frame length wraps. */
  lemma DownlinkRoundTrip(chunks: seq<seq<byte>>, cuts: seq<seq<byte>>)
    requires AllEncodable(chunks)
    requires Flatten(cuts) == Wire(Frames(chunks))
    ensures var fed := Feed(FRAME_HEADER, DeviceRule, FRESH, cuts);
            fed == Scanned(Frames(chunks), [], false) <==> FitsDevice(chunks)
    ensures Payloads(Frames(chunks)) == chunks && NoteAll(SeqTrack(false, 0, 0), Sequences(Frames(chunks))).gaps == 0
  {
    var ps := Frames(chunks);
    FramesAreWellFormed(chunks);
    FeedIsScanOfWhole(FRAME_HEADER, DeviceRule, cuts);
    NumberedHaveNoGaps(Sequences(ps));
    assert Wire(ps) + [] == Wire(ps);
    if FitsDevice(chunks) {
      ScanOfWire(FRAME_HEADER, DeviceRule, ps, []);
      assert ps + [] == ps;
    } else {
      ScanIsLossless(FRAME_HEADER, DeviceRule, Wire(ps));
    }
  }

  /** The script and the device read the same packets from every stream the device does not refuse. */
  lemma {:induction false} ScriptAgreesWithDevice(s: seq<byte>)
    requires !DeviceScan(s).refused
    ensures ScriptScan(s) == DeviceScan(s)
    decreases |s|
  {
    if |s| >= FRAME_HEADER && |s| >= FRAME_HEADER + ReadBe32(s[..8][4..]) {
      ScriptAgreesWithDevice(s[FRAME_HEADER + ReadBe32(s[..8][4..])..]);
    }
  }

  /** Both levels together: Opus packets, printed back to back, cut anywhere into server chunks,
      framed, and cut anywhere into reads, come out of the device as the same packets. */
  lemma OpusSurvivesBothCuts(opus: seq<Packet>, chunks: seq<seq<byte>>, cuts: seq<seq<byte>>)
    requires WellFormed(OPUS_HEADER, OpusRule, opus)
    requires AllEncodable(chunks) && FitsDevice(chunks)
    requires Flatten(chunks) == Wire(opus)
    requires Flatten(cuts) == Wire(Frames(chunks))
    ensures var frames := Feed(FRAME_HEADER, DeviceRule, FRESH, cuts).packets;
            Feed(OPUS_HEADER, OpusRule, FRESH, Payloads(frames)) == Scanned(opus, [], false)
  {
    DownlinkRoundTrip(chunks, cuts);
    FeedIsScanOfWhole(OPUS_HEADER, OpusRule, chunks);
    ScanOfWire(OPUS_HEADER, OpusRule, opus, []);
    assert Wire(opus) + [] == Wire(opus) && opus + [] == opus;
  }
}
