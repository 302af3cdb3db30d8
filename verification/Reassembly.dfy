/** The server's half of the uplink: the strict parser of binary messages, the frame table of a turn
    with its limits, and reassembly in sequence order. */
module Reassembly {
  import opened Bytes
  import opened PacketScan
  import opened Framing
  import Uplink

  const MAX_FRAME_BYTES := 4096
  const MAX_TURN_AUDIO_BYTES := 16000 * 2 * 8
  const MAX_FRAMES_PER_TURN := 1024

  datatype Arrival = Arrival(sequence: nat, payload: seq<byte>)

  datatype Code =
    | FramedPacketTruncated
    | EmptyBinaryMessage
    | SequenceConflict
    | EmptyFrame
    | FrameTooLarge
    | TurnAudioLimitExceeded
    | FrameLimitExceeded
    | SequenceGap

  datatype Result<T> = Accepted(value: T) | Rejected(code: Code)

  // ---------------------------------------------------------------- the parser

  function Arrivals(ps: seq<Packet>): (r: seq<Arrival>)
    requires WellFormed(FRAME_HEADER, ScriptRule, ps)
    ensures |r| == |ps|
  {
    seq(|ps|, i requires 0 <= i < |ps| => Arrival(Sequence(ps[i]), ps[i].payload))
  }

  lemma {:induction false} ArrivalsSnoc(ps: seq<Packet>, p: Packet)
    requires WellFormed(FRAME_HEADER, ScriptRule, ps + [p]) && WellFormed(FRAME_HEADER, ScriptRule, ps)
    ensures |p.header| == FRAME_HEADER && Arrivals(ps + [p]) == Arrivals(ps) + [Arrival(Sequence(p), p.payload)]
  {
    assert (ps + [p])[|ps|] == p;
  }

  /** A message is accepted when it is one or more whole frames and nothing else. */
  ghost function Parsed(body: seq<byte>): Result<seq<Arrival>> {
    ScanIsLossless(FRAME_HEADER, ScriptRule, body);
    var r := ScriptScan(body);
    if r.rest != [] then Rejected(FramedPacketTruncated)
    else if body == [] then Rejected(EmptyBinaryMessage)
    else Accepted(Arrivals(r.packets))
  }

  method ParseBinaryFrames(body: seq<byte>) returns (r: Result<seq<Arrival>>)
    ensures r == Parsed(body)
    ensures r == Rejected(EmptyBinaryMessage) <==> body == []
    ensures r.Rejected? && body != [] ==> r == Rejected(FramedPacketTruncated)
  {
    var frames := [];
    var offset: nat := 0;
    ghost var done: seq<Packet> := [];
    while offset < |body|
      invariant offset <= |body|
      invariant WellFormed(FRAME_HEADER, ScriptRule, done) && Wire(done) == body[..offset]
      invariant frames == Arrivals(done)
      invariant offset == 0 <==> frames == []
    {
      LoopMeetsScan(FRAME_HEADER, ScriptRule, body, done, offset);
      if |body| - offset < FRAME_HEADER {
        return Rejected(FramedPacketTruncated);
      }
      var header := body[offset..offset + FRAME_HEADER];
      assert header == body[offset..][..FRAME_HEADER];
      var size := ReadBe32(header[4..]);
      if |body| - (offset + FRAME_HEADER) < size {
        return Rejected(FramedPacketTruncated);
      }
      var payload := body[offset + FRAME_HEADER..offset + FRAME_HEADER + size];
      LoopTakes(FRAME_HEADER, ScriptRule, body, done, offset, Packet(header, payload));
      ArrivalsSnoc(done, Packet(header, payload));
      done := done + [Packet(header, payload)];
      frames := frames + [Arrival(ReadBe32(header[..4]), payload)];
      offset := offset + FRAME_HEADER + size;
    }
    LoopMeetsScan(FRAME_HEADER, ScriptRule, body, done, offset);
    if frames == [] {
      return Rejected(EmptyBinaryMessage);
    }
    return Accepted(frames);
  }

  predicate Printable(frames: seq<Arrival>) {
    forall i :: 0 <= i < |frames| ==> Encodable(frames[i].sequence, frames[i].payload)
  }

  function Printed(frames: seq<Arrival>): (ps: seq<Packet>)
    requires Printable(frames)
    ensures |ps| == |frames|
  {
    seq(|frames|, i requires 0 <= i < |frames| => Frame(frames[i].sequence, frames[i].payload))
  }

  lemma {:induction false} FrameReadsBack(sequence: uint32, payload: seq<byte>)
    requires |payload| < TWO_TO_THE_32
    ensures var p := Frame(sequence, payload);
      && ScriptRule(p.header) == Payload(|p.payload|)
      && Sequence(p) == sequence
  {
    var h := Frame(sequence, payload).header;
    assert h[..4] == WriteBe32(sequence) && h[4..] == WriteBe32(|payload|);
    Be32RoundTrip(sequence);
    Be32RoundTrip(|payload|);
  }

  /** The header of a well-formed packet is the one its number and payload print as. */
  lemma {:induction false} HeaderIsPrinted(p: Packet)
    requires |p.header| == FRAME_HEADER && ScriptRule(p.header) == Payload(|p.payload|)
    ensures Frame(Sequence(p), p.payload) == p
  {
    Be32ReadBack(p.header[..4]);
    Be32ReadBack(p.header[4..]);
    assert p.header == p.header[..4] + p.header[4..];
  }

  lemma {:induction false} LastDigit(high: nat, low: byte)
    ensures (high * 0x100 + low) / 0x100 == high && (high * 0x100 + low) % 0x100 == low
  {
  }

  lemma {:induction false} Be32ReadBack(s: seq<byte>)
    requires |s| == 4
    ensures WriteBe32(ReadBe32(s)) == s
  {
    var a: nat, b: nat, c: nat, n := s[0], s[1], s[2], ReadBe32(s);
    LastDigit(a, s[1]);
    LastDigit(a * 0x100 + b, s[2]);
    LastDigit((a * 0x100 + b) * 0x100 + c, s[3]);
    assert n == ((a * 0x100 + b) * 0x100 + c) * 0x100 + s[3];
    assert n / 0x1_0000 == n / 0x100 / 0x100 && n / 0x100_0000 == n / 0x1_0000 / 0x100;
  }

  /** Printing and parsing are inverse to each other: the parser accepts exactly the messages that
      print a non-empty list of frames, and recovers every (sequence, payload) pair. */
  lemma {:induction false} ParseInvertsPrint(frames: seq<Arrival>)
    requires frames != [] && Printable(frames)
    ensures Parsed(Wire(Printed(frames))) == Accepted(frames)
  {
    var ps := Printed(frames);
    forall i | 0 <= i < |ps|
      ensures ScriptRule(ps[i].header) == Payload(|ps[i].payload|) && Sequence(ps[i]) == frames[i].sequence
    {
      FrameReadsBack(frames[i].sequence, frames[i].payload);
    }
    ScanOfWire(FRAME_HEADER, ScriptRule, ps, []);
    assert Wire(ps) + [] == Wire(ps) && ps + [] == ps;
    assert Wire(ps) == Bare(ps[0]) + Wire(ps[1..]);
    assert ScriptScan(Wire(ps)) == Scanned(ps, [], false) && Wire(ps) != [];
    assert Arrivals(ps) == frames;
  }

  lemma {:induction false} PrintInvertsParse(body: seq<byte>, frames: seq<Arrival>)
    requires Parsed(body) == Accepted(frames)
    ensures frames != [] && Printable(frames) && Wire(Printed(frames)) == body
  {
    var ps := ScriptScan(body).packets;
    ScanIsLossless(FRAME_HEADER, ScriptRule, body);
    assert Wire(ps) + [] == Wire(ps);
    forall i | 0 <= i < |ps|
      ensures Encodable(frames[i].sequence, frames[i].payload) && Frame(frames[i].sequence, frames[i].payload) == ps[i]
    {
      HeaderIsPrinted(ps[i]);
    }
    assert Printed(frames) == ps;
    assert ps == [] ==> Wire(ps) == [];
  }

  // ---------------------------------------------------------------- the frame table

  /** The sizes of all payloads of a table. */
  ghost function Total(m: map<nat, seq<byte>>): nat {
    if m == map[] then 0
    else
      var k :| k in m;
      |m[k]| + Total(m - {k})
  }

  lemma {:induction false} TotalWithout(m: map<nat, seq<byte>>, k: nat)
    requires k in m
    ensures Total(m) == |m[k]| + Total(m - {k})
    decreases |m|
  {
    var j :| j in m && Total(m) == |m[j]| + Total(m - {j});
    if j != k {
      TotalWithout(m - {j}, k);
      TotalWithout(m - {k}, j);
      assert m - {j} - {k} == m - {k} - {j};
    }
  }

  lemma {:induction false} TotalWith(m: map<nat, seq<byte>>, k: nat, payload: seq<byte>)
    requires k !in m
    ensures Total(m[k := payload]) == Total(m) + |payload|
  {
    TotalWithout(m[k := payload], k);
    assert m[k := payload] - {k} == m;
  }

  type Digest = seq<byte>

  /** What one frame does to the table. The digest decides whether a repeated number is a duplicate;
      the checks come in this order. */
  ghost function Ingest(digest: seq<byte> -> Digest, m: map<nat, seq<byte>>, a: Arrival): Result<map<nat, seq<byte>>> {
    if a.sequence in m then
      if digest(m[a.sequence]) != digest(a.payload) then Rejected(SequenceConflict) else Accepted(m)
    else if a.payload == [] then Rejected(EmptyFrame)
    else if |a.payload| > MAX_FRAME_BYTES then Rejected(FrameTooLarge)
    else if Total(m) + |a.payload| > MAX_TURN_AUDIO_BYTES then Rejected(TurnAudioLimitExceeded)
    else if |m| >= MAX_FRAMES_PER_TURN then Rejected(FrameLimitExceeded)
    else Accepted(m[a.sequence := a.payload])
  }

  /** What each rejection of a frame means. */
  lemma RejectionsMean(digest: seq<byte> -> Digest, m: map<nat, seq<byte>>, a: Arrival)
    ensures var r, n := Ingest(digest, m, a), |a.payload|;
      && (r == Rejected(SequenceConflict) <==> a.sequence in m && digest(m[a.sequence]) != digest(a.payload))
      && (a.sequence in m && digest(m[a.sequence]) == digest(a.payload) ==> r == Accepted(m))
      && (r == Rejected(EmptyFrame) <==> a.sequence !in m && n == 0)
      && (r == Rejected(FrameTooLarge) <==> a.sequence !in m && n > 4096)
      && (r == Rejected(TurnAudioLimitExceeded) <==> a.sequence !in m && 0 < n <= 4096 && Total(m) + n > 256000)
      && (r == Rejected(FrameLimitExceeded) <==>
            a.sequence !in m && 0 < n <= 4096 && Total(m) + n <= 256000 && |m| >= 1024)
      && (a.sequence !in m && 0 < n <= 4096 && Total(m) + n <= 256000 && |m| < 1024 ==>
            r == Accepted(m[a.sequence := a.payload]))
  {
  }

  /** The frames of a turn in arrival order; nothing after the first rejection. */
  ghost function IngestAll(digest: seq<byte> -> Digest, arrivals: seq<Arrival>): Result<map<nat, seq<byte>>> {
    if arrivals == [] then Accepted(map[])
    else
      var before := IngestAll(digest, arrivals[..|arrivals| - 1]);
      if before.Rejected? then before else Ingest(digest, before.value, arrivals[|arrivals| - 1])
  }

  /** The first `k` frames of a batch, on top of a table. */
  ghost function After(digest: seq<byte> -> Digest, m: map<nat, seq<byte>>, batch: seq<Arrival>, k: nat): Result<map<nat, seq<byte>>>
    requires k <= |batch|
  {
    if k == 0 then Accepted(m)
    else
      var before := After(digest, m, batch, k - 1);
      if before.Rejected? then before else Ingest(digest, before.value, batch[k - 1])
  }

  /** A turn may arrive in any grouping into messages. */
  lemma {:induction false} GroupingDoesNotMatter(digest: seq<byte> -> Digest, first: seq<Arrival>, batch: seq<Arrival>, k: nat)
    requires k <= |batch|
    ensures var before := IngestAll(digest, first);
      IngestAll(digest, first + batch[..k])
        == if before.Rejected? then before else After(digest, before.value, batch, k)
  {
    if k == 0 {
      assert first + batch[..0] == first;
    } else {
      var longer := first + batch[..k];
      assert longer == first + batch[..k - 1] + [batch[k - 1]];
      assert longer[..|longer| - 1] == first + batch[..k - 1];
      GroupingDoesNotMatter(digest, first, batch, k - 1);
    }
  }

  /** The largest h with 0..h all in the table, or -1. */
  ghost predicate IsHighestContiguous(keys: set<nat>, h: int) {
    -1 <= h && (forall i: nat :: i <= h ==> i in keys) && h + 1 !in keys
  }

  /** A turn's frames on the server: `_frames[turn_id]` and the turn's state machine. */
  class TurnFrames {
    const digest: seq<byte> -> Digest
    var frames: map<nat, seq<byte>>
    var digests: map<nat, Digest>
    var audioBytes: nat
    var highestContiguous: int

    ghost predicate Valid()
      reads this
    {
      && digests.Keys == frames.Keys
      && (forall k <- frames :: digests[k] == digest(frames[k]))
      && audioBytes == Total(frames)
      && IsHighestContiguous(frames.Keys, highestContiguous)
    }

    constructor (digest: seq<byte> -> Digest)
      ensures Valid() && this.digest == digest && frames == map[]
    {
      this.digest := digest;
      frames, digests, audioBytes, highestContiguous := map[], map[], 0, -1;
    }

    method RecordFrame(sequence: nat, d: Digest) returns (ok: bool)
      requires digests.Keys == frames.Keys && IsHighestContiguous(digests.Keys, highestContiguous)
      modifies this`digests, this`highestContiguous
      ensures ok <==> |frames| < MAX_FRAMES_PER_TURN
      ensures ok ==> digests == old(digests)[sequence := d] && IsHighestContiguous(digests.Keys, highestContiguous)
      ensures !ok ==> digests == old(digests) && highestContiguous == old(highestContiguous)
    {
      assert |digests| == |digests.Keys| && |frames| == |frames.Keys|;
      if |digests| >= MAX_FRAMES_PER_TURN {
        return false;
      }
      digests := digests[sequence := d];
      ghost var above := set k | k in digests.Keys && k > highestContiguous;
      while highestContiguous + 1 in digests
        invariant digests == old(digests)[sequence := d] && -1 <= highestContiguous
        invariant forall i: nat :: i <= highestContiguous ==> i in digests.Keys
        invariant above == set k | k in digests.Keys && k > highestContiguous
        decreases above
      {
        assert highestContiguous + 1 in digests.Keys;
        highestContiguous := highestContiguous + 1;
        ghost var less := set k | k in digests.Keys && k > highestContiguous;
        assert less < above by {
          assert highestContiguous in above && highestContiguous !in less;
        }
        above := less;
      }
      return true;
    }

    method IngestFrame(a: Arrival) returns (r: Result<int>)
      requires Valid()
      modifies this
      ensures Valid()
      ensures Ingest(digest, old(frames), a) == if r.Accepted? then Accepted(frames) else Rejected(r.code)
      ensures if r.Accepted? then r.value == highestContiguous else frames == old(frames)
    {
      var d := digest(a.payload);
      if a.sequence in digests {
        if digests[a.sequence] != d {
          return Rejected(SequenceConflict);
        }
        return Accepted(highestContiguous);
      }
      if |a.payload| == 0 {
        return Rejected(EmptyFrame);
      }
      if |a.payload| > MAX_FRAME_BYTES {
        return Rejected(FrameTooLarge);
      }
      if audioBytes + |a.payload| > MAX_TURN_AUDIO_BYTES {
        return Rejected(TurnAudioLimitExceeded);
      }
      var recorded := RecordFrame(a.sequence, d);
      if !recorded {
        return Rejected(FrameLimitExceeded);
      }
      audioBytes := audioBytes + |a.payload|;
      TotalWith(frames, a.sequence, a.payload);
      frames := frames[a.sequence := a.payload];
      return Accepted(highestContiguous);
    }

    /** Frames one by one, up to the first that is rejected; `taken` of them are accepted. */
    method IngestFrames(batch: seq<Arrival>) returns (r: Result<int>, taken: nat)
      requires Valid()
      modifies this
      ensures Valid() && taken <= |batch| && After(digest, old(frames), batch, taken) == Accepted(frames)
      ensures if r.Accepted? then taken == |batch|
              else taken < |batch| && Ingest(digest, frames, batch[taken]) == Rejected(r.code)
    {
      r, taken := Accepted(highestContiguous), 0;
      while taken < |batch|
        invariant Valid() && r.Accepted? && taken <= |batch|
        invariant After(digest, old(frames), batch, taken) == Accepted(frames)
      {
        r := IngestFrame(batch[taken]);
        if r.Rejected? {
          return;
        }
        taken := taken + 1;
      }
    }

    /** A binary message: nothing of it is taken unless it parses. */
    method HandleBinary(body: seq<byte>) returns (r: Result<int>, taken: nat)
      requires Valid()
      modifies this
      ensures Valid()
      ensures match Parsed(body)
        case Rejected(code) => r == Rejected(code) && frames == old(frames)
        case Accepted(batch) =>
          && taken <= |batch| && After(digest, old(frames), batch, taken) == Accepted(frames)
          && (r.Accepted? <==> taken == |batch|)
          && (taken < |batch| ==> Ingest(digest, frames, batch[taken]) == Rejected(r.code))
    {
      var parsed := ParseBinaryFrames(body);
      if parsed.Rejected? {
        return Rejected(parsed.code), 0;
      }
      r, taken := IngestFrames(parsed.value);
    }
  }

  // ---------------------------------------------------------------- acceptance

  predicate Agree(digest: seq<byte> -> Digest, p: seq<byte>, q: seq<byte>) {
    digest(p) == digest(q) ==> p == q
  }

  /** No two different payloads of the turn have the same digest. */
  ghost predicate NoCollision(digest: seq<byte> -> Digest, arrivals: seq<Arrival>) {
    forall i, j :: 0 <= i < |arrivals| && 0 <= j < |arrivals| ==>
      Agree(digest, arrivals[i].payload, arrivals[j].payload)
  }

  /** The table that a sequence of frames asks for: the first payload of every number. */
  function Table(arrivals: seq<Arrival>): (m: map<nat, seq<byte>>) {
    if arrivals == [] then map[]
    else
      var m := Table(arrivals[..|arrivals| - 1]);
      var a := arrivals[|arrivals| - 1];
      if a.sequence in m then m else m[a.sequence := a.payload]
  }

  predicate Compatible(a: Arrival, b: Arrival) { a.sequence == b.sequence ==> a.payload == b.payload }

  /** No number comes with two payloads. */
  ghost predicate Functional(arrivals: seq<Arrival>) {
    forall i, j :: 0 <= i < |arrivals| && 0 <= j < |arrivals| ==> Compatible(arrivals[i], arrivals[j])
  }

  ghost predicate AllSized(arrivals: seq<Arrival>) {
    forall i :: 0 <= i < |arrivals| ==> 0 < |arrivals[i].payload| <= MAX_FRAME_BYTES
  }

  /** What the limits ask of a turn, said without any order of arrival. */
  ghost predicate Admissible(arrivals: seq<Arrival>) {
    && Functional(arrivals) && AllSized(arrivals)
    && Total(Table(arrivals)) <= MAX_TURN_AUDIO_BYTES
    && |Table(arrivals)| <= MAX_FRAMES_PER_TURN
  }

  lemma {:induction false} TableHolds(arrivals: seq<Arrival>)
    ensures forall i :: 0 <= i < |arrivals| ==> arrivals[i].sequence in Table(arrivals)
    ensures forall k <- Table(arrivals) :: exists i :: 0 <= i < |arrivals| && arrivals[i] == Arrival(k, Table(arrivals)[k])
  {
    if arrivals != [] {
      var n := |arrivals| - 1;
      var shorter := arrivals[..n];
      TableHolds(shorter);
      forall k | k in Table(arrivals)
        ensures exists i :: 0 <= i < |arrivals| && arrivals[i] == Arrival(k, Table(arrivals)[k])
      {
        if k in Table(shorter) {
          var i :| 0 <= i < |shorter| && shorter[i] == Arrival(k, Table(shorter)[k]);
          assert arrivals[i] == Arrival(k, Table(arrivals)[k]);
        } else {
          assert arrivals[n] == Arrival(k, Table(arrivals)[k]);
        }
      }
      forall i | 0 <= i < |arrivals|
        ensures arrivals[i].sequence in Table(arrivals)
      {
        assert i < n ==> shorter[i] == arrivals[i];
      }
    }
  }

  lemma {:induction false} FunctionalSnoc(arrivals: seq<Arrival>, a: Arrival)
    ensures Functional(arrivals + [a]) <==>
              Functional(arrivals) && (a.sequence in Table(arrivals) ==> Table(arrivals)[a.sequence] == a.payload)
  {
    var more, m := arrivals + [a], Table(arrivals);
    TableHolds(arrivals);
    if Functional(more) {
      forall i, j | 0 <= i < |arrivals| && 0 <= j < |arrivals|
        ensures Compatible(arrivals[i], arrivals[j])
      {
        assert Compatible(more[i], more[j]);
      }
      if a.sequence in m {
        var i :| 0 <= i < |arrivals| && arrivals[i] == Arrival(a.sequence, m[a.sequence]);
        assert Compatible(more[i], more[|arrivals|]);
      }
    } else {
      var i, j :| 0 <= i < |more| && 0 <= j < |more| && !Compatible(more[i], more[j]);
      if Functional(arrivals) {
        var k := if i < |arrivals| then i else j;
        assert more[k] == arrivals[k] && arrivals[k].sequence == a.sequence && arrivals[k].payload != a.payload;
        var l :| 0 <= l < |arrivals| && arrivals[l] == Arrival(a.sequence, m[a.sequence]);
        assert Compatible(arrivals[k], arrivals[l]);
      }
    }
  }

  lemma {:induction false} SizedSnoc(arrivals: seq<Arrival>, a: Arrival)
    ensures AllSized(arrivals + [a]) <==> AllSized(arrivals) && 0 < |a.payload| <= MAX_FRAME_BYTES
  {
    var more := arrivals + [a];
    assert more[|arrivals|] == a;
    assert AllSized(more) ==> forall i :: 0 <= i < |arrivals| ==> arrivals[i] == more[i];
  }

  /** A number that was seen before: its payload decides, through the digest. */
  lemma {:induction false} SeenBefore(digest: seq<byte> -> Digest, arrivals: seq<Arrival>, a: Arrival)
    requires NoCollision(digest, arrivals + [a]) && a.sequence in Table(arrivals)
    ensures var p := Table(arrivals)[a.sequence];
      && Agree(digest, p, a.payload)
      && (AllSized(arrivals) ==> 0 < |p| <= MAX_FRAME_BYTES)
  {
    var more := arrivals + [a];
    TableHolds(arrivals);
    var i :| 0 <= i < |arrivals| && arrivals[i] == Arrival(a.sequence, Table(arrivals)[a.sequence]);
    assert more[i] == arrivals[i];
    assert Agree(digest, more[i].payload, more[|arrivals|].payload);
  }

  /** One more frame: it is accepted exactly when the longer turn is still admissible. */
  lemma {:induction false} AdmissibleSnoc(digest: seq<byte> -> Digest, arrivals: seq<Arrival>, a: Arrival)
    requires NoCollision(digest, arrivals + [a])
    ensures Admissible(arrivals + [a]) <==>
              Admissible(arrivals) && Ingest(digest, Table(arrivals), a).Accepted?
    ensures Admissible(arrivals + [a]) ==> Ingest(digest, Table(arrivals), a).value == Table(arrivals + [a])
  {
    assert (arrivals + [a])[..|arrivals|] == arrivals;
    FunctionalSnoc(arrivals, a);
    SizedSnoc(arrivals, a);
    if a.sequence in Table(arrivals) {
      SeenBefore(digest, arrivals, a);
    } else {
      TotalWith(Table(arrivals), a.sequence, a.payload);
    }
  }

  /** Acceptance of a whole turn, characterised: all frames are accepted exactly when they are
      admissible, and then the table holds every number's payload. */
  lemma {:induction false} AcceptedIffAdmissible(digest: seq<byte> -> Digest, arrivals: seq<Arrival>)
    requires NoCollision(digest, arrivals)
    ensures IngestAll(digest, arrivals).Accepted? <==> Admissible(arrivals)
    ensures IngestAll(digest, arrivals).Accepted? ==> IngestAll(digest, arrivals).value == Table(arrivals)
    decreases |arrivals|
  {
    if arrivals == [] {
      assert Table(arrivals) == map[] && Total(map[]) == 0;
    } else {
      var n := |arrivals| - 1;
      assert arrivals == arrivals[..n] + [arrivals[n]];
      AcceptedIffAdmissible(digest, arrivals[..n]);
      AdmissibleSnoc(digest, arrivals[..n], arrivals[n]);
    }
  }

  /** The frames of a turn as a set. */
  function AsSet(arrivals: seq<Arrival>): set<Arrival> { set i | 0 <= i < |arrivals| :: arrivals[i] }

  lemma {:induction false} TableDependsOnSet(a: seq<Arrival>, b: seq<Arrival>)
    requires AsSet(a) == AsSet(b) && Functional(a)
    ensures Functional(b) && Table(a) == Table(b) && (AllSized(a) ==> AllSized(b))
  {
    forall i | 0 <= i < |b|
      ensures exists j :: 0 <= j < |a| && a[j] == b[i]
    {
      assert b[i] in AsSet(b);
    }
    forall i, j | 0 <= i < |b| && 0 <= j < |b|
      ensures Compatible(b[i], b[j])
    {
      var k :| 0 <= k < |a| && a[k] == b[i];
      var l :| 0 <= l < |a| && a[l] == b[j];
      assert Compatible(a[k], a[l]);
    }
    TableMatches(a, b);
    TableMatches(b, a);
    assert Table(a).Keys == Table(b).Keys;
  }

  lemma {:induction false} TableMatches(a: seq<Arrival>, b: seq<Arrival>)
    requires AsSet(a) <= AsSet(b) && Functional(b)
    ensures forall k <- Table(a) :: k in Table(b) && Table(b)[k] == Table(a)[k]
  {
    TableHolds(a);
    TableHolds(b);
    forall k | k in Table(a)
      ensures k in Table(b) && Table(b)[k] == Table(a)[k]
    {
      var i :| 0 <= i < |a| && a[i] == Arrival(k, Table(a)[k]);
      assert a[i] in AsSet(a);
      var j :| 0 <= j < |b| && b[j] == a[i];
      var l :| 0 <= l < |b| && b[l] == Arrival(k, Table(b)[k]);
      assert Compatible(b[j], b[l]);
    }
  }

  /** Arrival order and repetitions do not matter, neither for acceptance nor for the table. */
  lemma {:induction false} OrderDoesNotMatter(digest: seq<byte> -> Digest, a: seq<Arrival>, b: seq<Arrival>)
    requires AsSet(a) == AsSet(b) && NoCollision(digest, a) && NoCollision(digest, b)
    ensures IngestAll(digest, a).Accepted? <==> IngestAll(digest, b).Accepted?
    ensures IngestAll(digest, a).Accepted? ==> IngestAll(digest, a) == IngestAll(digest, b)
  {
    AcceptedIffAdmissible(digest, a);
    AcceptedIffAdmissible(digest, b);
    if Functional(a) {
      TableDependsOnSet(a, b);
      TableDependsOnSet(b, a);
    } else if Functional(b) {
      TableDependsOnSet(b, a);
    }
  }

  // ---------------------------------------------------------------- reassembly

  /** The payloads in sequence order, if the numbers are 0, 1, 2, … without a gap. */
  ghost function Reassembled(frames: map<nat, seq<byte>>): Result<seq<seq<byte>>> {
    if forall i: nat :: i < |frames| ==> i in frames then
      Accepted(seq(|frames|, i requires 0 <= i < |frames| => frames[i]))
    else Rejected(SequenceGap)
  }

  method ReassembleTurn(frames: map<nat, seq<byte>>) returns (r: Result<seq<seq<byte>>>)
    ensures r == Reassembled(frames)
  {
    var framed := [];
    for k := 0 to |frames|
      invariant |framed| == k
      invariant forall i: nat :: i < k ==> i in frames && framed[i] == frames[i]
    {
      if k !in frames {
        return Rejected(SequenceGap);
      }
      framed := framed + [frames[k]];
    }
    assert Reassembled(frames).Accepted? && framed == Reassembled(frames).value;
    return Accepted(framed);
  }

  lemma {:induction false} InitialSegment(keys: set<nat>, n: nat)
    requires |keys| == n && forall i: nat :: i < n ==> i in keys
    ensures forall k <- keys :: k < n
    decreases n
  {
    if n > 0 {
      var fewer := keys - {n - 1};
      InitialSegment(fewer, n - 1);
      assert forall k <- keys :: k == n - 1 || k in fewer;
    } else {
      assert keys == {};
    }
  }

  /** Reassembly rejects exactly the tables that miss a number below one they have. (A number missing
      at the very end leaves no trace: the server is not told how many frames there are.) */
  lemma {:induction false} RejectsExactlyTheGaps(frames: map<nat, seq<byte>>)
    ensures Reassembled(frames).Rejected? <==> exists i: nat, k: nat :: i < k && k in frames && i !in frames
  {
    assert |frames| == |frames.Keys|;
    if Reassembled(frames).Accepted? {
      InitialSegment(frames.Keys, |frames|);
    } else if forall i: nat, k: nat :: i < k && k in frames ==> i in frames {
      var i: nat :| i < |frames| && i !in frames;
      forall k | k in frames
        ensures k < i
      {
        assert k != i;
      }
      BelowBound(frames.Keys, i);
    }
  }

  lemma {:induction false} BelowBound(keys: set<nat>, n: nat)
    requires forall k <- keys :: k < n
    ensures |keys| <= n
    decreases n
  {
    if n > 0 {
      BelowBound(keys - {n - 1}, n - 1);
    } else {
      assert keys == {};
    }
  }

  // ---------------------------------------------------------------- both ends together

  /** Frame i of what the device sent. */
  function SentFrame(encoder: Uplink.Encoder, past: seq<seq<byte>>, inputs: seq<seq<byte>>, i: nat): Arrival
    requires i < |inputs| && Uplink.Usable(encoder(past + inputs[..i + 1]))
  {
    Arrival(i, Uplink.Payload(encoder(past + inputs[..i + 1]).data))
  }

  /** What the device sent, frame by frame. */
  ghost function SentFrames(encoder: Uplink.Encoder, past: seq<seq<byte>>, inputs: seq<seq<byte>>,
                            messages: seq<seq<byte>>): (r: seq<Arrival>)
    requires Uplink.SentWell(encoder, past, inputs, messages)
    ensures |r| == |inputs| == |messages|
  {
    Uplink.SentWellMeans(encoder, past, inputs, messages);
    seq(|inputs|, i requires 0 <= i < |inputs| =>
      assert Uplink.SentAt(encoder, past, inputs, messages[i], i);
      SentFrame(encoder, past, inputs, i))
  }

  function PayloadsOf(frames: seq<Arrival>): (r: seq<seq<byte>>)
    ensures |r| == |frames|
  {
    seq(|frames|, i requires 0 <= i < |frames| => frames[i].payload)
  }

  predicate Numbered(frames: seq<Arrival>) {
    forall i :: 0 <= i < |frames| ==> frames[i].sequence == i
  }

  lemma {:induction false} OneFrameParses(a: Arrival)
    requires Encodable(a.sequence, a.payload)
    ensures Parsed(Bare(Frame(a.sequence, a.payload))) == Accepted([a])
  {
    ParseInvertsPrint([a]);
    var p := Frame(a.sequence, a.payload);
    assert Printed([a]) == [p];
    assert Wire([p]) == Bare(p) + Wire([]) == Bare(p);
  }

  /** A message of the device is its frame on the wire. */
  lemma {:induction false} FrameOfMessage(encoder: Uplink.Encoder, past: seq<seq<byte>>, inputs: seq<seq<byte>>,
                                          messages: seq<seq<byte>>, i: nat)
    requires Uplink.SentWell(encoder, past, inputs, messages) && i < |inputs| <= TWO_TO_THE_32
    ensures |messages| == |inputs|
    ensures var a := SentFrames(encoder, past, inputs, messages)[i];
      Encodable(a.sequence, a.payload) && messages[i] == Bare(Frame(a.sequence, a.payload))
  {
    Uplink.SentWellMeans(encoder, past, inputs, messages);
    assert Uplink.SentAt(encoder, past, inputs, messages[i], i);
    OneMessage(encoder, past, inputs, messages[i], i);
  }

  lemma {:induction false} OneMessage(encoder: Uplink.Encoder, past: seq<seq<byte>>, inputs: seq<seq<byte>>,
                                      message: seq<byte>, i: nat)
    requires i < |inputs| <= TWO_TO_THE_32 && Uplink.SentAt(encoder, past, inputs, message, i)
    ensures var a := SentFrame(encoder, past, inputs, i);
      Encodable(a.sequence, a.payload) && message == Bare(Frame(a.sequence, a.payload))
  {
    var data := encoder(past + inputs[..i + 1]).data;
    assert SentFrame(encoder, past, inputs, i) == Arrival(i, Uplink.Payload(data));
    assert i % TWO_TO_THE_32 == i && message == Uplink.Message(i, data);
    Uplink.MessageIsFrame(i, data);
  }

  /** The server's parser takes every message of the device for the one frame it is. */
  lemma {:induction false} MessagesParseBack(encoder: Uplink.Encoder, past: seq<seq<byte>>, inputs: seq<seq<byte>>,
                                             messages: seq<seq<byte>>, i: nat)
    requires Uplink.SentWell(encoder, past, inputs, messages) && i < |inputs| == |messages| <= TWO_TO_THE_32
    ensures Parsed(messages[i]) == Accepted([SentFrames(encoder, past, inputs, messages)[i]])
  {
    FrameOfMessage(encoder, past, inputs, messages, i);
    OneFrameParses(SentFrames(encoder, past, inputs, messages)[i]);
  }

  lemma {:induction false} GrowsByOne(m: map<nat, seq<byte>>, k: nat, payload: seq<byte>)
    requires k !in m
    ensures |m[k := payload]| == |m| + 1
  {
    assert m[k := payload].Keys == m.Keys + {k};
    assert |m[k := payload].Keys| == |m.Keys| + 1;
  }

  lemma {:induction false} NumberedTable(frames: seq<Arrival>)
    requires Numbered(frames)
    ensures forall k: nat :: k in Table(frames) <==> k < |frames|
    ensures forall i :: 0 <= i < |frames| ==> Table(frames)[i] == frames[i].payload
    ensures |Table(frames)| == |frames|
    decreases |frames|
  {
    if frames != [] {
      var n := |frames| - 1;
      var shorter, m := frames[..n], Table(frames[..n]);
      NumberedTable(shorter);
      assert forall i :: 0 <= i < n ==> shorter[i] == frames[i];
      GrowsByOne(m, n, frames[n].payload);
    }
  }

  lemma {:induction false} TableTotalMore(frames: seq<Arrival>)
    requires Numbered(frames) && frames != []
    ensures var n := |frames| - 1;
      Total(Table(frames)) == Total(Table(frames[..n])) + |frames[n].payload|
  {
    var n := |frames| - 1;
    NumberedTable(frames[..n]);
    TotalWith(Table(frames[..n]), n, frames[n].payload);
  }

  lemma {:induction false} PayloadsMore(frames: seq<Arrival>)
    requires frames != []
    ensures var n := |frames| - 1;
      |Flatten(PayloadsOf(frames))| == |Flatten(PayloadsOf(frames[..n]))| + |frames[n].payload|
  {
    var n := |frames| - 1;
    FlattenSnoc(PayloadsOf(frames[..n]), frames[n].payload);
    assert PayloadsOf(frames) == PayloadsOf(frames[..n]) + [frames[n].payload];
  }

  lemma {:induction false} NumberedTotal(frames: seq<Arrival>)
    requires Numbered(frames)
    ensures Total(Table(frames)) == |Flatten(PayloadsOf(frames))|
    decreases |frames|
  {
    if frames == [] {
      assert Table(frames) == map[];
      assert PayloadsOf(frames) == [];
    } else {
      var n := |frames| - 1;
      var shorter := frames[..n];
      NumberedTotal(shorter);
      TableTotalMore(frames);
      PayloadsMore(frames);
    }
  }

  /** The uplink theorem. Let the server get the frames of a turn in any order, with any repetitions.
      It accepts them exactly when they keep its limits, and then reassembles what the encoder made,
      in the order the device made it. */
  lemma {:induction false} UplinkRoundTrip(digest: seq<byte> -> Digest, sent: seq<Arrival>, arrivals: seq<Arrival>)
    requires Numbered(sent) && AsSet(arrivals) == AsSet(sent)
    requires NoCollision(digest, arrivals)
    ensures IngestAll(digest, arrivals).Accepted? <==>
              && |sent| <= MAX_FRAMES_PER_TURN && AllSized(sent)
              && |Flatten(PayloadsOf(sent))| <= MAX_TURN_AUDIO_BYTES
    ensures IngestAll(digest, arrivals).Accepted? ==>
              Reassembled(IngestAll(digest, arrivals).value) == Accepted(PayloadsOf(sent))
  {
    NumberedTable(sent);
    NumberedTotal(sent);
    AcceptedIffAdmissible(digest, arrivals);
    TableDependsOnSet(sent, arrivals);
    TableDependsOnSet(arrivals, sent);
    var m := Table(sent);
    assert Reassembled(m).Accepted? && Reassembled(m).value == PayloadsOf(sent);
  }

  lemma {:induction false} AbsentNumber(arrivals: seq<Arrival>, i: nat)
    requires forall j :: 0 <= j < |arrivals| ==> arrivals[j].sequence != i
    ensures i !in Table(arrivals)
    decreases |arrivals|
  {
    if arrivals != [] {
      AbsentNumber(arrivals[..|arrivals| - 1], i);
    }
  }

  /** And a frame that is missing while a later one arrived is always noticed. */
  lemma {:induction false} MissingFrameIsNoticed(digest: seq<byte> -> Digest, sent: seq<Arrival>, arrivals: seq<Arrival>,
                                                 i: nat, k: nat)
    requires Numbered(sent) && AsSet(arrivals) <= AsSet(sent) && NoCollision(digest, arrivals)
    requires i < k < |sent| && sent[i] !in arrivals && sent[k] in arrivals
    requires IngestAll(digest, arrivals).Accepted?
    ensures Reassembled(IngestAll(digest, arrivals).value) == Rejected(SequenceGap)
  {
    AcceptedIffAdmissible(digest, arrivals);
    var m := Table(arrivals);
    TableHolds(arrivals);
    forall j | 0 <= j < |arrivals|
      ensures arrivals[j].sequence != i
    {
      assert arrivals[j] in AsSet(arrivals);
      var l :| 0 <= l < |sent| && sent[l] == arrivals[j];
      assert sent[l].sequence == l;
    }
    AbsentNumber(arrivals, i);
    RejectsExactlyTheGaps(m);
    assert k in m;
  }

  // ---------------------------------------------------------------- from the device's messages to the server's audio

  /** One more binary message, parsed or refused by the parser, on top of a table. */
  ghost function AfterBody(digest: seq<byte> -> Digest, m: map<nat, seq<byte>>, parsed: Result<seq<Arrival>>)
    : Result<map<nat, seq<byte>>>
  {
    match parsed
    case Rejected(code) => Rejected(code)
    case Accepted(batch) => After(digest, m, batch, |batch|)
  }

  ghost function ParsedEach(bodies: seq<seq<byte>>): (r: seq<Result<seq<Arrival>>>)
    ensures |r| == |bodies|
  {
    seq(|bodies|, i requires 0 <= i < |bodies| => Parsed(bodies[i]))
  }

  /** What the server has after the first `k` of a sequence of binary messages; the first rejection stays. */
  ghost function TakenUpTo(digest: seq<byte> -> Digest, parsed: seq<Result<seq<Arrival>>>, k: nat)
    : Result<map<nat, seq<byte>>>
    requires k <= |parsed|
  {
    if k == 0 then Accepted(map[])
    else
      var before := TakenUpTo(digest, parsed, k - 1);
      if before.Rejected? then before else AfterBody(digest, before.value, parsed[k - 1])
  }

  ghost function Received(digest: seq<byte> -> Digest, bodies: seq<seq<byte>>): Result<map<nat, seq<byte>>> {
    TakenUpTo(digest, ParsedEach(bodies), |bodies|)
  }

  lemma {:induction false} RejectionStays(digest: seq<byte> -> Digest, m: map<nat, seq<byte>>, batch: seq<Arrival>, k: nat)
    requires k < |batch| && After(digest, m, batch, k).Rejected?
    ensures After(digest, m, batch, k + 1).Rejected?
  {
  }

  lemma {:induction false} RejectionLasts(digest: seq<byte> -> Digest, m: map<nat, seq<byte>>, batch: seq<Arrival>, k: nat)
    requires k <= |batch| && After(digest, m, batch, k).Rejected?
    ensures After(digest, m, batch, |batch|).Rejected?
    decreases |batch| - k
  {
    if k < |batch| {
      RejectionStays(digest, m, batch, k);
      RejectionLasts(digest, m, batch, k + 1);
    }
  }

  method ReceiveBinary(turn: TurnFrames, body: seq<byte>) returns (ok: bool)
    requires turn.Valid()
    modifies turn
    ensures turn.Valid()
    ensures if ok then AfterBody(turn.digest, old(turn.frames), Parsed(body)) == Accepted(turn.frames)
            else AfterBody(turn.digest, old(turn.frames), Parsed(body)).Rejected?
  {
    ghost var before, parsed := turn.frames, Parsed(body);
    var r, taken := turn.HandleBinary(body);
    ok := r.Accepted?;
    if !ok && parsed.Accepted? {
      RejectedAt(turn.digest, before, parsed.value, taken, turn.frames);
    }
  }

  lemma {:induction false} RejectedAt(digest: seq<byte> -> Digest, m: map<nat, seq<byte>>, batch: seq<Arrival>, k: nat,
                                      after: map<nat, seq<byte>>)
    requires k < |batch| && After(digest, m, batch, k) == Accepted(after) && Ingest(digest, after, batch[k]).Rejected?
    ensures After(digest, m, batch, |batch|).Rejected?
  {
    RejectionLasts(digest, m, batch, k + 1);
  }

  method ReceiveAll(turn: TurnFrames, bodies: seq<seq<byte>>) returns (ok: bool)
    requires turn.Valid() && turn.frames == map[]
    modifies turn
    ensures turn.Valid() && (ok <==> Received(turn.digest, bodies).Accepted?)
    ensures ok ==> Received(turn.digest, bodies) == Accepted(turn.frames)
  {
    ghost var parsed := ParsedEach(bodies);
    for k := 0 to |bodies|
      invariant turn.Valid() && TakenUpTo(turn.digest, parsed, k) == Accepted(turn.frames)
    {
      ok := ReceiveBinary(turn, bodies[k]);
      if !ok {
        StaysRejected(turn.digest, parsed, k + 1);
        return;
      }
    }
    ok := true;
  }

  /** The server's half of a turn: all binary messages, then the reassembly. */
  method ReceiveTurn(turn: TurnFrames, bodies: seq<seq<byte>>) returns (ok: bool, audio: Result<seq<seq<byte>>>)
    requires turn.Valid() && turn.frames == map[]
    modifies turn
    ensures turn.Valid() && (ok <==> Received(turn.digest, bodies).Accepted?)
    ensures ok ==> audio == Reassembled(Received(turn.digest, bodies).value)
  {
    ok := ReceiveAll(turn, bodies);
    audio := ReassembleTurn(turn.frames);
  }

  lemma {:induction false} StaysRejected(digest: seq<byte> -> Digest, parsed: seq<Result<seq<Arrival>>>, k: nat)
    requires k <= |parsed| && TakenUpTo(digest, parsed, k).Rejected?
    ensures TakenUpTo(digest, parsed, |parsed|).Rejected?
    decreases |parsed| - k
  {
    if k < |parsed| {
      StaysRejected(digest, parsed, k + 1);
    }
  }

  predicate Places(group: seq<nat>, n: nat) { forall i :: 0 <= i < |group| ==> group[i] < n }

  /** The elements at the given places. */
  function Pick<T>(s: seq<T>, places: seq<nat>): (r: seq<T>)
    requires Places(places, |s|)
    ensures |r| == |places|
  {
    seq(|places|, i requires 0 <= i < |places| => s[places[i]])
  }

  /** Every place below n is in some group, and no other is in any. */
  ghost predicate Covers(groups: seq<seq<nat>>, n: nat) {
    && (forall g :: 0 <= g < |groups| ==> Places(groups[g], n))
    && (forall m :: 0 <= m < n ==> Covered(groups, m))
  }

  ghost predicate Covered(groups: seq<seq<nat>>, m: nat) { exists g :: 0 <= g < |groups| && m in groups[g] }

  /** How messages can reach the server: each body is some messages of the device back to back, every
      message is in some body, in any order and as often as it likes. */
  ghost predicate Delivers(messages: seq<seq<byte>>, groups: seq<seq<nat>>, bodies: seq<seq<byte>>) {
    && |groups| == |bodies| && Covers(groups, |messages|)
    && (forall g :: 0 <= g < |groups| ==> groups[g] != [] && bodies[g] == Flatten(Pick(messages, groups[g])))
  }

  lemma {:induction false} WireOfGroup(frames: seq<Arrival>, bodies: seq<seq<byte>>)
    requires Printable(frames) && |bodies| == |frames|
    requires forall i :: 0 <= i < |frames| ==> bodies[i] == Bare(Frame(frames[i].sequence, frames[i].payload))
    ensures Wire(Printed(frames)) == Flatten(bodies)
    decreases |frames|
  {
    if frames != [] {
      WireOfGroup(frames[1..], bodies[1..]);
      assert Printed(frames)[1..] == Printed(frames[1..]);
    }
  }

  /** A body of several messages parses to their frames. */
  lemma {:induction false} GroupParsesBack(encoder: Uplink.Encoder, past: seq<seq<byte>>, inputs: seq<seq<byte>>,
                                           messages: seq<seq<byte>>, group: seq<nat>)
    requires Uplink.SentWell(encoder, past, inputs, messages) && |inputs| <= TWO_TO_THE_32 && |messages| == |inputs|
    requires group != [] && Places(group, |messages|)
    ensures Parsed(Flatten(Pick(messages, group))) == Accepted(Pick(SentFrames(encoder, past, inputs, messages), group))
  {
    var sent := SentFrames(encoder, past, inputs, messages);
    var frames, bodies := Pick(sent, group), Pick(messages, group);
    forall i | 0 <= i < |group|
      ensures Encodable(frames[i].sequence, frames[i].payload)
      ensures bodies[i] == Bare(Frame(frames[i].sequence, frames[i].payload))
    {
      FrameOfMessage(encoder, past, inputs, messages, group[i]);
    }
    WireOfGroup(frames, bodies);
    ParseInvertsPrint(frames);
  }

  /** All arrivals of the first `k` bodies. */
  function Arrived(sent: seq<Arrival>, groups: seq<seq<nat>>, k: nat): seq<Arrival>
    requires k <= |groups|
    requires forall g :: 0 <= g < |groups| ==> Places(groups[g], |sent|)
  {
    if k == 0 then [] else Arrived(sent, groups, k - 1) + Pick(sent, groups[k - 1])
  }

  /** One more batch adds its frames. */
  lemma {:induction false} BatchIsItsFrames(digest: seq<byte> -> Digest, first: seq<Arrival>, batch: seq<Arrival>)
    ensures var before := IngestAll(digest, first);
      IngestAll(digest, first + batch)
        == if before.Rejected? then before else After(digest, before.value, batch, |batch|)
  {
    GroupingDoesNotMatter(digest, first, batch, |batch|);
    assert batch[..|batch|] == batch;
  }

  lemma {:induction false} ReceivedIsIngested(digest: seq<byte> -> Digest, sent: seq<Arrival>, groups: seq<seq<nat>>,
                                              parsed: seq<Result<seq<Arrival>>>, k: nat)
    requires |groups| == |parsed| && k <= |groups|
    requires forall g :: 0 <= g < |groups| ==> Places(groups[g], |sent|)
    requires forall g :: 0 <= g < |groups| ==> parsed[g] == Accepted(Pick(sent, groups[g]))
    ensures TakenUpTo(digest, parsed, k) == IngestAll(digest, Arrived(sent, groups, k))
  {
    if k > 0 {
      ReceivedIsIngested(digest, sent, groups, parsed, k - 1);
      assert Places(groups[k - 1], |sent|);
      var before, batch := Arrived(sent, groups, k - 1), Pick(sent, groups[k - 1]);
      assert parsed[k - 1] == Accepted(batch);
      BatchIsItsFrames(digest, before, batch);
    }
  }

  lemma {:induction false} ArrivedContents(sent: seq<Arrival>, groups: seq<seq<nat>>, k: nat)
    requires k <= |groups|
    requires forall g :: 0 <= g < |groups| ==> Places(groups[g], |sent|)
    ensures forall a :: a in Arrived(sent, groups, k) ==> a in sent
    ensures forall g, i :: 0 <= g < k && 0 <= i < |groups[g]| ==>
              Places(groups[g], |sent|) && sent[groups[g][i]] in Arrived(sent, groups, k)
  {
    if k > 0 {
      ArrivedContents(sent, groups, k - 1);
      var group := groups[k - 1];
      var batch := Pick(sent, group);
      assert Places(group, |sent|);
      forall i | 0 <= i < |group|
        ensures sent[group[i]] in batch
      {
        assert batch[i] == sent[group[i]];
      }
    }
  }

  /** The frames of a turn, delivered in bodies that parse to them. */
  lemma {:induction false} DeliveredRoundTrip(digest: seq<byte> -> Digest, sent: seq<Arrival>, groups: seq<seq<nat>>,
                                              bodies: seq<seq<byte>>)
    requires Numbered(sent) && NoCollision(digest, sent) && Covers(groups, |sent|) && |groups| == |bodies|
    requires forall g :: 0 <= g < |groups| ==> Parsed(bodies[g]) == Accepted(Pick(sent, groups[g]))
    ensures var got := Received(digest, bodies);
      && (got.Accepted? <==> && |sent| <= MAX_FRAMES_PER_TURN && AllSized(sent)
                             && |Flatten(PayloadsOf(sent))| <= MAX_TURN_AUDIO_BYTES)
      && (got.Accepted? ==> Reassembled(got.value) == Accepted(PayloadsOf(sent)))
  {
    ReceivedIsIngested(digest, sent, groups, ParsedEach(bodies), |groups|);
    DeliveredFrames(digest, sent, groups);
    UplinkRoundTrip(digest, sent, Arrived(sent, groups, |groups|));
  }

  /** The uplink from end to end. The device has sent a turn well; its messages reach the server in any
      order, with any repetitions and in any grouping. Unless two payloads collide under the digest, the
      server takes them all exactly when they keep its limits, and then gets the encoder's outputs, in
      the order the encoder made them. */
  lemma {:induction false} UplinkEndToEnd(digest: seq<byte> -> Digest, encoder: Uplink.Encoder, past: seq<seq<byte>>,
                                          inputs: seq<seq<byte>>, messages: seq<seq<byte>>, groups: seq<seq<nat>>,
                                          bodies: seq<seq<byte>>)
    requires Uplink.SentWell(encoder, past, inputs, messages) && |inputs| == |messages| <= TWO_TO_THE_32
    requires Delivers(messages, groups, bodies)
    requires NoCollision(digest, SentFrames(encoder, past, inputs, messages))
    ensures var sent := SentFrames(encoder, past, inputs, messages);
            var got := Received(digest, bodies);
      && (got.Accepted? <==> && |sent| <= MAX_FRAMES_PER_TURN && AllSized(sent)
                             && |Flatten(PayloadsOf(sent))| <= MAX_TURN_AUDIO_BYTES)
      && (got.Accepted? ==> Reassembled(got.value) == Accepted(PayloadsOf(sent)))
  {
    var sent := SentFrames(encoder, past, inputs, messages);
    assert Numbered(sent);
    forall g | 0 <= g < |groups|
      ensures Parsed(bodies[g]) == Accepted(Pick(sent, groups[g]))
    {
      GroupParsesBack(encoder, past, inputs, messages, groups[g]);
    }
    DeliveredRoundTrip(digest, sent, groups, bodies);
  }

  lemma {:induction false} DeliveredFrames(digest: seq<byte> -> Digest, sent: seq<Arrival>, groups: seq<seq<nat>>)
    requires Covers(groups, |sent|) && NoCollision(digest, sent)
    ensures var arrived := Arrived(sent, groups, |groups|);
      AsSet(arrived) == AsSet(sent) && NoCollision(digest, arrived)
  {
    var arrived := Arrived(sent, groups, |groups|);
    ArrivedContents(sent, groups, |groups|);
    forall m | 0 <= m < |sent|
      ensures sent[m] in arrived
    {
      assert Covered(groups, m);
      var g :| 0 <= g < |groups| && m in groups[g];
      var i :| 0 <= i < |groups[g]| && groups[g][i] == m;
    }
    SameElements(arrived, sent);
    forall i, j | 0 <= i < |arrived| && 0 <= j < |arrived|
      ensures Agree(digest, arrived[i].payload, arrived[j].payload)
    {
      assert arrived[i] in sent && arrived[j] in sent;
    }
  }

  lemma {:induction false} SameElements(a: seq<Arrival>, b: seq<Arrival>)
    requires (forall x :: x in a ==> x in b) && (forall x :: x in b ==> x in a)
    ensures AsSet(a) == AsSet(b)
  {
    forall x
      ensures x in AsSet(a) <==> x in AsSet(b)
    {
      assert x in AsSet(a) <==> x in a;
      assert x in AsSet(b) <==> x in b;
    }
  }
}
