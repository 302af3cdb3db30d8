/** Capture: the level of a chunk, the wait for speech with its preroll, and the voice-activity stop
    rule of the buffered and the streaming recorder. The microphone is an endless byte stream. */
module Capture {
  import opened Bytes

  /** `config.h`'s sizes and thresholds. */
  datatype Config = Config(
    chunk: nat, buffer: nat, minBytes: nat, silenceBytes: nat, startLevel: nat, silenceLevel: nat,
    preroll: nat, hold: nat)

  /** What `config.h` asserts about them, and that a starting chunk is not silent. */
  ghost predicate ValidConfig(c: Config) {
    && 0 < c.chunk && c.minBytes <= c.buffer && 0 < c.silenceBytes && c.silenceLevel < c.startLevel
    && 0 < c.hold && c.chunk <= c.preroll
  }

  // ---------------------------------------------------------------- the level of a chunk

  /** A little-endian 16-bit sample, two's complement. */
  function Sample(lo: byte, hi: byte): int {
    var raw := (lo as int) + 0x100 * hi;
    if raw < 0x8000 then raw else raw - TWO_TO_THE_16
  }

  function Abs(x: int): nat { if x < 0 then -x else x }

  /** The sum of the magnitudes of the first `n` samples. */
  function SumAbs(pcm: seq<byte>, n: nat): nat
    requires 2 * n <= |pcm|
  {
    if n == 0 then 0 else SumAbs(pcm, n - 1) + Abs(Sample(pcm[2 * n - 2], pcm[2 * n - 1]))
  }

  /** The mean, rounded down: how often the count goes into the sum. */
  function Mean(sum: nat, count: nat): nat
    requires count > 0
    decreases sum
  {
    if sum < count then 0 else 1 + Mean(sum - count, count)
  }

  lemma {:induction false} MeanBounds(sum: nat, count: nat)
    requires count > 0
    ensures var m := Mean(sum, count); m * count <= sum < m * count + count
    decreases sum
  {
    if sum >= count {
      MeanBounds(sum - count, count);
    }
  }

  lemma {:induction false} ProductsAreOrdered(a: nat, b: nat, n: nat)
    requires a <= b
    ensures a * n <= b * n
  {
    assert b * n == a * n + (b - a) * n;
  }

  lemma {:induction false} MeanIsQuotient(sum: nat, count: nat)
    requires count > 0
    ensures Mean(sum, count) == sum / count
  {
    var m, q := Mean(sum, count), sum / count;
    MeanBounds(sum, count);
    assert q * count <= sum < q * count + count;
    if m < q {
      ProductsAreOrdered(m + 1, q, count);
    } else if q < m {
      ProductsAreOrdered(q + 1, m, count);
    }
  }

  function Level(pcm: seq<byte>): nat {
    if |pcm| < 2 then 0 else Mean(SumAbs(pcm, |pcm| / 2), |pcm| / 2)
  }

  method SumMagnitudes(pcm: seq<byte>) returns (sum: nat)
    ensures sum == SumAbs(pcm, |pcm| / 2)
  {
    sum := 0;
    for i := 0 to |pcm| / 2
      invariant sum == SumAbs(pcm, i)
    {
      var offset := i * 2;
      var sample := Sample(pcm[offset], pcm[offset + 1]);
      sum := sum + if sample < 0 then -sample else sample;
    }
  }

  /** `audio_in_avg_abs_pcm16_le`. */
  method AvgAbs(pcm: seq<byte>) returns (level: nat)
    ensures level == Level(pcm)
  {
    if |pcm| < 2 {
      return 0;
    }
    var sum := SumMagnitudes(pcm);
    MeanIsQuotient(sum, |pcm| / 2);
    return sum / (|pcm| / 2);
  }

  // ---------------------------------------------------------------- the stop rule, without a loop

  type Mic = nat -> byte

  /** How many bytes are captured after `k` chunks, on top of a prefix of `p`. */
  function At(c: Config, p: nat, k: nat): (n: nat)
    ensures n >= p
    ensures p <= c.buffer ==> n <= c.buffer
  {
    if k == 0 then p
    else
      var n := At(c, p, k - 1);
      if n < c.buffer then Min(n + c.chunk, c.buffer) else n
  }

  function Heard(mic: Mic, from: nat, to: nat): (s: seq<byte>)
    requires from <= to
    ensures |s| == to - from
  {
    seq(to - from, i requires i >= 0 => mic(from + i))
  }

  lemma {:induction false} AtGrows(c: Config, p: nat, k: nat)
    ensures At(c, p, k) <= At(c, p, k + 1)
  {
  }

  /** Chunk number `k`. */
  function Chunk(c: Config, p: nat, mic: Mic, k: nat): seq<byte> {
    AtGrows(c, p, k);
    Heard(mic, At(c, p, k) - p, At(c, p, k + 1) - p)
  }

  predicate Silent(c: Config, p: nat, mic: Mic, k: nat) { Level(Chunk(c, p, mic, k)) <= c.silenceLevel }

  predicate Loud(c: Config, p: nat, mic: Mic, k: nat) { Level(Chunk(c, p, mic, k)) >= c.startLevel }

  /** Voice has begun within the first `k` chunks: there was a prefix, or one of them was loud. */
  predicate Begun(c: Config, p: nat, mic: Mic, k: nat) {
    p > 0 || exists j :: 0 <= j < k && Loud(c, p, mic, j)
  }

  /** Where the maximal run of silent chunks that ends after `k` chunks begins. */
  function RunStart(c: Config, p: nat, mic: Mic, k: nat): (j: nat)
    ensures j <= k
  {
    if k == 0 || !Silent(c, p, mic, k - 1) then k else RunStart(c, p, mic, k - 1)
  }

  lemma {:induction false} RunIsMaximal(c: Config, p: nat, mic: Mic, k: nat)
    ensures var j := RunStart(c, p, mic, k);
      && (forall i :: j <= i < k ==> Silent(c, p, mic, i))
      && (j > 0 ==> !Silent(c, p, mic, j - 1))
  {
    if k > 0 && Silent(c, p, mic, k - 1) {
      RunIsMaximal(c, p, mic, k - 1);
    }
  }

  lemma {:induction false} AtIsMonotone(c: Config, p: nat, j: nat, k: nat)
    requires j <= k
    ensures At(c, p, j) <= At(c, p, k)
    decreases k
  {
    if j < k {
      AtIsMonotone(c, p, j, k - 1);
      AtGrows(c, p, k - 1);
    }
  }

  function SilentBytes(c: Config, p: nat, mic: Mic, k: nat): nat {
    AtIsMonotone(c, p, RunStart(c, p, mic, k), k);
    At(c, p, k) - At(c, p, RunStart(c, p, mic, k))
  }

  /** The early stop: voice has begun, the minimum is reached, and the maximal trailing run of silent
      chunks is long enough. */
  predicate Stops(c: Config, p: nat, mic: Mic, k: nat) {
    k > 0 && Begun(c, p, mic, k) && At(c, p, k) >= c.minBytes && SilentBytes(c, p, mic, k) >= c.silenceBytes
  }

  predicate Over(c: Config, p: nat, mic: Mic, k: nat) { At(c, p, k) >= c.buffer || Stops(c, p, mic, k) }

  /** The number of chunks captured: the first count at which the capture is over. */
  ghost predicate IsEnd(c: Config, p: nat, mic: Mic, k: nat) {
    Over(c, p, mic, k) && forall j :: 0 <= j < k ==> !Over(c, p, mic, j)
  }

  lemma {:induction false} EndIsUnique(c: Config, p: nat, mic: Mic, j: nat, k: nat)
    requires IsEnd(c, p, mic, j) && IsEnd(c, p, mic, k)
    ensures j == k
  {
  }

  // ---------------------------------------------------------------- the loop's bookkeeping

  datatype Vad = Vad(started: bool, trailing: nat)

  ghost predicate VadHolds(c: Config, p: nat, mic: Mic, k: nat, v: Vad) {
    v.started == Begun(c, p, mic, k) && v.trailing == (if v.started then SilentBytes(c, p, mic, k) else 0)
  }

  function VadStep(c: Config, v: Vad, level: nat, bytes: nat): Vad {
    if !v.started && level >= c.startLevel then Vad(true, 0)
    else if v.started then v.(trailing := if level <= c.silenceLevel then v.trailing + bytes else 0)
    else v
  }

  lemma {:induction false} VadStepHolds(c: Config, p: nat, mic: Mic, k: nat, v: Vad)
    requires ValidConfig(c) && VadHolds(c, p, mic, k, v)
    ensures var chunk := Chunk(c, p, mic, k);
      VadHolds(c, p, mic, k + 1, VadStep(c, v, Level(chunk), |chunk|))
  {
    assert Begun(c, p, mic, k + 1) == (Begun(c, p, mic, k) || Loud(c, p, mic, k)) by {
      if p == 0 && Begun(c, p, mic, k + 1) {
        var j :| 0 <= j < k + 1 && Loud(c, p, mic, j);
        assert j == k || Begun(c, p, mic, k);
      }
    }
    AtIsMonotone(c, p, RunStart(c, p, mic, k), k);
  }

  /** The two recorders' loops agree turn by turn, so they take the same decision from the same data. */
  lemma {:induction false} StopTest(c: Config, p: nat, mic: Mic, k: nat, v: Vad)
    requires ValidConfig(c) && VadHolds(c, p, mic, k, v) && k > 0
    ensures Stops(c, p, mic, k) <==> v.started && At(c, p, k) >= c.minBytes && v.trailing >= c.silenceBytes
  {
  }

  lemma {:induction false} HeardGrows(mic: Mic, a: nat, b: nat)
    requires a <= b
    ensures Heard(mic, 0, b) == Heard(mic, 0, a) + Heard(mic, a, b)
  {
  }

  // ---------------------------------------------------------------- the recorders

  /** The voice-activity part of one turn, which both loops share line by line. */
  method UpdateVad(c: Config, v: Vad, chunk: seq<byte>, captured: nat,
                   ghost p: nat, ghost mic: Mic, ghost k: nat) returns (w: Vad, stop: bool)
    requires ValidConfig(c) && VadHolds(c, p, mic, k, v)
    requires chunk == Chunk(c, p, mic, k) && captured == At(c, p, k + 1)
    ensures VadHolds(c, p, mic, k + 1, w) && stop == Stops(c, p, mic, k + 1)
  {
    w := v;
    var level := AvgAbs(chunk);
    VadStepHolds(c, p, mic, k, v);
    if !w.started && level >= c.startLevel {
      w := Vad(true, 0);
    } else if w.started {
      w := w.(trailing := if level <= c.silenceLevel then w.trailing + |chunk| else 0);
    }
    StopTest(c, p, mic, k + 1, w);
    stop := w.started && captured >= c.minBytes && w.trailing >= c.silenceBytes;
  }

  /** One read from the microphone into the record buffer. */
  method ReadInto(buffer: array<byte>, offset: nat, mic: Mic, from: nat, bytes: nat) returns (chunk: seq<byte>)
    requires offset + bytes <= buffer.Length
    modifies buffer
    ensures chunk == Heard(mic, from, from + bytes)
    ensures buffer[..offset + bytes] == old(buffer[..offset]) + chunk
  {
    chunk := Heard(mic, from, from + bytes);
    CopyInto(buffer, offset, chunk);
  }

  method BufferWith(c: Config, prefix: seq<byte>) returns (buffer: array<byte>)
    requires |prefix| <= c.buffer
    ensures fresh(buffer) && buffer.Length == c.buffer && buffer[..|prefix|] == prefix
  {
    buffer := new byte[c.buffer];
    CopyInto(buffer, 0, prefix);
  }

  /** The bytes both recorders take after `k` chunks. */
  function Captured(c: Config, prefix: seq<byte>, mic: Mic, k: nat): seq<byte> {
    prefix + Heard(mic, 0, At(c, |prefix|, k) - |prefix|)
  }

  lemma {:induction false} CapturedGrows(c: Config, prefix: seq<byte>, mic: Mic, k: nat)
    ensures Captured(c, prefix, mic, k + 1) == Captured(c, prefix, mic, k) + Chunk(c, |prefix|, mic, k)
  {
    AtGrows(c, |prefix|, k);
    HeardGrows(mic, At(c, |prefix|, k) - |prefix|, At(c, |prefix|, k + 1) - |prefix|);
  }

  /** What a recorder returns: it stopped at the first count where the capture is over, or the read
      `failAt` came before that. */
  ghost predicate Recorded(c: Config, p: nat, mic: Mic, failAt: nat, err: EspErr, chunks: nat, vadStopped: bool) {
    && (err == OK ==> chunks <= failAt && IsEnd(c, p, mic, chunks) && vadStopped == Stops(c, p, mic, chunks))
    && (err != OK ==> chunks == failAt && forall j :: 0 <= j <= failAt ==> !Over(c, p, mic, j))
  }

  /** One turn of the buffered recorder's loop after a read that succeeds. */
  method RecordTurn(c: Config, buffer: array<byte>, offset: nat, v: Vad, mic: Mic, ghost prefix: seq<byte>, p: nat,
                    ghost k: nat) returns (now: nat, w: Vad, stop: bool)
    requires ValidConfig(c) && buffer.Length == c.buffer && p == |prefix|
    requires offset == At(c, p, k) < c.buffer && buffer[..offset] == Captured(c, prefix, mic, k)
    requires VadHolds(c, p, mic, k, v)
    modifies buffer
    ensures offset < now == At(c, p, k + 1) <= c.buffer && buffer[..now] == Captured(c, prefix, mic, k + 1)
    ensures VadHolds(c, p, mic, k + 1, w) && stop == Stops(c, p, mic, k + 1)
  {
    var bytes := if c.buffer - offset > c.chunk then c.chunk else c.buffer - offset;
    var chunk := ReadInto(buffer, offset, mic, offset - p, bytes);
    CapturedGrows(c, prefix, mic, k);
    now := offset + bytes;
    w, stop := UpdateVad(c, v, chunk, now, p, mic, k);
  }

  /** The buffered recorder; the read number `failAt` fails. */
  method RecordAfterSpeechStart(c: Config, prefix: seq<byte>, mic: Mic, failAt: nat)
    returns (err: EspErr, pcm: seq<byte>, vadStopped: bool, chunks: nat)
    requires ValidConfig(c)
    ensures err == InvalidArg <==> |prefix| > c.buffer
    ensures |prefix| <= c.buffer ==> Recorded(c, |prefix|, mic, failAt, err, chunks, vadStopped)
    ensures err == OK ==> pcm == Captured(c, prefix, mic, chunks)
  {
    pcm, vadStopped, chunks := [], false, 0;
    if |prefix| > c.buffer {
      return InvalidArg, pcm, vadStopped, chunks;
    }
    ghost var p := |prefix|;
    var buffer := BufferWith(c, prefix);
    var offset, v := |prefix|, Vad(|prefix| > 0, 0);
    assert Captured(c, prefix, mic, 0) == prefix;
    while offset < c.buffer && !vadStopped
      invariant offset == At(c, p, chunks) <= c.buffer && chunks <= failAt && fresh(buffer)
      invariant buffer[..offset] == Captured(c, prefix, mic, chunks)
      invariant VadHolds(c, p, mic, chunks, v) && vadStopped == Stops(c, p, mic, chunks)
      invariant forall j :: 0 <= j < chunks ==> !Over(c, p, mic, j)
      decreases c.buffer - offset
    {
      if chunks == failAt {
        return Fail, [], false, chunks;
      }
      offset, v, vadStopped := RecordTurn(c, buffer, offset, v, mic, prefix, |prefix|, chunks);
      chunks := chunks + 1;
    }
    return OK, buffer[..offset], vadStopped, chunks;
  }

  /** One read of the streaming recorder. */
  method ReadChunk(c: Config, pcmBytes: nat, p: nat, mic: Mic, ghost k: nat) returns (chunk: seq<byte>, now: nat)
    requires ValidConfig(c) && pcmBytes == At(c, p, k) < c.buffer
    ensures chunk == Chunk(c, p, mic, k) && pcmBytes < now == At(c, p, k + 1)
  {
    var bytes := if c.buffer - pcmBytes > c.chunk then c.chunk else c.buffer - pcmBytes;
    chunk := Heard(mic, pcmBytes - p, pcmBytes - p + bytes);
    now := pcmBytes + bytes;
  }

  /** The streaming recorder: the callback gets the prefix and then every chunk; its call number
      `refuseAt` returns an error. */
  method StreamAfterSpeechStart(c: Config, prefix: seq<byte>, mic: Mic, failAt: nat, refuseAt: nat)
    returns (err: EspErr, delivered: seq<seq<byte>>, vadStopped: bool, chunks: nat)
    requires ValidConfig(c)
    ensures |delivered| <= refuseAt ==> Recorded(c, |prefix|, mic, failAt, err, chunks, vadStopped)
    ensures err == OK ==> |delivered| <= refuseAt
    ensures Flatten(delivered) == Captured(c, prefix, mic, chunks)
  {
    ghost var p := |prefix|;
    var pcmBytes, v := |prefix|, Vad(|prefix| > 0, 0);
    delivered, vadStopped, chunks := [], false, 0;
    assert Captured(c, prefix, mic, 0) == prefix;
    if |prefix| > 0 {
      delivered := [prefix];
      assert Flatten([prefix]) == prefix + Flatten([]);
      if refuseAt == 0 {
        return Cancelled, delivered, vadStopped, chunks;
      }
    }
    while pcmBytes < c.buffer && !vadStopped
      invariant pcmBytes == At(c, p, chunks) && chunks <= failAt && |delivered| <= refuseAt
      invariant Flatten(delivered) == Captured(c, prefix, mic, chunks)
      invariant VadHolds(c, p, mic, chunks, v) && vadStopped == Stops(c, p, mic, chunks)
      invariant forall j :: 0 <= j < chunks ==> !Over(c, p, mic, j)
      decreases c.buffer - pcmBytes
    {
      if chunks == failAt {
        return Fail, delivered, false, chunks;
      }
      var chunk, now := ReadChunk(c, pcmBytes, |prefix|, mic, chunks);
      CapturedGrows(c, prefix, mic, chunks);
      FlattenSnoc(delivered, chunk);
      delivered := delivered + [chunk];
      pcmBytes := now;
      if |delivered| > refuseAt {
        return Cancelled, delivered, false, chunks + 1;
      }
      v, vadStopped := UpdateVad(c, v, chunk, pcmBytes, p, mic, chunks);
      chunks := chunks + 1;
    }
    err := OK;
  }

  /** Both recorders, given the same prefix and the same microphone data, stop after the same chunk and
      for the same reason; so, by their contracts, with the same bytes. */
  lemma {:induction false} RecordersAgree(c: Config, p: nat, mic: Mic, failAt: nat,
                                          err: EspErr, n: nat, stopped: bool, err': EspErr, n': nat, stopped': bool)
    requires Recorded(c, p, mic, failAt, err, n, stopped) && Recorded(c, p, mic, failAt, err', n', stopped')
    ensures n == n' && (err == OK <==> err' == OK) && (err == OK ==> stopped == stopped')
  {
    if err == OK && err' == OK {
      EndIsUnique(c, p, mic, n, n');
    }
  }

  /** No capture outgrows the buffer exactly when the prefix fits it: the streaming recorder, unlike the
      buffered one, does not refuse a longer prefix but delivers it and stops. */
  lemma {:induction false} NeverOverfullIffPrefixFits(c: Config, prefix: seq<byte>, mic: Mic)
    ensures (forall k: nat :: |Captured(c, prefix, mic, k)| <= c.buffer) <==> |prefix| <= c.buffer
    ensures |prefix| > c.buffer ==> IsEnd(c, |prefix|, mic, 0)
  {
    assert |Captured(c, prefix, mic, 0)| == |prefix|;
  }

  // ---------------------------------------------------------------- waiting for speech

  function LastBytes(s: seq<byte>, n: nat): seq<byte> { if |s| <= n then s else s[|s| - n..] }

  /** Where the run of loud chunks that ends before chunk `k` begins; `a` is the first armed chunk. */
  function LoudStart(threshold: nat, chunks: seq<seq<byte>>, a: nat, k: nat): (j: nat)
    requires a <= k <= |chunks|
    ensures a <= j <= k
  {
    if k == a || Level(chunks[k - 1]) < threshold then k else LoudStart(threshold, chunks, a, k - 1)
  }

  lemma {:induction false} LoudRunIsMaximal(threshold: nat, chunks: seq<seq<byte>>, a: nat, k: nat)
    requires a <= k <= |chunks|
    ensures var j := LoudStart(threshold, chunks, a, k);
      && (forall i :: j <= i < k ==> Level(chunks[i]) >= threshold)
      && (j > a ==> Level(chunks[j - 1]) < threshold)
  {
    if k > a && Level(chunks[k - 1]) >= threshold {
      LoudRunIsMaximal(threshold, chunks, a, k - 1);
    }
  }

  /** The bytes of that run. */
  function RunBytes(threshold: nat, chunks: seq<seq<byte>>, a: nat, k: nat): nat
    requires a <= k <= |chunks|
  {
    if k == a || Level(chunks[k - 1]) < threshold then 0
    else RunBytes(threshold, chunks, a, k - 1) + |chunks[k - 1]|
  }

  /** The bytes of chunks `a` to `k`. */
  function Joined(chunks: seq<seq<byte>>, a: nat, k: nat): seq<byte>
    requires a <= k <= |chunks|
  {
    if k == a then [] else Joined(chunks, a, k - 1) + chunks[k - 1]
  }

  lemma {:induction false} JoinedSplits(chunks: seq<seq<byte>>, a: nat, j: nat, k: nat)
    requires a <= j <= k <= |chunks|
    ensures Joined(chunks, a, k) == Joined(chunks, a, j) + Joined(chunks, j, k)
  {
    if j < k {
      JoinedSplits(chunks, a, j, k - 1);
    }
  }

  lemma {:induction false} RunBytesAreTheRun(threshold: nat, chunks: seq<seq<byte>>, a: nat, k: nat)
    requires a <= k <= |chunks|
    ensures RunBytes(threshold, chunks, a, k) == |Joined(chunks, LoudStart(threshold, chunks, a, k), k)|
  {
    if k > a && Level(chunks[k - 1]) >= threshold {
      RunBytesAreTheRun(threshold, chunks, a, k - 1);
    }
  }

  lemma {:induction false} JoinedIsFlatten(chunks: seq<seq<byte>>, a: nat, k: nat)
    requires a <= k <= |chunks|
    ensures Joined(chunks, a, k) == Flatten(chunks[a..k])
  {
    if k > a {
      JoinedIsFlatten(chunks, a, k - 1);
      assert chunks[a..k] == chunks[a..k - 1] + [chunks[k - 1]];
      FlattenSnoc(chunks[a..k - 1], chunks[k - 1]);
    }
  }

  /** Speech has started before chunk `k`: the loud run covers the hold span. */
  predicate HoldReached(c: Config, threshold: nat, chunks: seq<seq<byte>>, a: nat, k: nat)
    requires a <= k <= |chunks|
  {
    RunBytes(threshold, chunks, a, k) >= c.hold
  }

  ghost predicate AllChunks(c: Config, chunks: seq<seq<byte>>) {
    forall i :: 0 <= i < |chunks| ==> |chunks[i]| == c.chunk
  }

  function Discarded(kept: nat, chunk: nat, capacity: nat): nat {
    if kept + chunk > capacity then kept + chunk - capacity else 0
  }

  lemma {:induction false} SlideAppends(s: seq<byte>, more: seq<byte>, capacity: nat)
    requires |more| <= capacity
    ensures var kept := LastBytes(s, capacity);
      var discard := Discarded(|kept|, |more|, capacity);
      discard <= |kept| && LastBytes(s + more, capacity) == kept[discard..] + more
  {
  }

  /** The prefix buffer, which holds the last bytes of `armed`: makes room by sliding the oldest bytes
      out, then appends the chunk. */
  method AppendSliding(buffer: array<byte>, used: nat, chunk: seq<byte>, ghost armed: seq<byte>) returns (now: nat)
    requires used <= buffer.Length && |chunk| <= buffer.Length
    requires buffer[..used] == LastBytes(armed, buffer.Length)
    modifies buffer
    ensures now <= buffer.Length && buffer[..now] == LastBytes(armed + chunk, buffer.Length)
  {
    now := used;
    SlideAppends(armed, chunk, buffer.Length);
    if now + |chunk| > buffer.Length {
      var discard := now + |chunk| - buffer.Length;
      MoveDown(buffer, discard, now);
      assert buffer[..now - discard] == old(buffer[..used])[discard..];
      now := now - discard;
    }
    ghost var kept := buffer[..now];
    CopyInto(buffer, now, chunk);
    now := now + |chunk|;
    assert buffer[..now] == kept + chunk;
  }

  /** Speech was found just before chunk `k`, or not at all in all of them, or not before the read of
      chunk `failAt` failed. */
  ghost predicate Detected(c: Config, threshold: nat, chunks: seq<seq<byte>>, a: nat, failAt: nat, k: nat,
                           err: EspErr, prefix: seq<byte>)
    requires a <= |chunks|
  {
    && k <= failAt && k <= |chunks|
    && (forall j :: a <= j < k ==> !HoldReached(c, threshold, chunks, a, j))
    && (if a <= k && HoldReached(c, threshold, chunks, a, k) then
          err == OK && prefix == LastBytes(Joined(chunks, a, k), c.preroll + c.hold)
        else prefix == [] && if k < |chunks| then err == Fail && k == failAt else err == Timeout)
  }

  /** What the loop has after chunk `k`, no speech found: nothing while not armed, then the last bytes and
      the length of the loud run. */
  ghost predicate Listening(c: Config, threshold: nat, chunks: seq<seq<byte>>, a: nat, k: nat, kept: seq<byte>, hold: nat)
    requires a <= |chunks| && k <= |chunks|
  {
    if k < a then kept == [] && hold == 0
    else
      && kept == LastBytes(Joined(chunks, a, k), c.preroll + c.hold) && hold == RunBytes(threshold, chunks, a, k)
      && forall j :: a <= j <= k ==> !HoldReached(c, threshold, chunks, a, j)
  }

  lemma {:induction false} NotArmedYet(c: Config, threshold: nat, chunks: seq<seq<byte>>, a: nat, k: nat)
    requires ValidConfig(c) && k <= a <= |chunks|
    ensures Listening(c, threshold, chunks, a, k, [], 0)
  {
  }

  lemma {:induction false} RunGoesOn(threshold: nat, chunks: seq<seq<byte>>, a: nat, k: nat)
    requires a <= k < |chunks|
    ensures RunBytes(threshold, chunks, a, k + 1)
              == if Level(chunks[k]) >= threshold then RunBytes(threshold, chunks, a, k) + |chunks[k]| else 0
  {
  }

  /** An armed chunk either ends the wait or keeps the loop listening. */
  lemma {:induction false} ArmedChunk(c: Config, threshold: nat, chunks: seq<seq<byte>>, a: nat, k: nat,
                                      kept: seq<byte>, hold: nat, now: nat)
    requires a <= k < |chunks| && Listening(c, threshold, chunks, a, k, kept, hold)
    requires now == RunBytes(threshold, chunks, a, k + 1) < c.hold
    ensures Listening(c, threshold, chunks, a, k + 1, LastBytes(Joined(chunks, a, k + 1), c.preroll + c.hold), now)
  {
    forall j | a <= j <= k + 1
      ensures !HoldReached(c, threshold, chunks, a, j)
    {
      if j == k + 1 {
        assert RunBytes(threshold, chunks, a, j) < c.hold;
      }
    }
  }

  /** One armed chunk: it goes into the prefix, and it prolongs the loud run or ends it. */
  method HearChunk(c: Config, threshold: nat, chunks: seq<seq<byte>>, ghost a: nat, k: nat, buffer: array<byte>,
                   used: nat, holdBytes: nat) returns (now: nat, hold: nat, found: bool)
    requires a <= k < |chunks| && AllChunks(c, chunks) && ValidConfig(c)
    requires buffer.Length == c.preroll + c.hold && used <= buffer.Length
    requires Listening(c, threshold, chunks, a, k, buffer[..used], holdBytes)
    modifies buffer
    ensures now <= buffer.Length && buffer[..now] == LastBytes(Joined(chunks, a, k + 1), buffer.Length)
    ensures found <==> HoldReached(c, threshold, chunks, a, k + 1)
    ensures !found ==> Listening(c, threshold, chunks, a, k + 1, buffer[..now], hold)
  {
    ghost var kept := buffer[..used];
    var level := AvgAbs(chunks[k]);
    now := AppendSliding(buffer, used, chunks[k], Joined(chunks, a, k));
    RunGoesOn(threshold, chunks, a, k);
    found, hold := false, 0;
    if level >= threshold {
      hold := holdBytes + |chunks[k]|;
      found := hold >= c.hold;
    }
    if !found {
      ArmedChunk(c, threshold, chunks, a, k, kept, holdBytes, hold);
    }
  }

  /** `audio_in_wait_for_speech_start` over the chunks due before the timeout; those before `armedFrom`
      come while the detector is not armed yet, and leave no trace but a metric. The read of chunk
      number `failAt` fails. */
  method WaitForSpeechStart(c: Config, threshold: nat, chunks: seq<seq<byte>>, armedFrom: nat, failAt: nat)
    returns (err: EspErr, prefix: seq<byte>, k: nat)
    requires ValidConfig(c) && AllChunks(c, chunks) && armedFrom <= |chunks|
    ensures threshold == 0 ==> err == InvalidArg && prefix == []
    ensures threshold > 0 ==> Detected(c, threshold, chunks, armedFrom, failAt, k, err, prefix)
  {
    prefix, k := [], 0;
    if threshold == 0 {
      return InvalidArg, prefix, k;
    }
    var buffer := new byte[c.preroll + c.hold];
    var prefixBytes: nat, holdBytes: nat := 0, 0;
    NotArmedYet(c, threshold, chunks, armedFrom, 0);
    while k < |chunks|
      invariant k <= |chunks| && k <= failAt && fresh(buffer)
      invariant prefixBytes <= buffer.Length
      invariant Listening(c, threshold, chunks, armedFrom, k, buffer[..prefixBytes], holdBytes)
    {
      if k == failAt {
        return Fail, prefix, k;
      }
      k := k + 1;
      if k <= armedFrom {
        NotArmedYet(c, threshold, chunks, armedFrom, k);
        continue;
      }
      var found;
      prefixBytes, holdBytes, found := HearChunk(c, threshold, chunks, armedFrom, k - 1, buffer, prefixBytes, holdBytes);
      if found {
        return OK, buffer[..prefixBytes], k;
      }
    }
    return Timeout, prefix, k;
  }

  /** The returned prefix ends with the whole loud run that started speech: at least the hold span long,
      every chunk of it armed and at or above the threshold; what precedes it is the preroll. */
  lemma {:induction false} PrefixHoldsTheRun(c: Config, threshold: nat, chunks: seq<seq<byte>>, a: nat, failAt: nat,
                                            k: nat, prefix: seq<byte>)
    requires ValidConfig(c) && AllChunks(c, chunks) && a <= |chunks|
    requires Detected(c, threshold, chunks, a, failAt, k, OK, prefix)
    ensures a <= k <= |chunks|
    ensures var j := LoudStart(threshold, chunks, a, k);
      var run := Flatten(chunks[j..k]);
      && c.hold <= |run| < c.hold + c.chunk
      && |run| <= |prefix| && prefix[|prefix| - |run|..] == run
      && (forall i :: j <= i < k ==> Level(chunks[i]) >= threshold)
    ensures prefix == LastBytes(Flatten(chunks[a..k]), c.preroll + c.hold)
  {
    var j := LoudStart(threshold, chunks, a, k);
    LoudRunIsMaximal(threshold, chunks, a, k);
    RunBytesAreTheRun(threshold, chunks, a, k);
    assert k > a && !HoldReached(c, threshold, chunks, a, k - 1);
    JoinedSplits(chunks, a, j, k);
    JoinedIsFlatten(chunks, a, k);
    JoinedIsFlatten(chunks, j, k);
  }
}
