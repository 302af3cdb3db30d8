/** The WAV parser, its layout check and the chunked playback loop. */
module Wav {
  import opened Bytes

  const RIFF: seq<byte> := [0x52, 0x49, 0x46, 0x46]
  const WAVE: seq<byte> := [0x57, 0x41, 0x56, 0x45]
  const FMT: seq<byte> := [0x66, 0x6d, 0x74, 0x20]
  const DATA: seq<byte> := [0x64, 0x61, 0x74, 0x61]
  const PLAY_CHUNK_SAMPLES := 512

  function Le16(w: seq<byte>, at: nat): (n: nat)
    requires at + 2 <= |w|
    ensures n < TWO_TO_THE_16
  {
    (w[at] as int) + (w[at + 1] as int) * 0x100
  }

  function Le32(w: seq<byte>, at: nat): (n: nat)
    requires at + 4 <= |w|
    ensures n < TWO_TO_THE_32
  {
    (w[at] as int) + (w[at + 1] as int) * 0x100 + (w[at + 2] as int) * 0x1_0000 + (w[at + 3] as int) * 0x100_0000
  }

  predicate Tagged(w: seq<byte>, at: nat, tag: seq<byte>)
    requires at + 4 <= |w|
  {
    w[at..at + 4] == tag
  }

  // ---------------------------------------------------------------- what a file says

  /** A chunk: where its header is and how many bytes of its body are in the file. */
  datatype Chunk = Chunk(at: nat, size: nat)

  /** The chunks of a file from an offset on; `cut` if one that is not data reaches past the end. */
  datatype Walked = Walked(chunks: seq<Chunk>, cut: bool)

  /** The body size of the chunk whose header is at `at`: a data chunk is clamped to the file. */
  function BodySize(w: seq<byte>, at: nat): nat
    requires at + 8 <= |w|
  {
    var size, room := Le32(w, at + 4), |w| - at - 8;
    if size > room && Tagged(w, at, DATA) then room else size
  }

  function Walk(w: seq<byte>, at: nat): (r: Walked)
    ensures forall i :: 0 <= i < |r.chunks| ==> InFile(w, r.chunks[i])
    decreases if at > |w| then 0 else |w| - at
  {
    if at + 8 > |w| then Walked([], false)
    else
      var size := BodySize(w, at);
      if size > |w| - at - 8 then Walked([], true)
      else
        var r := Walk(w, at + 8 + size + size % 2);
        Walked([Chunk(at, size)] + r.chunks, r.cut)
  }

  predicate InFile(w: seq<byte>, c: Chunk) { c.at + 8 + c.size <= |w| }

  datatype Format = Format(channels: nat, rate: nat, bits: nat)

  function FormatOf(w: seq<byte>, c: Chunk): Format
    requires InFile(w, c) && c.size >= 16
  {
    Format(Le16(w, c.at + 10), Le32(w, c.at + 12), Le16(w, c.at + 22))
  }

  /** PCM, one or two channels of 8 or 16 bits, with a byte rate (computed in 32 bits) and a block
      alignment that agree. */
  predicate GoodFormat(w: seq<byte>, c: Chunk)
    requires InFile(w, c)
  {
    c.size >= 16 &&
    var f := FormatOf(w, c);
    && Le16(w, c.at + 8) == 1
    && (f.channels == 1 || f.channels == 2) && (f.bits == 8 || f.bits == 16)
    && Le32(w, c.at + 16) == f.rate * f.channels * (f.bits / 8) % TWO_TO_THE_32
    && Le16(w, c.at + 20) == f.channels * (f.bits / 8)
  }

  predicate IsTag(w: seq<byte>, c: Chunk, tag: seq<byte>)
    requires InFile(w, c)
  {
    Tagged(w, c.at, tag)
  }

  /** The last chunk with a tag among the first `n`, or -1. */
  function LastTagged(w: seq<byte>, chunks: seq<Chunk>, tag: seq<byte>, n: nat): (i: int)
    requires n <= |chunks| && forall k :: 0 <= k < |chunks| ==> InFile(w, chunks[k])
    ensures -1 <= i < n
    ensures i >= 0 ==> IsTag(w, chunks[i], tag)
    ensures forall k :: i < k < n ==> !IsTag(w, chunks[k], tag)
  {
    if n == 0 then -1 else if IsTag(w, chunks[n - 1], tag) then n - 1 else LastTagged(w, chunks, tag, n - 1)
  }

  datatype View = View(format: Format, start: nat, len: nat)

  /** What a file is accepted as: every chunk fits, every format chunk is good, and the last format and
      the last data chunk count. */
  ghost predicate Accepts(w: seq<byte>, v: View) {
    && |w| >= 12 && Tagged(w, 0, RIFF) && Tagged(w, 8, WAVE)
    && var r := Walk(w, 12);
       var f, d := LastTagged(w, r.chunks, FMT, |r.chunks|), LastTagged(w, r.chunks, DATA, |r.chunks|);
       && !r.cut
       && (forall i :: 0 <= i < |r.chunks| && IsTag(w, r.chunks[i], FMT) ==> GoodFormat(w, r.chunks[i]))
       && f >= 0 && d >= 0
       && v == View(FormatOf(w, r.chunks[f]), r.chunks[d].at + 8, r.chunks[d].size)
  }

  // ---------------------------------------------------------------- the parser

  /** The chunks walked so far are the beginning of the walk. */
  ghost predicate WalkedSoFar(w: seq<byte>, done: seq<Chunk>, at: nat) {
    var whole, rest := Walk(w, 12), Walk(w, at);
    whole == Walked(done + rest.chunks, rest.cut)
  }

  method CheckFormat(w: seq<byte>, c: Chunk) returns (ok: bool, format: Format)
    requires InFile(w, c)
    ensures ok == GoodFormat(w, c)
    ensures ok ==> format == FormatOf(w, c)
  {
    format := Format(0, 0, 0);
    if c.size < 16 {
      return false, format;
    }
    var channels, rate, bits := Le16(w, c.at + 10), Le32(w, c.at + 12), Le16(w, c.at + 22);
    var byteRate, blockAlign, audioFormat := Le32(w, c.at + 16), Le16(w, c.at + 20), Le16(w, c.at + 8);
    if audioFormat != 1 || channels == 0 || channels > 2 || (bits != 8 && bits != 16) {
      return false, format;
    }
    var expectedByteRate := rate * channels * (bits / 8) % TWO_TO_THE_32;
    var expectedBlockAlign := channels * (bits / 8) % TWO_TO_THE_16;
    if byteRate != expectedByteRate || blockAlign != expectedBlockAlign {
      return false, format;
    }
    return true, Format(channels, rate, bits);
  }

  lemma {:induction false} LastTaggedPrefix(w: seq<byte>, a: seq<Chunk>, b: seq<Chunk>, tag: seq<byte>, n: nat)
    requires n <= |a| && a <= b && forall k :: 0 <= k < |b| ==> InFile(w, b[k])
    ensures LastTagged(w, a, tag, n) == LastTagged(w, b, tag, n)
  {
    if n > 0 {
      LastTaggedPrefix(w, a, b, tag, n - 1);
    }
  }

  /** What the loop has noted after the chunks `done`. */
  ghost predicate Noted(w: seq<byte>, done: seq<Chunk>, format: Option<Format>, data: Option<Chunk>) {
    && (forall i :: 0 <= i < |done| ==> InFile(w, done[i]))
    && (forall i :: 0 <= i < |done| && IsTag(w, done[i], FMT) ==> GoodFormat(w, done[i]))
    && var f, d := LastTagged(w, done, FMT, |done|), LastTagged(w, done, DATA, |done|);
       && format == (if f < 0 then None else Some(FormatOf(w, done[f])))
       && data == (if d < 0 then None else Some(done[d]))
  }

  datatype Option<T> = None | Some(value: T)

  /** What the loop knows at an offset. */
  ghost predicate Reading(w: seq<byte>, done: seq<Chunk>, at: nat, format: Option<Format>, data: Option<Chunk>) {
    WalkedSoFar(w, done, at) && Noted(w, done, format, data)
  }

  lemma {:induction false} ReadingBegins(w: seq<byte>)
    ensures Reading(w, [], 12, None, None)
  {
    assert [] + Walk(w, 12).chunks == Walk(w, 12).chunks;
  }

  lemma {:induction false} NotedOneMore(w: seq<byte>, done: seq<Chunk>, format: Option<Format>, data: Option<Chunk>, c: Chunk)
    requires Noted(w, done, format, data) && InFile(w, c) && (IsTag(w, c, FMT) ==> GoodFormat(w, c))
    ensures Noted(w, done + [c], if IsTag(w, c, FMT) then Some(FormatOf(w, c)) else format,
                  if IsTag(w, c, DATA) then Some(c) else data)
  {
    LastTaggedSnoc(w, done, c, FMT);
    LastTaggedSnoc(w, done, c, DATA);
  }

  lemma {:induction false} LastTaggedSnoc(w: seq<byte>, done: seq<Chunk>, c: Chunk, tag: seq<byte>)
    requires InFile(w, c) && forall k :: 0 <= k < |done| ==> InFile(w, done[k])
    ensures var more := done + [c];
      && (forall k :: 0 <= k < |more| ==> InFile(w, more[k]))
      && LastTagged(w, more, tag, |more|) == if IsTag(w, c, tag) then |done| else LastTagged(w, done, tag, |done|)
  {
    LastTaggedPrefix(w, done, done + [c], tag, |done|);
    assert (done + [c])[|done|] == c;
  }

  lemma {:induction false} WalkOneMore(w: seq<byte>, done: seq<Chunk>, at: nat)
    requires WalkedSoFar(w, done, at) && at + 8 <= |w| && BodySize(w, at) <= |w| - at - 8
    ensures var c := Chunk(at, BodySize(w, at));
      && InFile(w, c)
      && WalkedSoFar(w, done + [c], at + 8 + c.size + c.size % 2)
      && |done| < |Walk(w, 12).chunks| && Walk(w, 12).chunks[|done|] == c
  {
    var c := Chunk(at, BodySize(w, at));
    var rest := Walk(w, at + 8 + c.size + c.size % 2);
    assert done + ([c] + rest.chunks) == done + [c] + rest.chunks;
  }

  ghost predicate Rejected(w: seq<byte>) { forall u :: !Accepts(w, u) }

  lemma {:induction false} CutIsRejected(w: seq<byte>, done: seq<Chunk>, at: nat)
    requires WalkedSoFar(w, done, at) && at + 8 <= |w| && BodySize(w, at) > |w| - at - 8
    ensures Rejected(w)
  {
    assert Walk(w, 12).cut;
  }

  lemma {:induction false} BadFormatIsRejected(w: seq<byte>, done: seq<Chunk>, at: nat)
    requires WalkedSoFar(w, done, at) && at + 8 <= |w| && BodySize(w, at) <= |w| - at - 8
    requires Tagged(w, at, FMT) && InFile(w, Chunk(at, BodySize(w, at))) && !GoodFormat(w, Chunk(at, BodySize(w, at)))
    ensures Rejected(w)
  {
    WalkOneMore(w, done, at);
    var chunks := Walk(w, 12).chunks;
    assert IsTag(w, chunks[|done|], FMT) && !GoodFormat(w, chunks[|done|]);
  }

  lemma {:induction false} EndDecides(w: seq<byte>, done: seq<Chunk>, at: nat, format: Option<Format>, data: Option<Chunk>)
    requires |w| >= 12 && Tagged(w, 0, RIFF) && Tagged(w, 8, WAVE)
    requires Reading(w, done, at, format, data) && at + 8 > |w|
    ensures if format.Some? && data.Some? then Accepts(w, View(format.value, data.value.at + 8, data.value.size))
            else Rejected(w)
  {
    assert done + [] == done && Walk(w, 12) == Walked(done, false);
  }

  /** The chunk at `at`, a data chunk clamped to the file; there is none if another one reaches past it. */
  method ChunkAt(w: seq<byte>, at: nat) returns (ok: bool, c: Chunk)
    requires at + 8 <= |w|
    ensures ok <==> BodySize(w, at) <= |w| - at - 8
    ensures ok ==> c == Chunk(at, BodySize(w, at))
  {
    var size, room := Le32(w, at + 4), |w| - at - 8;
    if size > room {
      return w[at..at + 4] == DATA, Chunk(at, room);
    }
    return true, Chunk(at, size);
  }

  /** What one turn of the loop makes of the chunk at `at`: nothing if the file is to be refused. */
  method ReadChunk(w: seq<byte>, at: nat, format: Option<Format>, data: Option<Chunk>, ghost done: seq<Chunk>)
    returns (ok: bool, c: Chunk, newFormat: Option<Format>, newData: Option<Chunk>)
    requires at + 8 <= |w| && Reading(w, done, at, format, data)
    ensures if ok then Reading(w, done + [c], at + 8 + c.size + c.size % 2, newFormat, newData) else Rejected(w)
  {
    newFormat, newData := format, data;
    ok, c := ChunkAt(w, at);
    if !ok {
      CutIsRejected(w, done, at);
      return;
    }
    WalkOneMore(w, done, at);
    if w[at..at + 4] == FMT {
      var f;
      ok, f := CheckFormat(w, c);
      if !ok {
        BadFormatIsRejected(w, done, at);
        return;
      }
      newFormat := Some(f);
    } else if w[at..at + 4] == DATA {
      newData := Some(c);
    }
    NotedOneMore(w, done, format, data, c);
    ok := true;
  }

  /** The parser's loop, once the file header is known to be good. */
  method ReadChunks(w: seq<byte>) returns (ok: bool, v: View)
    requires |w| >= 12 && Tagged(w, 0, RIFF) && Tagged(w, 8, WAVE)
    ensures if ok then Accepts(w, v) else Rejected(w)
  {
    v := View(Format(0, 0, 0), 0, 0);
    var offset: nat := 12;
    var format: Option<Format>, data: Option<Chunk> := None, None;
    ghost var done: seq<Chunk> := [];
    ReadingBegins(w);
    while offset + 8 <= |w|
      invariant Reading(w, done, offset, format, data)
      decreases |w| - offset
    {
      var c;
      ok, c, format, data := ReadChunk(w, offset, format, data, done);
      if !ok {
        return;
      }
      done := done + [c];
      offset := offset + 8 + c.size + c.size % 2;
    }
    EndDecides(w, done, offset, format, data);
    ok := format.Some? && data.Some?;
    if ok {
      v := View(format.value, data.value.at + 8, data.value.size);
    }
  }

  /** `audio_parse_wav`. */
  method ParseWav(w: seq<byte>) returns (err: EspErr, v: View)
    ensures if err == OK then Accepts(w, v) else Rejected(w)
    ensures err == OK || err == if |w| < 12 then InvalidArg else Fail
  {
    v := View(Format(0, 0, 0), 0, 0);
    if |w| < 12 {
      return InvalidArg, v;
    }
    if w[0..4] != RIFF || w[8..12] != WAVE {
      return Fail, v;
    }
    var ok;
    ok, v := ReadChunks(w);
    err := if ok then OK else Fail;
  }

  /** The view of an accepted file lies inside it, behind the header, in one of the four layouts. */
  lemma {:induction false} ViewIsInside(w: seq<byte>, v: View)
    requires Accepts(w, v)
    ensures 12 <= v.start && v.start + v.len <= |w| && LayoutOf(v.format).Some?
  {
    var chunks := Walk(w, 12).chunks;
    var f, d := LastTagged(w, chunks, FMT, |chunks|), LastTagged(w, chunks, DATA, |chunks|);
    WalkStartsAt(w, 12, d);
    assert InFile(w, chunks[d]);
    assert IsTag(w, chunks[f], FMT) && GoodFormat(w, chunks[f]);
  }

  lemma {:induction false} WalkStartsAt(w: seq<byte>, at: nat, i: nat)
    requires i < |Walk(w, at).chunks|
    ensures at <= Walk(w, at).chunks[i].at
    decreases i
  {
    if i > 0 {
      WalkStartsAt(w, at + 8 + BodySize(w, at) + BodySize(w, at) % 2, i - 1);
    }
  }

  /** Chunks come in order and do not overlap. */
  lemma {:induction false} WalkIsOrdered(w: seq<byte>, at: nat, i: nat, j: nat)
    requires i < j < |Walk(w, at).chunks|
    ensures var r := Walk(w, at); r.chunks[i].at + 8 + r.chunks[i].size <= r.chunks[j].at
    decreases if at > |w| then 0 else |w| - at
  {
    var next := at + 8 + BodySize(w, at) + BodySize(w, at) % 2;
    if i == 0 {
      WalkStartsAt(w, next, j - 1);
    } else {
      WalkIsOrdered(w, next, i - 1, j - 1);
    }
  }

  // ---------------------------------------------------------------- layout

  datatype Layout = Mono8 | Mono16 | Stereo8 | Stereo16

  function LayoutOf(f: Format): Option<Layout> {
    if f.bits == 16 && f.channels == 1 then Some(Mono16)
    else if f.bits == 16 && f.channels == 2 then Some(Stereo16)
    else if f.bits == 8 && f.channels == 1 then Some(Mono8)
    else if f.bits == 8 && f.channels == 2 then Some(Stereo8)
    else None
  }

  /** Where frame `i` begins. */
  function Pos(l: Layout, i: nat): nat {
    match l
    case Mono8 => i
    case Mono16 => 2 * i
    case Stereo8 => 2 * i
    case Stereo16 => 4 * i
  }

  function FrameCount(l: Layout, len: nat): nat {
    match l
    case Mono8 => len
    case Mono16 => len / 2
    case Stereo8 => len / 2
    case Stereo16 => len / 4
  }

  /** `audio_validate_wav_pcm_layout`: cuts the view down to whole frames. */
  method ValidateLayout(v: View) returns (err: EspErr, u: View)
    ensures v.len == 0 ==> err == InvalidArg
    ensures v.len > 0 && LayoutOf(v.format).Some? ==>
              var l := LayoutOf(v.format).value;
              if FrameCount(l, v.len) == 0 then err == Fail
              else err == OK && u == v.(len := Pos(l, FrameCount(l, v.len)))
  {
    u := v;
    if v.len == 0 {
      return InvalidArg, u;
    }
    if v.format.channels == 0 || v.format.bits == 0 || v.format.bits % 8 != 0 {
      return Fail, u;
    }
    var frame := v.format.channels * (v.format.bits / 8);
    if frame == 0 {
      return Fail, u;
    }
    var aligned := AlignDown(v.len, frame);
    if aligned == 0 {
      return Fail, u;
    }
    return OK, v.(len := aligned);
  }

  method AlignDown(len: nat, frame: nat) returns (aligned: nat)
    requires frame > 0
    ensures frame == 1 ==> aligned == len
    ensures frame == 2 ==> aligned == len / 2 * 2
    ensures frame == 4 ==> aligned == len / 4 * 4
  {
    aligned := len - len % frame;
  }

  // ---------------------------------------------------------------- playback

  function Signed16(raw: nat): int
    requires raw < TWO_TO_THE_16
  {
    if raw < 0x8000 then raw else raw - TWO_TO_THE_16
  }

  /** The left channel of frame `i` as a 16-bit sample. */
  function LeftSample(w: seq<byte>, start: nat, l: Layout, i: nat): int
    requires start + Pos(l, i + 1) <= |w|
  {
    match l
    case Mono8 => (w[start + i] as int - 128) * 0x100
    case Mono16 => Signed16(Le16(w, start + 2 * i))
    case Stereo8 => (w[start + 2 * i] as int - 128) * 0x100
    case Stereo16 => Signed16(Le16(w, start + 4 * i))
  }

  function LeftChannel(w: seq<byte>, start: nat, l: Layout, n: nat): (s: seq<int>)
    requires start + Pos(l, n) <= |w|
    ensures |s| == n
  {
    seq(n, i requires 0 <= i < n => LeftSample(w, start, l, i))
  }

  /** The first `count` samples of the transmit buffer are the frames from `k` on. */
  ghost predicate Filled(w: seq<byte>, start: nat, l: Layout, k: nat, tx: seq<int>, count: nat) {
    && count <= |tx| && start + Pos(l, k + count) <= |w|
    && forall i :: 0 <= i < count ==> tx[i] == LeftSample(w, start, l, k + i)
  }

  method FillFromMono16(w: seq<byte>, start: nat, len: nat, ghost k: nat, offset: nat, tx: array<int>) returns (count: nat)
    requires offset == 2 * k <= len && start + len <= |w|
    modifies tx
    ensures count == Min(tx.Length, (len - offset) / 2) && Filled(w, start, Mono16, k, tx[..], count)
  {
    var remaining := len - offset;
    var toCopy := if remaining > 2 * tx.Length then 2 * tx.Length else remaining;
    count := toCopy / 2;
    for i := 0 to count
      invariant forall j :: 0 <= j < i ==> tx[j] == LeftSample(w, start, Mono16, k + j)
    {
      tx[i] := Signed16(Le16(w, start + offset + 2 * i));
    }
  }

  method FillFromStereo16(w: seq<byte>, start: nat, len: nat, ghost k: nat, offset: nat, tx: array<int>) returns (count: nat)
    requires offset == 4 * k <= len && start + len <= |w|
    modifies tx
    ensures count == Min(tx.Length, (len - offset) / 4) && Filled(w, start, Stereo16, k, tx[..], count)
  {
    count := if tx.Length > (len - offset) / 4 then (len - offset) / 4 else tx.Length;
    var at := offset;
    for i := 0 to count
      invariant at == offset + 4 * i
      invariant forall j :: 0 <= j < i ==> tx[j] == LeftSample(w, start, Stereo16, k + j)
    {
      tx[i] := Signed16(Le16(w, start + at));
      at := at + 4;
    }
  }

  method FillFromMono8(w: seq<byte>, start: nat, len: nat, ghost k: nat, offset: nat, tx: array<int>) returns (count: nat)
    requires offset == k <= len && start + len <= |w|
    modifies tx
    ensures count == Min(tx.Length, len - offset) && Filled(w, start, Mono8, k, tx[..], count)
  {
    count := if tx.Length > len - offset then len - offset else tx.Length;
    for i := 0 to count
      invariant forall j :: 0 <= j < i ==> tx[j] == LeftSample(w, start, Mono8, k + j)
    {
      tx[i] := (w[start + offset + i] as int - 128) * 0x100;
    }
  }

  method FillFromStereo8(w: seq<byte>, start: nat, len: nat, ghost k: nat, offset: nat, tx: array<int>) returns (count: nat)
    requires offset == 2 * k <= len && start + len <= |w|
    modifies tx
    ensures count == Min(tx.Length, (len - offset) / 2) && Filled(w, start, Stereo8, k, tx[..], count)
  {
    count := if tx.Length > (len - offset) / 2 then (len - offset) / 2 else tx.Length;
    var at := offset;
    for i := 0 to count
      invariant at == offset + 2 * i
      invariant forall j :: 0 <= j < i ==> tx[j] == LeftSample(w, start, Stereo8, k + j)
    {
      tx[i] := (w[start + at] as int - 128) * 0x100;
      at := at + 2;
    }
  }

  method FillBuffer(w: seq<byte>, v: View, l: Layout, ghost k: nat, offset: nat, tx: array<int>) returns (count: nat)
    requires LayoutOf(v.format) == Some(l) && v.start + v.len <= |w|
    requires offset == Pos(l, k) <= v.len
    modifies tx
    ensures count == Min(tx.Length, FrameCount(l, v.len) - k) && Filled(w, v.start, l, k, tx[..], count)
  {
    if v.format.bits == 16 && v.format.channels == 1 {
      count := FillFromMono16(w, v.start, v.len, k, offset, tx);
    } else if v.format.bits == 16 && v.format.channels == 2 {
      count := FillFromStereo16(w, v.start, v.len, k, offset, tx);
    } else if v.format.bits == 8 && v.format.channels == 1 {
      count := FillFromMono8(w, v.start, v.len, k, offset, tx);
    } else {
      count := FillFromStereo8(w, v.start, v.len, k, offset, tx);
    }
  }

  lemma {:induction false} LeftChannelGrows(w: seq<byte>, start: nat, l: Layout, k: nat, tx: seq<int>, count: nat)
    requires Filled(w, start, l, k, tx, count)
    ensures start + Pos(l, k) <= |w|
    ensures LeftChannel(w, start, l, k + count) == LeftChannel(w, start, l, k) + tx[..count]
  {
  }

  /** What the codec does in one playback: whether it can be set up and opened, how many buffers it
      accepts, and whether it closes well. */
  datatype Codec = Codec(opens: bool, writes: nat, closes: bool)

  /** How many of `n` samples the codec takes. */
  function Taken(codec: Codec, n: nat): nat {
    if codec.opens then Min(n, codec.writes * PLAY_CHUNK_SAMPLES) else 0
  }

  /** `n` frames of a view are played as far as the codec takes them, and all went well exactly if it
      opened, took all and closed. */
  ghost predicate Heard(w: seq<byte>, start: nat, l: Layout, n: nat, codec: Codec, err: EspErr, played: seq<int>) {
    && start + Pos(l, n) <= |w|
    && Pos(l, Taken(codec, n)) <= Pos(l, n)
    && played == LeftChannel(w, start, l, Taken(codec, n))
    && (err == OK <==> codec.opens && Taken(codec, n) == n && codec.closes)
  }

  /** `audio_play_view`: the codec gets one sample a frame, the left channel, in buffers of 512. */
  method PlayView(w: seq<byte>, v: View, codec: Codec) returns (err: EspErr, played: seq<int>)
    requires v.start + v.len <= |w|
    ensures v.len == 0 ==> err == InvalidArg && played == []
    ensures v.len > 0 && LayoutOf(v.format).None? ==> err == Fail && played == []
    ensures v.len > 0 && LayoutOf(v.format).Some? ==>
              var l := LayoutOf(v.format).value;
              Heard(w, v.start, l, FrameCount(l, v.len), codec, err, played)
  {
    played := [];
    if v.len == 0 {
      return InvalidArg, played;
    }
    var layout := LayoutOf(v.format);
    if !codec.opens || layout.None? {
      return Fail, played;
    }
    var l := layout.value;
    ghost var n := FrameCount(l, v.len);
    var tx := new int[PLAY_CHUNK_SAMPLES];
    ghost var k, writes: nat := 0, 0;
    var offset: nat, left := 0, codec.writes;
    while offset < v.len
      invariant fresh(tx) && tx.Length == PLAY_CHUNK_SAMPLES
      invariant k <= n && offset == Pos(l, k) <= v.len && v.start + Pos(l, n) <= |w|
      invariant played == LeftChannel(w, v.start, l, k)
      invariant left == codec.writes - writes && k == Min(n, writes * PLAY_CHUNK_SAMPLES)
      decreases v.len - offset
    {
      var count := FillBuffer(w, v, l, k, offset, tx);
      if count == 0 {
        break;
      }
      if left == 0 {
        return Fail, played;
      }
      left := left - 1;
      LeftChannelGrows(w, v.start, l, k, tx[..], count);
      played := played + tx[..count];
      k := k + count;
      writes := writes + 1;
      offset := offset + Advance(l, count);
    }
    return if codec.closes then OK else Fail, played;
  }

  /** How many bytes `count` frames take. */
  function Advance(l: Layout, count: nat): nat { Pos(l, count) }

  /** What comes of a file: nothing unless it is accepted and holds a whole frame; then the left channel
      of all whole frames of its view, which lies inside the file. */
  ghost predicate FileHeard(w: seq<byte>, v: View, codec: Codec, err: EspErr, played: seq<int>) {
    && 12 <= v.start && v.start + v.len <= |w| && LayoutOf(v.format).Some?
    && var l := LayoutOf(v.format).value;
       var n := FrameCount(l, v.len);
       if n == 0 then err == (if v.len == 0 then InvalidArg else Fail) && played == []
       else Heard(w, v.start, l, n, codec, err, played)
  }

  /** `audio_out_play_wav_buffer`, from the bytes of a file to the samples the codec gets. */
  method PlayWavBuffer(w: seq<byte>, codec: Codec) returns (err: EspErr, played: seq<int>)
    ensures |w| < 12 ==> err == InvalidArg && played == []
    ensures |w| >= 12 && Rejected(w) ==> err == Fail && played == []
    ensures forall v :: Accepts(w, v) ==> FileHeard(w, v, codec, err, played)
  {
    var v;
    err, v := ParseWav(w);
    if err != OK {
      return err, [];
    }
    ViewIsInside(w, v);
    ghost var whole := v;
    err, v := ValidateLayout(v);
    if err != OK {
      return err, [];
    }
    WholeFrames(LayoutOf(v.format).value, whole.len);
    err, played := PlayView(w, v, codec);
  }

  lemma {:induction false} WholeFrames(l: Layout, len: nat)
    ensures var n := FrameCount(l, len); Pos(l, n) <= len < Pos(l, n + 1) && FrameCount(l, Pos(l, n)) == n
  {
  }
}
