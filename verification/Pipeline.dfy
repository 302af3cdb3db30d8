/** The downlink pipeline: a reader, a decode task and a playback task joined by two bounded queues,
    with EOF and ERROR terminals, cancellation, failing sends and a join that can time out. */
module Pipeline {
  import opened Bytes
  import opened PacketScan
  import opened Framing

  const ENCODED_QUEUE_LENGTH := 80
  const PCM_QUEUE_LENGTH := 60

  /** What the Opus decoder, which has state, makes of the last packet of a history. */
  datatype DecodeResult = Pcm(pcm: seq<byte>) | Broken

  type Codec = seq<seq<byte>> -> DecodeResult

  /** What the response headers settle. */
  datatype Config = Config(framed: bool, opus: bool, codec: Codec)

  /** How a producer ended its queue. */
  datatype End = Open | Eof | Error(err: EspErr)

  datatype Item = Data(payload: seq<byte>) | Terminal(end: End)

  /** A first-in first-out queue seen with its past: every payload ever accepted, then perhaps one
      terminal; `next` items have been taken out. */
  datatype Channel = Channel(data: seq<seq<byte>>, end: End, next: nat)

  function Total(ch: Channel): nat { |ch.data| + if ch.end.Open? then 0 else 1 }

  ghost predicate Legal(ch: Channel) { ch.next <= Total(ch) }

  function Taken(ch: Channel): (s: seq<seq<byte>>)
    requires Legal(ch)
  {
    ch.data[..Min(ch.next, |ch.data|)]
  }

  datatype Reader = Reading | Handing(todo: seq<seq<byte>>, refused: bool) | Ending | Joining | Returned(err: EspErr)

  datatype Decoder = Taking | Emitting(todo: seq<seq<byte>>, refused: bool) | Forwarding(end: End) | DecoderDone

  /** `body` and `played` are histories: the body as the reads cut it, the bytes the playback
      callback saw. `heard` is what the Opus decoder has decoded. */
  datatype State = State(
    body: seq<seq<byte>>, pending: seq<byte>, reader: Reader, streamResult: EspErr, sawFirst: bool,
    encoded: Channel,
    decoder: Decoder, decodeResult: EspErr, opusPending: seq<byte>, heard: seq<seq<byte>>,
    pcm: Channel,
    playerDone: bool, playbackResult: EspErr, played: seq<byte>)

  const STARTED := State([], [], Reading, OK, false, Channel([], Open, 0), Taking, OK, [], [],
                         Channel([], Open, 0), false, OK, [])

  /** `result` parameters are what the environment decides: an allocation, a send, the callback; where
      nothing of that kind happens, it is OK. `cancelled` is whether a task drops the payload it took
      because the user has cancelled. */
  datatype Action =
    | ReadCancelled
    | ReadFails(err: EspErr)
    | Read(chunk: seq<byte>)
    | Hand(result: EspErr)
    | BodyEnds
    | SendTerminal(canAllocate: bool, sent: bool)
    | Join
    | JoinTimesOut
    | Take(cancelled: bool, result: EspErr)
    | Emit(result: EspErr)
    | Forward(result: EspErr)
    | Play(cancelled: bool, result: EspErr)

  predicate Running(s: State) { !s.reader.Returned? }

  /** The decode task has a payload to send. */
  predicate Sends(c: Config, s: State) {
    && s.decoder.Emitting? && s.decoder.todo != []
    && (c.opus ==> var out := c.codec(s.heard + [s.decoder.todo[0]]); out.Pcm? && out.pcm != [])
  }

  predicate TakesPayload(ch: Channel) { ch.next < |ch.data| }

  /** An accepted send needs room; a refused one can happen at any time. No allocation, send or read
      fails with the code of a cancellation. */
  predicate Enabled(c: Config, s: State, a: Action) {
    && Running(s)
    && match a
       case ReadCancelled => s.reader.Reading?
       case ReadFails(err) => s.reader.Reading? && err != OK && err != Cancelled
       case Read(chunk) => s.reader.Reading? && chunk != []
       case Hand(result) =>
         && s.reader.Handing? && result != Cancelled
         && (if s.reader.todo == [] then result == OK
             else result == OK ==> HasRoom(s.encoded, ENCODED_QUEUE_LENGTH))
       case BodyEnds => s.reader.Reading?
       case SendTerminal(canAllocate, sent) =>
         s.reader.Ending? && (canAllocate && sent ==> HasRoom(s.encoded, ENCODED_QUEUE_LENGTH))
       case Join => s.reader.Joining? && s.decoder.DecoderDone? && s.playerDone
       case JoinTimesOut => s.reader.Joining? && !(s.decoder.DecoderDone? && s.playerDone)
       case Take(cancelled, result) =>
         && s.decoder.Taking? && s.encoded.next < Total(s.encoded)
         && (cancelled ==> TakesPayload(s.encoded))
         && (result != OK ==> TakesPayload(s.encoded) && !cancelled && c.opus && result != Cancelled)
       case Emit(result) =>
         && s.decoder.Emitting? && result != Cancelled
         && (if Sends(c, s) then result == OK ==> HasRoom(s.pcm, PCM_QUEUE_LENGTH) else result == OK)
       case Forward(result) =>
         s.decoder.Forwarding? && result != Cancelled && (result == OK ==> HasRoom(s.pcm, PCM_QUEUE_LENGTH))
       case Play(cancelled, result) =>
         && !s.playerDone && s.pcm.next < Total(s.pcm)
         && (cancelled ==> TakesPayload(s.pcm))
         && (result != OK ==> TakesPayload(s.pcm) && !cancelled)
  }

  predicate HasRoom(ch: Channel, length: nat) { Total(ch) - ch.next < length }

  function Push(ch: Channel, payload: seq<byte>): Channel { ch.(data := ch.data + [payload]) }

  function Step(c: Config, s: State, a: Action): State
    requires Enabled(c, s, a)
  {
    match a
    case ReadCancelled => s.(streamResult := Cancelled, reader := Ending)
    case ReadFails(err) => s.(streamResult := err, reader := Ending)
    case Read(chunk) =>
      var t := s.(body := s.body + [chunk]);
      if c.framed then
        var q := DeviceScan(s.pending + chunk);
        t.(pending := q.rest, reader := Handing(Payloads(q.packets), q.refused))
      else t.(reader := Handing([chunk], false))
    case Hand(result) => HandStep(s, result)
    case BodyEnds => s.(streamResult := if c.framed && s.pending != [] then Fail else OK, reader := Ending)
    case SendTerminal(canAllocate, sent) =>
      if !canAllocate then s.(streamResult := NoMem, reader := Joining)
      else if !sent then s.(streamResult := Fail, reader := Joining)
      else s.(reader := Joining,
              encoded := s.encoded.(end := if s.streamResult == OK then Eof else Error(s.streamResult)))
    case Join => s.(reader := Returned(Verdicts(s)))
    case JoinTimesOut =>
      var t := s.(streamResult := Timeout);
      t.(reader := Returned(Verdicts(t)))
    case Take(cancelled, result) => TakeStep(c, s, cancelled, result)
    case Emit(result) => EmitStep(c, s, result)
    case Forward(result) => ForwardStep(s, result)
    case Play(cancelled, result) => PlayStep(s, cancelled, result)
  }

  /** The reader hands over one payload, or finds that it has handed over all of them. */
  function HandStep(s: State, result: EspErr): State
    requires s.reader.Handing?
  {
    if s.reader.todo == [] then
      if s.reader.refused then s.(sawFirst := true, streamResult := NoMem, reader := Ending)
      else s.(reader := Reading)
    else if result != OK then s.(sawFirst := true, streamResult := result, reader := Ending)
    else s.(sawFirst := true, encoded := Push(s.encoded, s.reader.todo[0]),
            reader := Handing(s.reader.todo[1..], s.reader.refused))
  }

  /** The decode task takes one item; `result` is whether the Opus buffer could grow. */
  function TakeStep(c: Config, s: State, cancelled: bool, result: EspErr): State
    requires s.encoded.next < Total(s.encoded)
  {
    var t := s.(encoded := s.encoded.(next := s.encoded.next + 1));
    if s.encoded.next == |s.encoded.data| then t.(decoder := Forwarding(s.encoded.end))
    else if cancelled then t.(decoder := Forwarding(Error(Cancelled)))
    else
      var payload := s.encoded.data[s.encoded.next];
      if !c.opus then t.(decoder := Emitting([payload], false))
      else if result != OK then t.(decoder := Forwarding(Error(result)))
      else
        var q := OpusScan(s.opusPending + payload);
        t.(opusPending := q.rest, decoder := Emitting(Payloads(q.packets), q.refused))
  }

  function EmitStep(c: Config, s: State, result: EspErr): State
    requires s.decoder.Emitting?
  {
    var todo := s.decoder.todo;
    if todo == [] then s.(decoder := if s.decoder.refused then Forwarding(Error(Fail)) else Taking)
    else
      var t := if c.opus then s.(heard := s.heard + [todo[0]]) else s;
      var out := if c.opus then c.codec(t.heard) else Pcm(todo[0]);
      if out.Broken? then t.(decoder := Forwarding(Error(Fail)))
      else if c.opus && out.pcm == [] then t.(decoder := s.decoder.(todo := todo[1..]))
      else if result != OK then t.(decoder := Forwarding(Error(result)))
      else t.(pcm := Push(s.pcm, out.pcm), decoder := s.decoder.(todo := todo[1..]))
  }

  /** The terminal goes on to the playback task. */
  function ForwardStep(s: State, result: EspErr): State
    requires s.decoder.Forwarding?
  {
    var t := s.(decodeResult := result, decoder := DecoderDone);
    if result == OK then t.(pcm := s.pcm.(end := s.decoder.end)) else t
  }

  function PlayStep(s: State, cancelled: bool, result: EspErr): State
    requires s.pcm.next < Total(s.pcm)
  {
    var t := s.(pcm := s.pcm.(next := s.pcm.next + 1));
    if s.pcm.next == |s.pcm.data| then
      t.(playerDone := true, playbackResult := if s.pcm.end.Error? then s.pcm.end.err else OK)
    else if cancelled then t.(playerDone := true, playbackResult := Cancelled)
    else t.(played := s.played + s.pcm.data[s.pcm.next], playerDone := result != OK, playbackResult := result)
  }

  /** The order in which the results of the three parties are reported. */
  function Verdicts(s: State): EspErr {
    if s.streamResult == Cancelled then Cancelled
    else if !s.sawFirst then EarlyEof
    else if s.streamResult != OK then s.streamResult
    else if s.decodeResult != OK then s.decodeResult
    else s.playbackResult
  }

  function Next(c: Config, s: State, a: Action): State {
    if Enabled(c, s, a) then Step(c, s, a) else s
  }

  function Run(c: Config, s: State, schedule: seq<Action>): State
    decreases |schedule|
  {
    if schedule == [] then s else Run(c, Next(c, s, schedule[0]), schedule[1..])
  }

  // ---------------------------------------------------------------- what a body means

  /** The payloads of the body, however it was cut into reads. */
  function Chunks(c: Config, body: seq<seq<byte>>): seq<seq<byte>> {
    if c.framed then Payloads(DeviceScan(Flatten(body)).packets) else body
  }

  /** The decoder's output for a history of packets. */
  function Outputs(codec: Codec, packets: seq<seq<byte>>): seq<byte> {
    if packets == [] then []
    else
      Outputs(codec, packets[..|packets| - 1]) +
      match codec(packets) case Pcm(pcm) => pcm case Broken => []
  }

  function OpusPackets(chunks: seq<seq<byte>>): seq<seq<byte>> {
    Payloads(OpusScan(Flatten(chunks)).packets)
  }

  /** The PCM bytes a sequence of payloads stands for. */
  function Meaning(c: Config, chunks: seq<seq<byte>>): seq<byte> {
    if c.opus then Outputs(c.codec, OpusPackets(chunks)) else Flatten(chunks)
  }

  lemma {:induction false} FlattenIsMonotone<T>(a: seq<seq<T>>, b: seq<seq<T>>)
    requires a <= b
    ensures Flatten(a) <= Flatten(b)
  {
    FlattenConcat(a, b[|a|..]);
    assert b == a + b[|a|..];
  }

  lemma {:induction false} OutputsAreMonotone(codec: Codec, a: seq<seq<byte>>, b: seq<seq<byte>>)
    requires a <= b
    ensures Outputs(codec, a) <= Outputs(codec, b)
    decreases |b|
  {
    if |a| < |b| {
      OutputsAreMonotone(codec, a, b[..|b| - 1]);
    } else {
      assert a == b;
    }
  }

  lemma {:induction false} PayloadsOfConcat(a: seq<Packet>, b: seq<Packet>)
    ensures Payloads(a + b) == Payloads(a) + Payloads(b)
  {
  }

  lemma {:induction false} MeaningIsMonotone(c: Config, a: seq<seq<byte>>, b: seq<seq<byte>>)
    requires a <= b
    ensures Meaning(c, a) <= Meaning(c, b)
  {
    FlattenIsMonotone(a, b);
    if c.opus {
      var more := Flatten(b)[|Flatten(a)|..];
      assert Flatten(b) == Flatten(a) + more;
      ScanIsCutInvariant(OPUS_HEADER, OpusRule, Flatten(a), more);
      var p := OpusScan(Flatten(a));
      var q := OpusScan(p.rest + more);
      PayloadsOfConcat(p.packets, q.packets);
      OutputsAreMonotone(c.codec, OpusPackets(a), OpusPackets(b));
    }
  }

  // ---------------------------------------------------------------- invariants, stage by stage

  ghost predicate ReaderInv(c: Config, s: State) {
    && Legal(s.encoded)
    && s.encoded.data <= Chunks(c, s.body)
    && (Running(s) && !s.reader.Joining? ==> s.encoded.end.Open?)
    && (s.reader.Reading? || s.reader.Handing? ==>
          && s.streamResult == OK
          && (c.framed ==> s.pending == DeviceScan(Flatten(s.body)).rest))
    && (s.reader.Reading? ==> s.encoded.data == Chunks(c, s.body) && !ReadRefused(c, s.body))
    && (s.reader.Handing? ==>
          && s.encoded.data + s.reader.todo == Chunks(c, s.body)
          && s.reader.refused == ReadRefused(c, s.body))
    && (s.reader.Ending? && s.streamResult == OK ==> Complete(c, s))
    && (s.reader.Joining? && s.streamResult == OK ==> s.encoded.end == Eof)
    && (s.encoded.end == Eof ==> Complete(c, s))
    && (s.encoded.end.Error? ==> s.encoded.end.err != OK)
  }

  ghost predicate ReadRefused(c: Config, body: seq<seq<byte>>) {
    c.framed && DeviceScan(Flatten(body)).refused
  }

  /** The whole body was taken: every payload was queued, and no partial frame was left. */
  ghost predicate Complete(c: Config, s: State) {
    s.encoded.data == Chunks(c, s.body) && (c.framed ==> DeviceScan(Flatten(s.body)).rest == [])
  }

  ghost predicate DecoderInv(c: Config, s: State) {
    && Legal(s.encoded) && Legal(s.pcm)
    && (s.pcm.end == Eof || s.decoder == Forwarding(Eof) ==>
          && s.encoded.end == Eof && s.encoded.next == Total(s.encoded)
          && Flatten(s.pcm.data) == Meaning(c, s.encoded.data))
    && (!s.decoder.DecoderDone? ==> s.pcm.end.Open?)
    && (s.decoder.DecoderDone? && s.decodeResult == OK ==> !s.pcm.end.Open?)
    && Flatten(s.pcm.data) <= Meaning(c, Taken(s.encoded))
    && (s.decoder.Taking? || s.decoder.Emitting? ==>
          && s.encoded.next <= |s.encoded.data|
          && (c.opus ==> s.opusPending == OpusScan(Flatten(Taken(s.encoded))).rest))
    && (s.decoder.Taking? ==>
          && Flatten(s.pcm.data) == Meaning(c, Taken(s.encoded))
          && (c.opus ==> s.heard == OpusPackets(Taken(s.encoded)) && !OpusScan(Flatten(Taken(s.encoded))).refused))
    && (s.decoder.Emitting? ==>
          if c.opus then
            && s.heard + s.decoder.todo == OpusPackets(Taken(s.encoded))
            && s.decoder.refused == OpusScan(Flatten(Taken(s.encoded))).refused
            && Flatten(s.pcm.data) == Outputs(c.codec, s.heard)
          else
            !s.decoder.refused && Flatten(s.pcm.data) + Flatten(s.decoder.todo) == Flatten(Taken(s.encoded)))
    && (s.decoder.Forwarding? ==> !s.decoder.end.Open? && (s.decoder.end.Error? ==> s.decoder.end.err != OK))
    && (s.pcm.end.Error? ==> s.pcm.end.err != OK)
  }

  ghost predicate PlayerInv(s: State) {
    && Legal(s.pcm)
    && s.played <= Flatten(s.pcm.data)
    && (!s.playerDone ==> s.pcm.next <= |s.pcm.data| && s.played == Flatten(Taken(s.pcm)))
    && (s.playerDone && s.playbackResult == OK ==>
          s.pcm.end == Eof && s.pcm.next == Total(s.pcm) && s.played == Flatten(s.pcm.data))
  }

  ghost predicate ReturnInv(s: State) {
    s.reader == Returned(OK) ==>
      && s.sawFirst && s.streamResult == OK && s.decodeResult == OK && s.playbackResult == OK
      && s.decoder.DecoderDone? && s.playerDone && s.encoded.end == Eof
  }

  ghost predicate Inv(c: Config, s: State) {
    ReaderInv(c, s) && DecoderInv(c, s) && PlayerInv(s) && ReturnInv(s)
  }

  lemma {:induction false} TakenIsPrefix(ch: Channel)
    requires Legal(ch)
    ensures Taken(ch) <= ch.data
    ensures ch.next >= |ch.data| ==> Taken(ch) == ch.data
  {
  }

  /** A read is scanned together with what the last one left. */
  lemma {:induction false} ReadKeepsReader(c: Config, s: State, chunk: seq<byte>)
    requires ReaderInv(c, s) && Enabled(c, s, Read(chunk))
    ensures ReaderInv(c, Step(c, s, Read(chunk)))
  {
    var t := Step(c, s, Read(chunk));
    if c.framed {
      FlattenSnoc(s.body, chunk);
      ScanIsCutInvariant(FRAME_HEADER, DeviceRule, Flatten(s.body), chunk);
      var p := DeviceScan(Flatten(s.body));
      var q := DeviceScan(p.rest + chunk);
      PayloadsOfConcat(p.packets, q.packets);
      assert Chunks(c, t.body) == s.encoded.data + t.reader.todo;
    }
  }

  lemma {:induction false} ReaderStepKeepsReader(c: Config, s: State, a: Action)
    requires ReaderInv(c, s) && Enabled(c, s, a)
    requires a.ReadCancelled? || a.ReadFails? || a.Hand? || a.BodyEnds? || a.SendTerminal? || a.Join? || a.JoinTimesOut?
    ensures ReaderInv(c, Step(c, s, a))
  {
    if a.Hand? && s.reader.todo != [] {
      assert s.encoded.data + s.reader.todo == s.encoded.data + [s.reader.todo[0]] + s.reader.todo[1..];
    }
  }

  /** The part of the state each stage's invariant is about. */
  ghost predicate SameReader(s: State, t: State) {
    && t.body == s.body && t.pending == s.pending && t.reader == s.reader && t.streamResult == s.streamResult
    && t.encoded.data == s.encoded.data && t.encoded.end == s.encoded.end && Legal(t.encoded)
  }

  ghost predicate SameDecoder(s: State, t: State) {
    && t.encoded == s.encoded && t.decoder == s.decoder && t.decodeResult == s.decodeResult
    && t.opusPending == s.opusPending && t.heard == s.heard
    && t.pcm.data == s.pcm.data && t.pcm.end == s.pcm.end && Legal(t.pcm)
  }

  lemma {:induction false} DecoderFrame(c: Config, s: State, t: State)
    requires DecoderInv(c, s) && SameDecoder(s, t)
    ensures DecoderInv(c, t)
  {
  }

  /** What the reader does to the first queue the decode task does not notice. */
  lemma {:induction false} QueueGrowthKeepsDecoder(c: Config, s: State, t: State)
    requires DecoderInv(c, s) && s.encoded.end.Open?
    requires SameDecoder(s, t.(encoded := s.encoded)) && Legal(t.encoded)
    requires (exists payload :: t.encoded == Push(s.encoded, payload)) || t.encoded == s.encoded.(end := t.encoded.end)
    ensures DecoderInv(c, t)
  {
    assert Taken(t.encoded) == Taken(s.encoded);
  }

  lemma {:induction false} ReaderStepKeepsDecoder(c: Config, s: State, a: Action)
    requires ReaderInv(c, s) && DecoderInv(c, s) && Enabled(c, s, a)
    requires !a.Take? && !a.Emit? && !a.Forward? && !a.Play?
    ensures DecoderInv(c, Step(c, s, a))
  {
    var t := Step(c, s, a);
    if t.encoded == s.encoded {
      DecoderFrame(c, s, t);
    } else {
      assert a.Hand? ==> t.encoded == Push(s.encoded, s.reader.todo[0]);
      QueueGrowthKeepsDecoder(c, s, t);
    }
  }

  lemma {:induction false} TakeTerminalKeepsDecoder(c: Config, s: State, cancelled: bool, result: EspErr)
    requires ReaderInv(c, s) && DecoderInv(c, s) && Enabled(c, s, Take(cancelled, result))
    requires s.encoded.next == |s.encoded.data|
    ensures DecoderInv(c, Step(c, s, Take(cancelled, result)))
  {
    assert Taken(s.encoded) == s.encoded.data;
    assert Taken(Step(c, s, Take(cancelled, result)).encoded) == s.encoded.data;
  }

  /** The splitter's view after one more payload. */
  lemma {:induction false} OnePayloadMore(before: seq<seq<byte>>, payload: seq<byte>)
    ensures var p := OpusScan(Flatten(before));
            var q := OpusScan(p.rest + payload);
            var r := OpusScan(Flatten(before + [payload]));
            && OpusPackets(before + [payload]) == OpusPackets(before) + Payloads(q.packets)
            && r.rest == q.rest && r.refused == q.refused
  {
    FlattenSnoc(before, payload);
    ScanIsCutInvariant(OPUS_HEADER, OpusRule, Flatten(before), payload);
    var p := OpusScan(Flatten(before));
    PayloadsOfConcat(p.packets, OpusScan(p.rest + payload).packets);
  }

  lemma {:induction false} TakeKeepsDecoder(c: Config, s: State, cancelled: bool, result: EspErr)
    requires ReaderInv(c, s) && DecoderInv(c, s) && Enabled(c, s, Take(cancelled, result))
    ensures DecoderInv(c, Step(c, s, Take(cancelled, result)))
  {
    if s.encoded.next < |s.encoded.data| {
      var t := Step(c, s, Take(cancelled, result));
      var before, payload := Taken(s.encoded), s.encoded.data[s.encoded.next];
      assert Taken(t.encoded) == before + [payload];
      MeaningIsMonotone(c, before, before + [payload]);
      OnePayloadMore(before, payload);
      FlattenSnoc(before, payload);
      assert Flatten([payload]) == payload by {
        assert Flatten([payload]) == payload + Flatten([]);
      }
    } else {
      TakeTerminalKeepsDecoder(c, s, cancelled, result);
    }
  }

  lemma {:induction false} EmitKeepsDecoder(c: Config, s: State, result: EspErr)
    requires DecoderInv(c, s) && Enabled(c, s, Emit(result))
    ensures DecoderInv(c, Step(c, s, Emit(result)))
  {
    var todo := s.decoder.todo;
    if todo == [] {
      assert s.heard + todo == s.heard;
    } else if c.opus {
      EmitOpusKeepsDecoder(c, s, result);
    } else {
      FlattenSnoc(s.pcm.data, todo[0]);
      assert Flatten(s.pcm.data) + (todo[0] + Flatten(todo[1..])) == Flatten(s.pcm.data) + todo[0] + Flatten(todo[1..]);
    }
  }

  /** One more packet decoded, out of those the splitter has found. */
  lemma {:induction false} OnePacketMore(codec: Codec, heard: seq<seq<byte>>, todo: seq<seq<byte>>, out: seq<seq<byte>>)
    requires todo != [] && Flatten(out) == Outputs(codec, heard)
    ensures var more := heard + [todo[0]];
      && more + todo[1..] == heard + todo
      && Outputs(codec, heard) <= Outputs(codec, heard + todo)
      && match codec(more)
         case Broken => true
         case Pcm(pcm) =>
           && Outputs(codec, more) <= Outputs(codec, heard + todo)
           && Flatten(out + [pcm]) == Outputs(codec, more)
           && (pcm == [] ==> Outputs(codec, more) == Outputs(codec, heard))
  {
    var more := heard + [todo[0]];
    assert more + todo[1..] == heard + todo;
    assert more[..|more| - 1] == heard;
    OutputsAreMonotone(codec, more, heard + todo);
    OutputsAreMonotone(codec, heard, heard + todo);
    if codec(more).Pcm? {
      FlattenSnoc(out, codec(more).pcm);
      assert Outputs(codec, heard) + [] == Outputs(codec, heard);
    }
  }

  lemma {:induction false} EmitOpusKeepsDecoder(c: Config, s: State, result: EspErr)
    requires DecoderInv(c, s) && Enabled(c, s, Emit(result)) && c.opus && s.decoder.todo != []
    ensures DecoderInv(c, Step(c, s, Emit(result)))
  {
    OnePacketMore(c.codec, s.heard, s.decoder.todo, s.pcm.data);
  }

  lemma {:induction false} ForwardKeepsDecoder(c: Config, s: State, result: EspErr)
    requires DecoderInv(c, s) && Enabled(c, s, Forward(result))
    ensures DecoderInv(c, Step(c, s, Forward(result)))
  {
  }

  lemma {:induction false} OthersKeepPlayer(c: Config, s: State, a: Action)
    requires DecoderInv(c, s) && PlayerInv(s) && Enabled(c, s, a) && !a.Play?
    ensures PlayerInv(Step(c, s, a))
  {
    var t := Step(c, s, a);
    OnlyTheProducerGrows(c, s, a);
    if !s.playerDone {
      assert Taken(t.pcm) == Taken(s.pcm);
    }
    if t.pcm.data != s.pcm.data {
      FlattenSnoc(s.pcm.data, t.pcm.data[|s.pcm.data|]);
    }
  }

  /** What the player can notice of a step of the others. */
  lemma {:induction false} OnlyTheProducerGrows(c: Config, s: State, a: Action)
    requires Legal(s.pcm) && Enabled(c, s, a) && !a.Play?
    requires s.decoder.Emitting? || s.decoder.Forwarding? ==> s.pcm.end.Open?
    ensures var t := Step(c, s, a);
      && t.playerDone == s.playerDone && t.playbackResult == s.playbackResult && t.played == s.played
      && t.pcm.next == s.pcm.next
      && (t.pcm.end == s.pcm.end || (s.pcm.end.Open? && t.pcm.data == s.pcm.data))
      && (t.pcm.data == s.pcm.data
          || (s.pcm.end.Open? && exists out :: t.pcm.data == s.pcm.data + [out]))
  {
    var t := Step(c, s, a);
    if t.pcm.data != s.pcm.data {
      assert t.pcm.data == s.pcm.data + [t.pcm.data[|s.pcm.data|]];
    }
  }

  lemma {:induction false} PlayKeepsPlayer(c: Config, s: State, cancelled: bool, result: EspErr)
    requires DecoderInv(c, s) && PlayerInv(s) && Enabled(c, s, Play(cancelled, result))
    ensures PlayerInv(Step(c, s, Play(cancelled, result)))
  {
    var t := Step(c, s, Play(cancelled, result));
    TakenIsPrefix(s.pcm);
    FlattenIsMonotone(Taken(t.pcm), s.pcm.data);
    if s.pcm.next < |s.pcm.data| {
      assert Taken(t.pcm) == Taken(s.pcm) + [s.pcm.data[s.pcm.next]];
      FlattenSnoc(Taken(s.pcm), s.pcm.data[s.pcm.next]);
    }
  }

  lemma {:induction false} DecoderStepsLeaveReader(c: Config, s: State, a: Action)
    requires Legal(s.encoded) && Enabled(c, s, a) && (a.Take? || a.Emit? || a.Forward?)
    ensures SameReader(s, Step(c, s, a))
  {
  }

  lemma {:induction false} PlayLeavesOthers(c: Config, s: State, a: Action)
    requires Legal(s.encoded) && Enabled(c, s, a) && a.Play?
    ensures SameReader(s, Step(c, s, a)) && SameDecoder(s, Step(c, s, a))
  {
  }

  lemma {:induction false} ReaderFrame(c: Config, s: State, t: State)
    requires ReaderInv(c, s) && SameReader(s, t)
    ensures ReaderInv(c, t)
  {
  }

  lemma {:induction false} DecoderStepKeepsInv(c: Config, s: State, a: Action)
    requires Inv(c, s) && Enabled(c, s, a) && (a.Take? || a.Emit? || a.Forward?)
    ensures Inv(c, Step(c, s, a))
  {
    match a {
      case Take(cancelled, result) => TakeKeepsDecoder(c, s, cancelled, result);
      case Emit(result) => EmitKeepsDecoder(c, s, result);
      case Forward(result) => ForwardKeepsDecoder(c, s, result);
    }
    DecoderStepsLeaveReader(c, s, a);
    ReaderFrame(c, s, Step(c, s, a));
    OthersKeepPlayer(c, s, a);
  }

  lemma {:induction false} PlayKeepsInv(c: Config, s: State, a: Action)
    requires Inv(c, s) && Enabled(c, s, a) && a.Play?
    ensures Inv(c, Step(c, s, a))
  {
    PlayKeepsPlayer(c, s, a.cancelled, a.result);
    PlayLeavesOthers(c, s, a);
    ReaderFrame(c, s, Step(c, s, a));
    DecoderFrame(c, s, Step(c, s, a));
  }

  lemma {:induction false} ReaderStepKeepsInv(c: Config, s: State, a: Action)
    requires Inv(c, s) && Enabled(c, s, a) && !a.Take? && !a.Emit? && !a.Forward? && !a.Play?
    ensures Inv(c, Step(c, s, a))
  {
    if a.Read? {
      ReadKeepsReader(c, s, a.chunk);
    } else {
      ReaderStepKeepsReader(c, s, a);
    }
    ReaderStepKeepsDecoder(c, s, a);
    OthersKeepPlayer(c, s, a);
  }

  lemma {:induction false} StepKeepsInv(c: Config, s: State, a: Action)
    requires Inv(c, s) && Enabled(c, s, a)
    ensures Inv(c, Step(c, s, a))
  {
    if a.Play? {
      PlayKeepsInv(c, s, a);
    } else if a.Take? || a.Emit? || a.Forward? {
      DecoderStepKeepsInv(c, s, a);
    } else {
      ReaderStepKeepsInv(c, s, a);
    }
  }

  lemma {:induction false} RunKeepsInv(c: Config, s: State, schedule: seq<Action>)
    requires Inv(c, s)
    ensures Inv(c, Run(c, s, schedule))
    decreases |schedule|
  {
    if schedule != [] {
      if Enabled(c, s, schedule[0]) {
        StepKeepsInv(c, s, schedule[0]);
      }
      RunKeepsInv(c, Next(c, s, schedule[0]), schedule[1..]);
    }
  }

  lemma {:induction false} StartedInv(c: Config)
    ensures Inv(c, STARTED)
  {
    assert Flatten<byte>([]) == [];
  }

  /** In every run the callback sees a prefix of what the body means, in order, whatever is cancelled
      or fails. If the stream returns OK, it saw all of it: both tasks consumed the EOF, and the body
      did not end inside a frame. */
  lemma {:induction false} CallbackSeesAPrefix(c: Config, schedule: seq<Action>)
    ensures var s := Run(c, STARTED, schedule);
      && s.played <= Meaning(c, Chunks(c, s.body))
      && (s.reader == Returned(OK) ==>
            && s.played == Meaning(c, Chunks(c, s.body))
            && s.encoded.end == Eof && s.encoded.next == Total(s.encoded)
            && s.pcm.end == Eof && s.pcm.next == Total(s.pcm)
            && (c.framed ==> DeviceScan(Flatten(s.body)).rest == []))
  {
    StartedInv(c);
    RunKeepsInv(c, STARTED, schedule);
    var s := Run(c, STARTED, schedule);
    TakenIsPrefix(s.encoded);
    MeaningIsMonotone(c, Taken(s.encoded), s.encoded.data);
    MeaningIsMonotone(c, s.encoded.data, Chunks(c, s.body));
  }

  /** For an unframed PCM stream that is the body itself. */
  lemma {:induction false} PcmIsPlayedAsRead(c: Config, schedule: seq<Action>)
    requires !c.opus && !c.framed
    ensures var s := Run(c, STARTED, schedule);
      s.played <= Flatten(s.body) && (s.reader == Returned(OK) ==> s.played == Flatten(s.body))
  {
    CallbackSeesAPrefix(c, schedule);
  }

  /** The beginning of what the server framed scans to the beginning of its chunks. */
  lemma {:induction false} FramedPrefix(chunks: seq<seq<byte>>, got: seq<byte>)
    requires AllEncodable(chunks) && FitsDevice(chunks) && got <= Wire(Frames(chunks))
    ensures Payloads(DeviceScan(got).packets) <= chunks
    ensures got == Wire(Frames(chunks)) ==> Payloads(DeviceScan(got).packets) == chunks
  {
    var all := Wire(Frames(chunks));
    var more := all[|got|..];
    DownlinkRoundTrip(chunks, [all]);
    FeedIsScanOfWhole(FRAME_HEADER, DeviceRule, [all]);
    assert Flatten([all]) == all + Flatten([]) == all;
    assert all == got + more;
    ScanIsCutInvariant(FRAME_HEADER, DeviceRule, got, more);
    var p := DeviceScan(got);
    PayloadsOfConcat(p.packets, DeviceScan(p.rest + more).packets);
  }

  /** For the server's frames it is the chunks the server framed, if every one fits the device. */
  lemma {:induction false} FramedPcmIsPlayedAsSent(c: Config, schedule: seq<Action>, chunks: seq<seq<byte>>)
    requires !c.opus && c.framed && AllEncodable(chunks) && FitsDevice(chunks)
    requires Flatten(Run(c, STARTED, schedule).body) <= Wire(Frames(chunks))
    ensures var s := Run(c, STARTED, schedule);
      && s.played <= Flatten(chunks)
      && (s.reader == Returned(OK) && Flatten(s.body) == Wire(Frames(chunks)) ==> s.played == Flatten(chunks))
  {
    CallbackSeesAPrefix(c, schedule);
    var s := Run(c, STARTED, schedule);
    FramedPrefix(chunks, Flatten(s.body));
    FlattenIsMonotone(Chunks(c, s.body), chunks);
  }

  // ---------------------------------------------------------------- when a stream can return OK

  ghost predicate Reaches(c: Config, s: State, t: State) {
    exists schedule :: Run(c, s, schedule) == t
  }

  lemma {:induction false} Stays(c: Config, s: State)
    ensures Reaches(c, s, s)
  {
    assert Run(c, s, []) == s;
  }

  lemma {:induction false} Turns(c: Config, s: State, a: Action, t: State)
    requires Reaches(c, Next(c, s, a), t)
    ensures Reaches(c, s, t)
  {
    var rest :| Run(c, Next(c, s, a), rest) == t;
    assert ([a] + rest)[1..] == rest;
    assert Run(c, s, [a] + rest) == t;
  }

  lemma {:induction false} RunAppend(c: Config, s: State, a: seq<Action>, b: seq<Action>)
    ensures Run(c, s, a + b) == Run(c, Run(c, s, a), b)
    decreases |a|
  {
    if a == [] {
      assert a + b == b;
    } else {
      assert (a + b)[1..] == a[1..] + b;
      RunAppend(c, Next(c, s, a[0]), a[1..], b);
    }
  }

  lemma {:induction false} GoesOn(c: Config, s: State, t: State, u: State)
    requires Reaches(c, s, t) && Reaches(c, t, u)
    ensures Reaches(c, s, u)
  {
    var first :| Run(c, s, first) == t;
    var second :| Run(c, t, second) == u;
    RunAppend(c, s, first, second);
  }

  /** The decoder breaks on none of the packets, one after the other. */
  ghost predicate Unbroken(codec: Codec, packets: seq<seq<byte>>) {
    forall k :: 0 < k <= |packets| ==> codec(packets[..k]).Pcm?
  }

  ghost predicate Decodable(c: Config, chunks: seq<seq<byte>>) {
    c.opus ==> !OpusScan(Flatten(chunks)).refused && Unbroken(c.codec, OpusPackets(chunks))
  }

  ghost predicate NoEmptyReads(body: seq<seq<byte>>) {
    forall i :: 0 <= i < |body| ==> body[i] != []
  }

  /** What a body needs for the stream to return OK. Nothing is asked of what is left of an Opus stream
      behind its last complete packet. */
  ghost predicate Playable(c: Config, body: seq<seq<byte>>) {
    && NoEmptyReads(body) && Chunks(c, body) != []
    && (c.framed ==> DeviceScan(Flatten(body)).rest == [] && !DeviceScan(Flatten(body)).refused)
    && Decodable(c, Chunks(c, body))
  }

  lemma {:induction false} ChunksAreMonotone(c: Config, a: seq<seq<byte>>, b: seq<seq<byte>>)
    requires a <= b
    ensures Chunks(c, a) <= Chunks(c, b) && (ReadRefused(c, a) ==> ReadRefused(c, b))
  {
    if c.framed {
      FlattenIsMonotone(a, b);
      var more := Flatten(b)[|Flatten(a)|..];
      assert Flatten(b) == Flatten(a) + more;
      ScanIsCutInvariant(FRAME_HEADER, DeviceRule, Flatten(a), more);
      var p := DeviceScan(Flatten(a));
      PayloadsOfConcat(p.packets, DeviceScan(p.rest + more).packets);
      if p.refused {
        RefusedIsFinal(FRAME_HEADER, DeviceRule, Flatten(a), more);
      }
    }
  }

  lemma {:induction false} DecodableIsMonotone(c: Config, a: seq<seq<byte>>, b: seq<seq<byte>>)
    requires a <= b && Decodable(c, b)
    ensures Decodable(c, a)
  {
    if c.opus {
      FlattenIsMonotone(a, b);
      var more := Flatten(b)[|Flatten(a)|..];
      assert Flatten(b) == Flatten(a) + more;
      ScanIsCutInvariant(OPUS_HEADER, OpusRule, Flatten(a), more);
      var p := OpusScan(Flatten(a));
      PayloadsOfConcat(p.packets, OpusScan(p.rest + more).packets);
      if p.refused {
        RefusedIsFinal(OPUS_HEADER, OpusRule, Flatten(a), more);
      }
      UnbrokenPrefix(c.codec, OpusPackets(a), OpusPackets(b));
    }
  }

  lemma {:induction false} UnbrokenPrefix(codec: Codec, a: seq<seq<byte>>, b: seq<seq<byte>>)
    requires a <= b && Unbroken(codec, b)
    ensures Unbroken(codec, a)
  {
    assert forall k :: 0 < k <= |a| ==> a[..k] == b[..k];
  }

  // A stream in which nothing fails and every payload is played as soon as it is read.

  /** Nothing has ended and the playback task has caught up with the decode task. */
  ghost predicate Flowing(c: Config, s: State) {
    && Inv(c, s) && Running(s) && s.encoded.end.Open?
    && !s.playerDone && s.decodeResult == OK && s.playbackResult == OK
    && s.pcm.end.Open? && s.pcm.next == |s.pcm.data|
  }

  ghost predicate CaughtUp(c: Config, s: State) {
    && Flowing(c, s) && s.decoder.Taking? && s.encoded.next == |s.encoded.data|
    && (s.encoded.data != [] ==> s.sawFirst)
  }

  ghost predicate SameIntake(s: State, t: State) {
    && t.body == s.body && t.reader == s.reader && t.encoded == s.encoded && t.sawFirst == s.sawFirst
  }

  /** One decoded packet goes all the way. */
  lemma {:induction false} PlaysOne(c: Config, s: State) returns (t: State)
    requires Flowing(c, s) && s.decoder.Emitting? && s.decoder.todo != []
    requires c.opus ==> Unbroken(c.codec, s.heard + s.decoder.todo)
    ensures Reaches(c, s, t) && Flowing(c, t) && SameIntake(s, t)
    ensures t.decoder == s.decoder.(todo := s.decoder.todo[1..])
    ensures c.opus ==> t.heard + t.decoder.todo == s.heard + s.decoder.todo
  {
    var more, all := s.heard + [s.decoder.todo[0]], s.heard + s.decoder.todo;
    assert more == all[..|more|] && more + s.decoder.todo[1..] == all;
    var u := Step(c, s, Emit(OK));
    StepKeepsInv(c, s, Emit(OK));
    if u.pcm == s.pcm {
      t := u;
      Stays(c, t);
    } else {
      t := Step(c, u, Play(false, OK));
      StepKeepsInv(c, u, Play(false, OK));
      Stays(c, t);
      Turns(c, u, Play(false, OK), t);
    }
    Turns(c, s, Emit(OK), t);
  }

  lemma {:induction false} PlaysAll(c: Config, s: State) returns (t: State)
    requires Flowing(c, s) && s.decoder.Emitting? && !s.decoder.refused
    requires c.opus ==> Unbroken(c.codec, s.heard + s.decoder.todo)
    ensures Reaches(c, s, t) && Flowing(c, t) && SameIntake(s, t) && t.decoder.Taking?
    decreases |s.decoder.todo|
  {
    if s.decoder.todo == [] {
      t := Step(c, s, Emit(OK));
      StepKeepsInv(c, s, Emit(OK));
      Stays(c, t);
      Turns(c, s, Emit(OK), t);
    } else {
      var u := PlaysOne(c, s);
      t := PlaysAll(c, u);
      GoesOn(c, s, u, t);
    }
  }

  /** One payload goes all the way. */
  lemma {:induction false} PassesOne(c: Config, s: State) returns (t: State)
    requires CaughtUp(c, s) && s.reader.Handing? && s.reader.todo != []
    requires Decodable(c, s.encoded.data + s.reader.todo)
    ensures Reaches(c, s, t) && CaughtUp(c, t) && t.body == s.body
    ensures t.reader == s.reader.(todo := s.reader.todo[1..])
  {
    var u := Step(c, s, Hand(OK));
    StepKeepsInv(c, s, Hand(OK));
    var v := Step(c, u, Take(false, OK));
    StepKeepsInv(c, u, Take(false, OK));
    TakenIsPrefix(v.encoded);
    assert v.encoded.data <= s.encoded.data + s.reader.todo;
    DecodableIsMonotone(c, v.encoded.data, s.encoded.data + s.reader.todo);
    t := PlaysAll(c, v);
    Turns(c, u, Take(false, OK), t);
    Turns(c, s, Hand(OK), t);
  }

  lemma {:induction false} PassesAll(c: Config, s: State) returns (t: State)
    requires CaughtUp(c, s) && s.reader.Handing? && !s.reader.refused
    requires Decodable(c, Chunks(c, s.body))
    ensures Reaches(c, s, t) && CaughtUp(c, t) && t.reader.Reading? && t.body == s.body
    decreases |s.reader.todo|
  {
    if s.reader.todo == [] {
      t := Step(c, s, Hand(OK));
      StepKeepsInv(c, s, Hand(OK));
      Stays(c, t);
      Turns(c, s, Hand(OK), t);
    } else {
      var u := PassesOne(c, s);
      t := PassesAll(c, u);
      GoesOn(c, s, u, t);
    }
  }

  lemma {:induction false} PlaysRead(c: Config, s: State, chunk: seq<byte>) returns (t: State)
    requires CaughtUp(c, s) && s.reader.Reading? && chunk != []
    requires var body := s.body + [chunk]; !ReadRefused(c, body) && Decodable(c, Chunks(c, body))
    ensures Reaches(c, s, t) && CaughtUp(c, t) && t.reader.Reading? && t.body == s.body + [chunk]
  {
    var u := Step(c, s, Read(chunk));
    StepKeepsInv(c, s, Read(chunk));
    t := PassesAll(c, u);
    Turns(c, s, Read(chunk), t);
  }

  /** Every prefix of a good body can be read and played. */
  lemma {:induction false} PlaysPrefix(c: Config, body: seq<seq<byte>>, k: nat) returns (t: State)
    requires Playable(c, body) && k <= |body|
    ensures Reaches(c, STARTED, t) && CaughtUp(c, t) && t.reader.Reading? && t.body == body[..k]
  {
    if k == 0 {
      t := STARTED;
      StartedInv(c);
      Stays(c, t);
    } else {
      var s := PlaysPrefix(c, body, k - 1);
      assert s.body + [body[k - 1]] == body[..k];
      ChunksAreMonotone(c, body[..k], body);
      DecodableIsMonotone(c, Chunks(c, body[..k]), Chunks(c, body));
      t := PlaysRead(c, s, body[k - 1]);
      GoesOn(c, STARTED, s, t);
    }
  }

  /** From there the ends go through, and everybody reports OK. */
  lemma {:induction false} Ends(c: Config, s: State) returns (t: State)
    requires CaughtUp(c, s) && s.reader.Reading? && s.encoded.data != [] && (c.framed ==> s.pending == [])
    ensures Reaches(c, s, t) && t.reader == Returned(OK) && t.body == s.body
  {
    var s1 := Step(c, s, BodyEnds);
    var s2 := Step(c, s1, SendTerminal(true, true));
    var s3 := Step(c, s2, Take(false, OK));
    var s4 := Step(c, s3, Forward(OK));
    var s5 := Step(c, s4, Play(false, OK));
    t := Step(c, s5, Join);
    Stays(c, t);
    Turns(c, s5, Join, t);
    Turns(c, s4, Play(false, OK), t);
    Turns(c, s3, Forward(OK), t);
    Turns(c, s2, Take(false, OK), t);
    Turns(c, s1, SendTerminal(true, true), t);
    Turns(c, s, BodyEnds, t);
  }

  // And what OK says about the body.

  /** A stream that has not failed so far has met nothing it cannot play. */
  ghost predicate ReadsWell(c: Config, s: State) {
    && NoEmptyReads(s.body)
    && (s.sawFirst && s.streamResult == OK ==> s.encoded.data != [])
    && (!s.reader.Reading? && !s.reader.Handing? && s.streamResult == OK ==> !ReadRefused(c, s.body))
  }

  ghost predicate DecodesWell(c: Config, s: State) {
    c.opus ==>
      && (s.decoder.Taking? || s.decoder.Emitting? ==> Unbroken(c.codec, s.heard))
      && (s.decoder == Forwarding(Eof) || s.pcm.end == Eof ==> Decodable(c, s.encoded.data))
  }

  lemma {:induction false} OthersReadWell(c: Config, s: State, a: Action)
    requires ReadsWell(c, s) && Enabled(c, s, a) && (a.Take? || a.Emit? || a.Forward? || a.Play?)
    ensures ReadsWell(c, Step(c, s, a))
  {
  }

  lemma {:induction false} StepReadsWell(c: Config, s: State, a: Action)
    requires ReaderInv(c, s) && ReadsWell(c, s) && Enabled(c, s, a)
    ensures ReadsWell(c, Step(c, s, a))
  {
    if a.Take? || a.Emit? || a.Forward? || a.Play? {
      OthersReadWell(c, s, a);
    }
  }

  lemma {:induction false} EmitDecodesWell(c: Config, s: State, result: EspErr)
    requires s.pcm.end.Open? && DecodesWell(c, s) && Enabled(c, s, Emit(result))
    ensures DecodesWell(c, Step(c, s, Emit(result)))
  {
    if c.opus && s.decoder.todo != [] {
      var more := s.heard + [s.decoder.todo[0]];
      assert forall k :: 0 < k <= |s.heard| ==> more[..k] == s.heard[..k];
      assert more[..|more|] == more;
    }
  }

  lemma {:induction false} StepDecodesWell(c: Config, s: State, a: Action)
    requires ReaderInv(c, s) && DecoderInv(c, s) && DecodesWell(c, s) && Enabled(c, s, a)
    ensures DecodesWell(c, Step(c, s, a))
  {
    if a.Emit? {
      EmitDecodesWell(c, s, a.result);
    } else if a.Take? && s.encoded.next == |s.encoded.data| {
      TakenIsPrefix(s.encoded);
    }
  }

  lemma {:induction false} RunGoesWell(c: Config, s: State, schedule: seq<Action>)
    requires Inv(c, s) && ReadsWell(c, s) && DecodesWell(c, s)
    ensures var t := Run(c, s, schedule); Inv(c, t) && ReadsWell(c, t) && DecodesWell(c, t)
    decreases |schedule|
  {
    if schedule != [] {
      var a := schedule[0];
      if Enabled(c, s, a) {
        StepKeepsInv(c, s, a);
        StepReadsWell(c, s, a);
        StepDecodesWell(c, s, a);
      }
      RunGoesWell(c, Next(c, s, a), schedule[1..]);
    }
  }

  ghost predicate ReturnsOk(c: Config, body: seq<seq<byte>>, schedule: seq<Action>) {
    var s := Run(c, STARTED, schedule);
    s.body == body && s.reader == Returned(OK)
  }

  /** Which bodies can end with OK: exactly those that hold a payload, end with a whole frame, have no
      frame or packet the parsers refuse, and no packet the decoder breaks on. */
  lemma {:induction false} OkIsPossibleIff(c: Config, body: seq<seq<byte>>)
    ensures (exists schedule :: ReturnsOk(c, body, schedule)) <==> Playable(c, body)
  {
    if Playable(c, body) {
      var s := PlaysPrefix(c, body, |body|);
      assert body[..|body|] == body;
      var t := Ends(c, s);
      GoesOn(c, STARTED, s, t);
      var schedule :| Run(c, STARTED, schedule) == t;
      assert ReturnsOk(c, body, schedule);
    } else if exists schedule :: ReturnsOk(c, body, schedule) {
      var schedule :| ReturnsOk(c, body, schedule);
      StartedInv(c);
      RunGoesWell(c, STARTED, schedule);
      assert false;
    }
  }

  /** So a trailing partial Opus packet goes unnoticed, whatever it is and whatever comes before it:
      the decoder's buffer is cleared before it is checked. Some run returns OK, plays the complete
      packets and leaves the tail. OK covers the whole stream exactly when there is no such tail. */
  lemma {:induction false} PartialOpusTailIsUndetected(c: Config, packets: seq<Packet>, tail: seq<byte>, body: seq<seq<byte>>)
    returns (schedule: seq<Action>)
    requires c.opus && WellFormed(OPUS_HEADER, OpusRule, packets) && Unbroken(c.codec, Payloads(packets))
    requires tail != [] && OpusScan(tail) == Scanned([], tail, false)
    requires NoEmptyReads(body) && Flatten(Chunks(c, body)) == Wire(packets) + tail
    requires c.framed ==> DeviceScan(Flatten(body)).rest == [] && !DeviceScan(Flatten(body)).refused
    ensures ReturnsOk(c, body, schedule)
    ensures Run(c, STARTED, schedule).played == Outputs(c.codec, Payloads(packets))
    ensures OpusScan(Flatten(Chunks(c, body))).rest == tail
  {
    ScanOfWire(OPUS_HEADER, OpusRule, packets, tail);
    assert packets + [] == packets;
    assert Chunks(c, body) != [] by {
      assert Flatten<byte>([]) == [];
    }
    OkIsPossibleIff(c, body);
    schedule :| ReturnsOk(c, body, schedule);
    CallbackSeesAPrefix(c, schedule);
  }

  // ---------------------------------------------------------------- the runtime object

  /** Everything a channel ever accepted, in order. */
  function Items(ch: Channel): (s: seq<Item>)
    ensures |s| == Total(ch)
  {
    seq(|ch.data|, i requires 0 <= i < |ch.data| => Data(ch.data[i])) + if ch.end.Open? then [] else [Terminal(ch.end)]
  }

  /** What is in the queue now. */
  function Queued(ch: Channel): seq<Item>
    requires Legal(ch)
  {
    Items(ch)[ch.next..]
  }

  lemma {:induction false} QueuedAfterPush(ch: Channel, payload: seq<byte>)
    requires Legal(ch) && ch.end.Open?
    ensures Queued(Push(ch, payload)) == Queued(ch) + [Data(payload)]
  {
  }

  lemma {:induction false} QueuedAfterEnd(ch: Channel, end: End)
    requires Legal(ch) && ch.end.Open? && !end.Open?
    ensures Queued(ch.(end := end)) == Queued(ch) + [Terminal(end)]
  {
  }

  lemma {:induction false} QueuedAfterTake(ch: Channel)
    requires Legal(ch) && ch.next < Total(ch)
    ensures Queued(ch) != [] && Queued(ch.(next := ch.next + 1)) == Queued(ch)[1..]
    ensures Queued(ch)[0] == if ch.next < |ch.data| then Data(ch.data[ch.next]) else Terminal(ch.end)
  {
  }

  /** `cloud_stream_runtime_t` with its two queues and the locals of the reader; one method per turn
      of each loop. The channels' pasts are ghost. */
  class StreamRuntime {
    const config: Config
    ghost var body: seq<seq<byte>>
    var pending: seq<byte>
    var reader: Reader
    var streamResult: EspErr
    var sawFirst: bool
    var encodedQueue: seq<Item>
    var decoder: Decoder
    var decodeResult: EspErr
    var opusPending: seq<byte>
    var heard: seq<seq<byte>>
    var pcmQueue: seq<Item>
    var playerDone: bool
    var playbackResult: EspErr
    ghost var played: seq<byte>
    ghost var encoded: Channel
    ghost var pcm: Channel

    ghost function Now(): State
      reads this
    {
      State(body, pending, reader, streamResult, sawFirst, encoded, decoder, decodeResult, opusPending, heard,
            pcm, playerDone, playbackResult, played)
    }

    ghost predicate Valid()
      reads this
    {
      && Legal(encoded) && encodedQueue == Queued(encoded)
      && Legal(pcm) && pcmQueue == Queued(pcm)
    }

    constructor (config: Config)
      ensures Valid() && this.config == config && Now() == STARTED
    {
      this.config := config;
      body, pending, reader, streamResult, sawFirst := [], [], Reading, OK, false;
      encodedQueue, decoder, decodeResult, opusPending, heard := [], Taking, OK, [], [];
      pcmQueue, playerDone, playbackResult, played := [], false, OK, [];
      encoded, pcm := Channel([], Open, 0), Channel([], Open, 0);
    }

    // The four queue operations, which nothing else of the state notices.

    method PushEncoded(payload: seq<byte>)
      requires Valid() && encoded.end.Open?
      modifies this`encoded, this`encodedQueue
      ensures Valid() && encoded == Push(old(encoded), payload)
    {
      QueuedAfterPush(encoded, payload);
      encodedQueue := encodedQueue + [Data(payload)];
      encoded := Push(encoded, payload);
    }

    method PushPcm(payload: seq<byte>)
      requires Valid() && pcm.end.Open?
      modifies this`pcm, this`pcmQueue
      ensures Valid() && pcm == Push(old(pcm), payload)
    {
      QueuedAfterPush(pcm, payload);
      pcmQueue := pcmQueue + [Data(payload)];
      pcm := Push(pcm, payload);
    }

    method PopEncoded() returns (item: Item)
      requires Valid() && encoded.next < Total(encoded)
      modifies this`encoded, this`encodedQueue
      ensures Valid() && encoded == old(encoded).(next := old(encoded).next + 1)
      ensures var ch := old(encoded); item == if ch.next < |ch.data| then Data(ch.data[ch.next]) else Terminal(ch.end)
    {
      QueuedAfterTake(encoded);
      item := encodedQueue[0];
      encodedQueue := encodedQueue[1..];
      encoded := encoded.(next := encoded.next + 1);
    }

    method PopPcm() returns (item: Item)
      requires Valid() && pcm.next < Total(pcm)
      modifies this`pcm, this`pcmQueue
      ensures Valid() && pcm == old(pcm).(next := old(pcm).next + 1)
      ensures var ch := old(pcm); item == if ch.next < |ch.data| then Data(ch.data[ch.next]) else Terminal(ch.end)
    {
      QueuedAfterTake(pcm);
      item := pcmQueue[0];
      pcmQueue := pcmQueue[1..];
      pcm := pcm.(next := pcm.next + 1);
    }

    method ReadChunk(chunk: seq<byte>)
      requires Valid() && Enabled(config, Now(), Read(chunk))
      modifies this
      ensures Valid() && Now() == Step(config, old(Now()), Read(chunk))
    {
      body := body + [chunk];
      if config.framed {
        var q := DeviceScan(pending + chunk);
        pending := q.rest;
        reader := Handing(Payloads(q.packets), q.refused);
      } else {
        reader := Handing([chunk], false);
      }
    }

    /** A cancellation seen before or after the read, or a read that failed. */
    method StopReading(cancelled: bool, err: EspErr)
      requires Valid() && Enabled(config, Now(), if cancelled then ReadCancelled else ReadFails(err))
      modifies this
      ensures Valid() && Now() == Step(config, old(Now()), if cancelled then ReadCancelled else ReadFails(err))
    {
      streamResult := if cancelled then Cancelled else err;
      reader := Ending;
    }

    method EndBody()
      requires Valid() && Enabled(config, Now(), BodyEnds)
      modifies this
      ensures Valid() && Now() == Step(config, old(Now()), BodyEnds)
    {
      streamResult := if config.framed && |pending| != 0 then Fail else OK;
      reader := Ending;
    }

    method HandOne(result: EspErr)
      requires Valid() && reader.Handing? && encoded.end.Open?
      modifies this
      ensures Valid() && Now() == HandStep(old(Now()), result)
    {
      if reader.todo == [] {
        if reader.refused {
          sawFirst, streamResult, reader := true, NoMem, Ending;
        } else {
          reader := Reading;
        }
        return;
      }
      sawFirst := true;
      if result != OK {
        streamResult, reader := result, Ending;
        return;
      }
      PushEncoded(reader.todo[0]);
      reader := Handing(reader.todo[1..], reader.refused);
    }

    method SendEnd(canAllocate: bool, sent: bool)
      requires Valid() && Enabled(config, Now(), SendTerminal(canAllocate, sent)) && encoded.end.Open?
      modifies this
      ensures Valid() && Now() == Step(config, old(Now()), SendTerminal(canAllocate, sent))
    {
      reader := Joining;
      if !canAllocate {
        streamResult := NoMem;
      } else if !sent {
        streamResult := Fail;
      } else {
        var end := if streamResult == OK then Eof else Error(streamResult);
        QueuedAfterEnd(encoded, end);
        encodedQueue := encodedQueue + [Terminal(end)];
        encoded := encoded.(end := end);
      }
    }

    /** One turn of the decode task's loop up to the decoding. */
    method TakeEncoded(cancelled: bool, result: EspErr)
      requires Valid() && decoder.Taking? && encoded.next < Total(encoded)
      modifies this`encoded, this`encodedQueue, this`decoder, this`opusPending
      ensures Valid() && Now() == TakeStep(config, old(Now()), cancelled, result)
    {
      var item := PopEncoded();
      match item
      case Terminal(end) => decoder := Forwarding(end);
      case Data(payload) =>
        if cancelled {
          decoder := Forwarding(Error(Cancelled));
        } else if !config.opus {
          decoder := Emitting([payload], false);
        } else if result != OK {
          decoder := Forwarding(Error(result));
        } else {
          var q := OpusScan(opusPending + payload);
          opusPending := q.rest;
          decoder := Emitting(Payloads(q.packets), q.refused);
        }
    }

    /** What the first packet to do decodes to. */
    method DecodeNext() returns (out: DecodeResult)
      requires decoder.Emitting? && decoder.todo != []
      modifies this`heard
      ensures heard == if config.opus then old(heard) + [decoder.todo[0]] else old(heard)
      ensures out == if config.opus then config.codec(heard) else Pcm(decoder.todo[0])
    {
      if !config.opus {
        return Pcm(decoder.todo[0]);
      }
      heard := heard + [decoder.todo[0]];
      return config.codec(heard);
    }

    /** One decoded packet on its way to the playback task. */
    method EmitOne(result: EspErr)
      requires Valid() && decoder.Emitting? && pcm.end.Open?
      modifies this`pcm, this`pcmQueue, this`decoder, this`heard
      ensures Valid()
      ensures var t := EmitStep(config, old(Now()), result); pcm == t.pcm && decoder == t.decoder && heard == t.heard
    {
      var todo, refused := decoder.todo, decoder.refused;
      if todo == [] {
        decoder := if refused then Forwarding(Error(Fail)) else Taking;
        return;
      }
      var out := DecodeNext();
      if out.Broken? {
        decoder := Forwarding(Error(Fail));
      } else if config.opus && out.pcm == [] {
        decoder := Emitting(todo[1..], refused);
      } else if result != OK {
        decoder := Forwarding(Error(result));
      } else {
        PushPcm(out.pcm);
        decoder := Emitting(todo[1..], refused);
      }
    }

    method ForwardEnd(result: EspErr)
      requires Valid() && decoder.Forwarding? && pcm.end.Open? && !decoder.end.Open?
      modifies this
      ensures Valid() && Now() == ForwardStep(old(Now()), result)
    {
      decodeResult := result;
      if result == OK {
        QueuedAfterEnd(pcm, decoder.end);
        pcmQueue := pcmQueue + [Terminal(decoder.end)];
        pcm := pcm.(end := decoder.end);
      }
      decoder := DecoderDone;
    }

    /** One turn of the playback task's loop. */
    method PlayOne(cancelled: bool, result: EspErr)
      requires Valid() && !playerDone && pcm.next < Total(pcm)
      modifies this`pcm, this`pcmQueue, this`played, this`playerDone, this`playbackResult
      ensures Valid() && Now() == PlayStep(old(Now()), cancelled, result)
    {
      var item := PopPcm();
      match item
      case Terminal(end) =>
        playbackResult := if end.Error? then end.err else OK;
        playerDone := true;
      case Data(payload) =>
        if cancelled {
          playbackResult, playerDone := Cancelled, true;
          return;
        }
        played := played + payload;
        playbackResult, playerDone := result, result != OK;
    }

    method JoinTasks(timedOut: bool) returns (err: EspErr)
      requires Valid() && Enabled(config, Now(), if timedOut then JoinTimesOut else Join)
      modifies this
      ensures Valid() && Now() == Step(config, old(Now()), if timedOut then JoinTimesOut else Join)
      ensures reader == Returned(err)
    {
      if timedOut {
        streamResult := Timeout;
      }
      if streamResult == Cancelled {
        err := Cancelled;
      } else if !sawFirst {
        err := EarlyEof;
      } else if streamResult != OK {
        err := streamResult;
      } else if decodeResult != OK {
        err := decodeResult;
      } else {
        err := playbackResult;
      }
      reader := Returned(err);
    }
  }
}
