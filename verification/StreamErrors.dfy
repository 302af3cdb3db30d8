/** What the downlink pipeline reports: the error of a stream, told from the events of its run. */
module StreamErrors {
  import opened Bytes
  import opened PacketScan
  import opened Framing
  import opened Pipeline

  /** The actions of a schedule that happen. */
  function Events(c: Config, schedule: seq<Action>): seq<Action> { EventsAfter(c, STARTED, [], schedule) }

  function EventsAfter(c: Config, s: State, e: seq<Action>, schedule: seq<Action>): seq<Action>
    decreases |schedule|
  {
    if schedule == [] then e
    else EventsAfter(c, Next(c, s, schedule[0]), if Enabled(c, s, schedule[0]) then e + [schedule[0]] else e, schedule[1..])
  }

  // ---------------------------------------------------------------- the reader

  /** The body that was read holds no payload, and no frame that is refused. */
  ghost predicate NothingHeard(c: Config, body: seq<seq<byte>>) {
    Chunks(c, body) == [] && !ReadRefused(c, body)
  }

  ghost predicate EndsInFrame(c: Config, body: seq<seq<byte>>) {
    c.framed && DeviceScan(Flatten(body)).rest != []
  }

  /** Nothing has stopped the reading, unless it was a frame that is refused. */
  ghost predicate NoStop(e: seq<Action>) {
    && ReadCancelled !in e && BodyEnds !in e
    && (forall x :: ReadFails(x) !in e) && (forall x :: x != OK ==> Hand(x) !in e)
  }

  /** What stopped the reading, and the error that goes with it. */
  ghost predicate StoppedBy(c: Config, body: seq<seq<byte>>, e: seq<Action>, err: EspErr) {
    && (ReadCancelled in e <==> err == Cancelled)
    && (forall x :: ReadFails(x) in e ==> err == x != OK)
    && (forall x :: x != OK && Hand(x) in e ==> err == x)
    && (BodyEnds in e ==> err == if EndsInFrame(c, body) then Fail else OK)
    && (NoStop(e) ==> ReadRefused(c, body) && err == NoMem)
    && (err == OK ==> BodyEnds in e)
  }

  ghost predicate NoTerminal(e: seq<Action>) { forall a, b :: SendTerminal(a, b) !in e }

  /** The reader's result after it sent the terminal, or could not. */
  ghost predicate ToldTasks(c: Config, body: seq<seq<byte>>, end: End, e: seq<Action>, err: EspErr) {
    && (SendTerminal(true, true) in e ==>
          StoppedBy(c, body, e, err) && end == if err == OK then Eof else Error(err))
    && (SendTerminal(true, false) in e ==> err == Fail)
    && (forall b :: SendTerminal(false, b) in e ==> err == NoMem)
    && !NoTerminal(e)
    && (SendTerminal(true, true) !in e ==> end.Open?)
  }

  ghost predicate ReadingStory(c: Config, body: seq<seq<byte>>, r: Reader, end: End, err: EspErr, e: seq<Action>) {
    && Join !in e && JoinTimesOut !in e
    && (r.Reading? || r.Handing? ==> NoStop(e) && NoTerminal(e))
    && (r.Ending? ==> StoppedBy(c, body, e, err) && NoTerminal(e))
    && (r.Joining? ==> ToldTasks(c, body, end, e, err))
  }

  ghost predicate ReaderStory(c: Config, s: State, e: seq<Action>) {
    if Running(s) then ReadingStory(c, s.body, s.reader, s.encoded.end, s.streamResult, e)
    else
      && (Join in e <==> JoinTimesOut !in e)
      && (JoinTimesOut in e ==> s.reader.err == if s.sawFirst then Timeout else EarlyEof)
      && (Join in e ==> ToldTasks(c, s.body, s.encoded.end, e, s.streamResult) && Judged(s))
  }

  /** The parties' results in the order in which they count. */
  ghost predicate Judged(s: State) {
    && s.reader.Returned? && s.decoder.DecoderDone? && s.playerDone
    && (s.streamResult == Cancelled ==> s.reader.err == Cancelled)
    && (s.streamResult != Cancelled && !s.sawFirst ==> s.reader.err == EarlyEof)
    && (s.sawFirst && s.streamResult != OK ==> s.reader.err == s.streamResult)
    && (s.sawFirst && s.streamResult == OK && s.decodeResult != OK ==> s.reader.err == s.decodeResult)
    && (s.sawFirst && s.streamResult == OK && s.decodeResult == OK ==> s.reader.err == s.playbackResult)
  }

  ghost predicate FirstStory(c: Config, s: State) {
    && (s.encoded.data != [] ==> s.sawFirst)
    && (if s.reader.Handing? then s.sawFirst ==> s.encoded.data + s.reader.todo != [] || s.reader.refused
        else !s.sawFirst <==> NothingHeard(c, s.body))
  }

  lemma {:induction false} ReaderStepKeepsStory(c: Config, s: State, e: seq<Action>, a: Action)
    requires Inv(c, s) && ReaderStory(c, s, e) && Enabled(c, s, a)
    requires !a.Take? && !a.Emit? && !a.Forward? && !a.Play?
    ensures ReaderStory(c, Step(c, s, a), e + [a])
  {
  }

  lemma {:induction false} TasksAddNothing(c: Config, body: seq<seq<byte>>, r: Reader, end: End, err: EspErr,
                                           e: seq<Action>, a: Action)
    requires ReadingStory(c, body, r, end, err, e) && (a.Take? || a.Emit? || a.Forward? || a.Play?)
    ensures ReadingStory(c, body, r, end, err, e + [a])
  {
  }

  lemma {:induction false} TasksKeepReaderStory(c: Config, s: State, e: seq<Action>, a: Action)
    requires Inv(c, s) && ReaderStory(c, s, e) && Enabled(c, s, a)
    requires a.Take? || a.Emit? || a.Forward? || a.Play?
    ensures ReaderStory(c, Step(c, s, a), e + [a])
  {
    TasksAddNothing(c, s.body, s.reader, s.encoded.end, s.streamResult, e, a);
    if a.Play? {
      PlayLeavesOthers(c, s, a);
    } else {
      DecoderStepsLeaveReader(c, s, a);
    }
  }

  lemma {:induction false} ReadKeepsFirst(c: Config, s: State, chunk: seq<byte>)
    requires ReaderInv(c, s) && FirstStory(c, s) && Enabled(c, s, Read(chunk))
    ensures FirstStory(c, Step(c, s, Read(chunk)))
  {
  }

  lemma {:induction false} HandKeepsFirst(c: Config, s: State, result: EspErr)
    requires ReaderInv(c, s) && FirstStory(c, s) && Enabled(c, s, Hand(result))
    ensures FirstStory(c, Step(c, s, Hand(result)))
  {
  }

  lemma {:induction false} TasksKeepFirst(c: Config, s: State, a: Action)
    requires Legal(s.encoded) && FirstStory(c, s) && Enabled(c, s, a) && (a.Take? || a.Emit? || a.Forward? || a.Play?)
    ensures FirstStory(c, Step(c, s, a))
  {
    var t := Step(c, s, a);
    if a.Play? {
      PlayLeavesOthers(c, s, a);
    } else {
      DecoderStepsLeaveReader(c, s, a);
    }
    assert t.sawFirst == s.sawFirst;
  }

  lemma {:induction false} StepKeepsFirst(c: Config, s: State, a: Action)
    requires ReaderInv(c, s) && FirstStory(c, s) && Enabled(c, s, a)
    ensures FirstStory(c, Step(c, s, a))
  {
    if a.Read? {
      ReadKeepsFirst(c, s, a.chunk);
    } else if a.Hand? {
      HandKeepsFirst(c, s, a.result);
    } else if a.Take? || a.Emit? || a.Forward? || a.Play? {
      TasksKeepFirst(c, s, a);
    }
  }

  // ---------------------------------------------------------------- the decode task

  /** The decode task has met nothing that stops it but, perhaps, what it decodes or the terminal. */
  ghost predicate NoDecodeStop(e: seq<Action>) {
    && Take(true, OK) !in e
    && forall x :: x != OK ==> Take(false, x) !in e && Emit(x) !in e
  }

  /** How the decode task ended, and the terminal it forwards. */
  ghost predicate DecodingStopped(c: Config, encoded: Channel, e: seq<Action>, end: End)
    requires Legal(encoded)
  {
    && (Take(true, OK) in e ==> end == Error(Cancelled))
    && (forall x :: x != OK && (Take(false, x) in e || Emit(x) in e) ==> end == Error(x) && x != Cancelled)
    && (NoDecodeStop(e) ==>
          if encoded.next > |encoded.data| then end == encoded.end
          else end == Error(Fail) && !Decodable(c, Taken(encoded)))
    && !end.Open?
  }

  ghost predicate NoForward(e: seq<Action>) { forall x :: Forward(x) !in e }

  ghost predicate DecoderStory(c: Config, s: State, e: seq<Action>)
    requires Legal(s.encoded)
  {
    && (!s.decoder.DecoderDone? ==> NoForward(e) && s.decodeResult == OK)
    && (s.decoder.DecoderDone? ==> !NoForward(e) && forall x :: Forward(x) in e ==> s.decodeResult == x)
    && (s.decoder.Taking? || s.decoder.Emitting? ==> NoDecodeStop(e))
    && (s.decoder.Forwarding? ==> DecodingStopped(c, s.encoded, e, s.decoder.end))
    && (Forward(OK) in e ==> DecodingStopped(c, s.encoded, e, s.pcm.end))
    && Forward(Cancelled) !in e
  }

  /** The decode task does not notice what comes into its queue behind what it has taken. */
  lemma {:induction false} QueueKeepsStop(c: Config, before: Channel, after: Channel, e: seq<Action>, end: End)
    requires Legal(before) && Legal(after) && DecodingStopped(c, before, e, end)
    requires after.next == before.next && before.data <= after.data
    requires !before.end.Open? ==> after == before
    ensures DecodingStopped(c, after, e, end)
  {
    if before.end.Open? {
      assert Taken(after) == Taken(before);
    }
  }

  ghost predicate IsDecoding(a: Action) { a.Take? || a.Emit? || a.Forward? }

  lemma {:induction false} OthersAddNothing(c: Config, encoded: Channel, e: seq<Action>, a: Action, end: End)
    requires Legal(encoded) && !IsDecoding(a)
    ensures DecodingStopped(c, encoded, e + [a], end) <==> DecodingStopped(c, encoded, e, end)
    ensures NoDecodeStop(e + [a]) <==> NoDecodeStop(e)
    ensures NoForward(e + [a]) <==> NoForward(e)
    ensures forall x :: Forward(x) in e + [a] <==> Forward(x) in e
  {
  }

  lemma {:induction false} OthersKeepDecoderStory(c: Config, s: State, e: seq<Action>, a: Action)
    requires Inv(c, s) && DecoderStory(c, s, e) && Enabled(c, s, a) && !IsDecoding(a)
    ensures Legal(Step(c, s, a).encoded) && DecoderStory(c, Step(c, s, a), e + [a])
  {
    var t := Step(c, s, a);
    StepKeepsInv(c, s, a);
    OthersLeaveDecoder(c, s, a);
    if s.decoder.Forwarding? {
      QueueKeepsStop(c, s.encoded, t.encoded, e, s.decoder.end);
      OthersAddNothing(c, t.encoded, e, a, s.decoder.end);
    }
    if Forward(OK) in e {
      QueueKeepsStop(c, s.encoded, t.encoded, e, s.pcm.end);
      OthersAddNothing(c, t.encoded, e, a, s.pcm.end);
    }
    OthersAddNothing(c, t.encoded, e, a, Open);
  }

  lemma {:induction false} OthersLeaveDecoder(c: Config, s: State, a: Action)
    requires ReaderInv(c, s) && Enabled(c, s, a) && !IsDecoding(a)
    ensures var t := Step(c, s, a);
      && t.decoder == s.decoder && t.decodeResult == s.decodeResult && t.pcm.end == s.pcm.end
      && t.encoded.next == s.encoded.next && s.encoded.data <= t.encoded.data
      && (!s.encoded.end.Open? ==> t.encoded == s.encoded)
  {
  }

  lemma {:induction false} TakeKeepsDecoderStory(c: Config, s: State, e: seq<Action>, cancelled: bool, result: EspErr)
    requires Inv(c, s) && DecoderStory(c, s, e) && Enabled(c, s, Take(cancelled, result))
    ensures var t := Step(c, s, Take(cancelled, result));
      Legal(t.encoded) && DecoderStory(c, t, e + [Take(cancelled, result)])
  {
  }

  /** What the parser refuses or the decoder breaks on cannot be decoded. */
  lemma {:induction false} BrokenIsUndecodable(c: Config, s: State)
    requires DecoderInv(c, s) && s.decoder.Emitting?
    requires if s.decoder.todo == [] then s.decoder.refused
             else c.opus && c.codec(s.heard + [s.decoder.todo[0]]).Broken?
    ensures !Decodable(c, Taken(s.encoded))
  {
    if s.decoder.todo != [] {
      var all, n := s.heard + s.decoder.todo, |s.heard| + 1;
      assert all[..n] == s.heard + [s.decoder.todo[0]];
    }
  }

  lemma {:induction false} EmitKeepsDecoderStory(c: Config, s: State, e: seq<Action>, result: EspErr)
    requires Inv(c, s) && DecoderStory(c, s, e) && Enabled(c, s, Emit(result))
    ensures var t := Step(c, s, Emit(result)); Legal(t.encoded) && DecoderStory(c, t, e + [Emit(result)])
  {
    if s.decoder.todo == [] {
      if s.decoder.refused {
        BrokenIsUndecodable(c, s);
      }
    } else if c.opus && c.codec(s.heard + [s.decoder.todo[0]]).Broken? {
      BrokenIsUndecodable(c, s);
    }
  }

  lemma {:induction false} ForwardKeepsDecoderStory(c: Config, s: State, e: seq<Action>, result: EspErr)
    requires Inv(c, s) && DecoderStory(c, s, e) && Enabled(c, s, Forward(result))
    ensures var t := Step(c, s, Forward(result)); Legal(t.encoded) && DecoderStory(c, t, e + [Forward(result)])
  {
  }

  lemma {:induction false} StepKeepsDecoderStory(c: Config, s: State, e: seq<Action>, a: Action)
    requires Inv(c, s) && DecoderStory(c, s, e) && Enabled(c, s, a)
    ensures Legal(Step(c, s, a).encoded) && DecoderStory(c, Step(c, s, a), e + [a])
  {
    match a
    case Take(cancelled, result) => TakeKeepsDecoderStory(c, s, e, cancelled, result);
    case Emit(result) => EmitKeepsDecoderStory(c, s, e, result);
    case Forward(result) => ForwardKeepsDecoderStory(c, s, e, result);
    case _ => OthersKeepDecoderStory(c, s, e, a);
  }

  // ---------------------------------------------------------------- the playback task

  ghost predicate NoPlayStop(e: seq<Action>) {
    Play(true, OK) !in e && forall x :: x != OK ==> Play(false, x) !in e
  }

  /** How the playback task ended: it dropped a payload, the callback failed, or the terminal came. */
  ghost predicate PlayerStory(s: State, e: seq<Action>) {
    && (!s.playerDone ==> NoPlayStop(e))
    && (s.playerDone ==>
          && (Play(true, OK) in e ==> s.playbackResult == Cancelled)
          && (forall x :: x != OK && Play(false, x) in e ==> s.playbackResult == x)
          && (NoPlayStop(e) ==>
                !s.pcm.end.Open? && s.playbackResult == if s.pcm.end.Error? then s.pcm.end.err else OK))
  }

  lemma {:induction false} StepKeepsPlayerStory(c: Config, s: State, e: seq<Action>, a: Action)
    requires Inv(c, s) && PlayerStory(s, e) && Enabled(c, s, a)
    ensures PlayerStory(Step(c, s, a), e + [a])
  {
    if !a.Play? {
      OnlyTheProducerGrows(c, s, a);
    }
  }

  // ---------------------------------------------------------------- runs

  ghost predicate Story(c: Config, s: State, e: seq<Action>) {
    Inv(c, s) && DecodesWell(c, s) && ReaderStory(c, s, e) && FirstStory(c, s) && DecoderStory(c, s, e) && PlayerStory(s, e)
  }

  lemma {:induction false} StepKeepsStory(c: Config, s: State, e: seq<Action>, a: Action)
    requires Story(c, s, e) && Enabled(c, s, a)
    ensures Story(c, Step(c, s, a), e + [a])
  {
    StepKeepsInv(c, s, a);
    StepDecodesWell(c, s, a);
    StepKeepsFirst(c, s, a);
    StepKeepsDecoderStory(c, s, e, a);
    StepKeepsPlayerStory(c, s, e, a);
    if IsDecoding(a) || a.Play? {
      TasksKeepReaderStory(c, s, e, a);
    } else {
      ReaderStepKeepsStory(c, s, e, a);
    }
  }

  lemma {:induction false} RunKeepsStory(c: Config, s: State, e: seq<Action>, schedule: seq<Action>)
    requires Story(c, s, e)
    ensures Story(c, Run(c, s, schedule), EventsAfter(c, s, e, schedule))
    decreases |schedule|
  {
    if schedule != [] {
      var a := schedule[0];
      if Enabled(c, s, a) {
        StepKeepsStory(c, s, e, a);
        RunKeepsStory(c, Step(c, s, a), e + [a], schedule[1..]);
      } else {
        RunKeepsStory(c, s, e, schedule[1..]);
      }
    }
  }

  lemma {:induction false} RunHasStory(c: Config, schedule: seq<Action>)
    ensures Story(c, Run(c, STARTED, schedule), Events(c, schedule))
  {
    StartedInv(c);
    assert Flatten<byte>([]) == [];
    RunKeepsStory(c, STARTED, [], schedule);
  }

  // ---------------------------------------------------------------- what is reported

  /** The reader saw the cancellation, could tell the tasks, and they were done in time. */
  ghost predicate CancelStands(e: seq<Action>) {
    ReadCancelled in e && SendTerminal(true, true) in e && Join in e
  }

  /** The tasks were done in time, and there was something to play. */
  ghost predicate InTime(c: Config, body: seq<seq<byte>>, e: seq<Action>) {
    Join in e && !NothingHeard(c, body)
  }

  /** ... and the reader took the whole body and told the tasks so. */
  ghost predicate ReadWell(c: Config, body: seq<seq<byte>>, e: seq<Action>) {
    InTime(c, body, e) && SendTerminal(true, true) in e && BodyEnds in e && !EndsInFrame(c, body)
  }

  /** A cancellation, an empty stream and a late join, in this order. */
  lemma {:induction false} CancelledEmptyOrLate(c: Config, schedule: seq<Action>)
    requires Run(c, STARTED, schedule).reader.Returned?
    ensures var s, e := Run(c, STARTED, schedule), Events(c, schedule);
      var err := s.reader.err;
      && (Join in e <==> JoinTimesOut !in e)
      && (CancelStands(e) ==> err == Cancelled)
      && (!CancelStands(e) && NothingHeard(c, s.body) ==> err == EarlyEof)
      && (!NothingHeard(c, s.body) && JoinTimesOut in e ==> err == Timeout)
  {
    RunHasStory(c, schedule);
  }

  /** Then the reader's error: of the terminal, if that could not be sent; otherwise of what stopped the
      reading. */
  lemma {:induction false} ReadersError(c: Config, schedule: seq<Action>)
    requires Run(c, STARTED, schedule).reader.Returned?
    requires InTime(c, Run(c, STARTED, schedule).body, Events(c, schedule))
    ensures var s, e := Run(c, STARTED, schedule), Events(c, schedule);
      var err := s.reader.err;
      && !NoTerminal(e)
      && (forall b :: SendTerminal(false, b) in e ==> err == NoMem)
      && (SendTerminal(true, false) in e ==> err == Fail)
      && (SendTerminal(true, true) in e ==>
            && (forall x :: ReadFails(x) in e ==> err == x)
            && (forall x :: x != OK && Hand(x) in e ==> err == x)
            && (BodyEnds in e && EndsInFrame(c, s.body) ==> err == Fail)
            && (NoStop(e) ==> ReadRefused(c, s.body) && err == NoMem))
  {
    RunHasStory(c, schedule);
  }

  /** Then the decode task's, which is that of forwarding its terminal; then the playback task's: it
      dropped a payload, the callback failed, or it was told why the decoding ended. */
  lemma {:induction false} TasksError(c: Config, schedule: seq<Action>)
    requires Run(c, STARTED, schedule).reader.Returned?
    requires ReadWell(c, Run(c, STARTED, schedule).body, Events(c, schedule))
    ensures var s, e := Run(c, STARTED, schedule), Events(c, schedule);
      var err := s.reader.err;
      && !NoForward(e)
      && (forall x :: x != OK && Forward(x) in e ==> err == x)
      && (Forward(OK) in e ==>
            && (Play(true, OK) in e ==> err == Cancelled)
            && (forall x :: x != OK && Play(false, x) in e ==> err == x)
            && (NoPlayStop(e) ==>
                  && (Take(true, OK) in e ==> err == Cancelled)
                  && (forall x :: x != OK && (Take(false, x) in e || Emit(x) in e) ==> err == x)
                  && (NoDecodeStop(e) ==> err == if Decodable(c, Chunks(c, s.body)) then OK else Fail)))
  {
    RunHasStory(c, schedule);
    var s, e := Run(c, STARTED, schedule), Events(c, schedule);
    assert StoppedBy(c, s.body, e, s.streamResult) && s.streamResult == OK;
    if Forward(OK) in e && NoPlayStop(e) && NoDecodeStop(e) {
      UndecodedIsUndecodable(c, s, e);
    }
  }

  lemma {:induction false} UndecodedIsUndecodable(c: Config, s: State, e: seq<Action>)
    requires Inv(c, s) && DecodesWell(c, s) && s.encoded.end == Eof
    requires DecodingStopped(c, s.encoded, e, s.pcm.end) && NoDecodeStop(e)
    ensures s.pcm.end == if Decodable(c, Chunks(c, s.body)) then Eof else Error(Fail)
  {
    if s.encoded.next <= |s.encoded.data| && Decodable(c, Chunks(c, s.body)) {
      TakenIsPrefix(s.encoded);
      DecodableIsMonotone(c, Taken(s.encoded), Chunks(c, s.body));
    }
  }

  /** When a stream reports that it was cancelled: if the reader saw it, told the tasks and they were
      done in time; or if the body was read to its end, and a task dropped a payload because of it, or
      the callback said so. */
  lemma {:induction false} CancelledIff(c: Config, schedule: seq<Action>)
    requires Run(c, STARTED, schedule).reader.Returned?
    ensures var s, e := Run(c, STARTED, schedule), Events(c, schedule);
      s.reader.err == Cancelled <==>
        || CancelStands(e)
        || (ReadWell(c, s.body, e) && Forward(OK) in e
            && (Play(true, OK) in e || Play(false, Cancelled) in e || (NoPlayStop(e) && Take(true, OK) in e)))
  {
    RunHasStory(c, schedule);
    CancelledEmptyOrLate(c, schedule);
    var s, e := Run(c, STARTED, schedule), Events(c, schedule);
    if InTime(c, s.body, e) {
      ReadersError(c, schedule);
      if ReadWell(c, s.body, e) {
        TasksError(c, schedule);
      }
    }
  }
}
