/** Jitter-buffered playback: a writer, the stream task and a closer share a ring buffer, two
    counters and a few flags. Each step below is one critical section (or one call into the ring
    buffer or the codec); a run is any interleaving of steps. */
module JitterPlayback {
  import opened Bytes

  /** Sizes of one read, of the prebuffer and of the ring buffer, as `config.h` relates them. */
  datatype Config = Config(read: nat, prebuffer: nat, capacity: nat)

  ghost predicate ValidConfig(c: Config) {
    0 < c.read <= c.capacity && c.prebuffer <= c.capacity && c.read % 2 == 0
  }

  /** Where a stream task stands. */
  datatype Pc =
    | Prebuffering
    | Receiving
    | Checking
    | Copying
    | WritingFull
    | Draining
    | Settling(err: EspErr, last: bool)
    | Finishing
    | Suspended

  /** A stream task's own variables: its scratch buffer and what is left of the item it holds. */
  datatype Task = Task(pc: Pc, scratch: seq<byte>, item: seq<byte>)

  /** `Refused`: its send timed out, and it is about to look whether to send again. */
  datatype Writer = Idle | Sending(chunk: seq<byte>) | Refused(chunk: seq<byte>) | CountingIn(n: nat)

  datatype Closer = NotClosing | Waiting | Closed(err: EspErr)

  /** The shared state. `enqueued` and `written` are histories: every byte the ring buffer accepted,
      every byte the codec accepted. `quiet` records that the stream was not exposed when close was
      first called. */
  datatype State = State(
    ring: seq<byte>,
    totalIn: nat,
    totalOut: nat,
    ringLive: bool,
    codecOpen: bool,
    started: bool,
    done: bool,
    current: int,
    result: EspErr,
    tasks: seq<Task>,
    writer: Writer,
    closer: Closer,
    quiet: bool,
    enqueued: seq<byte>,
    written: seq<byte>)

  /** After `audio_out_open_pcm_stream`. */
  const OPENED := State([], 0, 0, true, true, false, true, -1, OK, [], Idle, NotClosing, false, [], [])

  datatype Action =
    | WriteCall(chunk: seq<byte>, canCreate: bool)
    | SendAccepted
    | SendTimesOut
    | SendRecheck(stalled: bool)
    | CountIn
    | PrebufferCheck(i: nat)
    | Receive(i: nat, n: nat)
    | ReceiveTimesOut(i: nat)
    | ExitCheck(i: nat)
    | Copy(i: nat)
    | CodecWrite(i: nat, err: EspErr)
    | Settle(i: nat)
    | PublishDone(i: nat)
    | CloseCall
    | CloseFinishes(codecErr: EspErr)
    | CloseTimesOut

  function Level(s: State): nat {
    if s.totalIn < s.totalOut then 0 else s.totalIn - s.totalOut
  }

  function Held(tasks: seq<Task>): nat {
    if tasks == [] then 0 else |tasks[0].item| + Held(tasks[1..])
  }

  predicate At(s: State, i: nat, pc: Pc) {
    i < |s.tasks| && s.tasks[i].pc == pc
  }

  predicate Failed(s: State, t: Task) {
    s.result != OK || (t.pc.Settling? && t.pc.err != OK)
  }

  /** Bytes can still slip in behind the task's back: a chunk is on its way into the ring buffer, or
      the task, about to compare the counters, would miss one that is there but not counted yet. */
  predicate Exposed(c: Config, s: State) {
    && s.tasks != [] && !Failed(s, s.tasks[0])
    && var t := s.tasks[0];
       || (s.writer.Sending? && |s.writer.chunk| <= c.capacity)
       || (s.writer.CountingIn? && t.pc == Checking && s.ring != [] && Level(s) <= |t.scratch|)
  }

  /** When the action can happen. A send into a ring buffer that close has already deleted is not a
      step of this model. */
  predicate Enabled(c: Config, s: State, a: Action) {
    match a
    case WriteCall(_, _) => s.writer.Idle?
    case SendAccepted => s.writer.Sending? && s.ringLive && HasRoom(c, s)
    case SendTimesOut => s.writer.Sending? && s.ringLive && !HasRoom(c, s)
    case SendRecheck(_) => s.writer.Refused?
    case CountIn => s.writer.CountingIn?
    case PrebufferCheck(i) => At(s, i, Prebuffering)
    case Receive(i, n) => At(s, i, Receiving) && Held(s.tasks) == 0 && 0 < n <= Min(c.read, |s.ring|)
    case ReceiveTimesOut(i) => At(s, i, Receiving) && (s.ring == [] || Held(s.tasks) > 0)
    case ExitCheck(i) => At(s, i, Checking)
    case Copy(i) => At(s, i, Copying)
    case CodecWrite(i, _) => At(s, i, WritingFull) || At(s, i, Draining)
    case Settle(i) => i < |s.tasks| && s.tasks[i].pc.Settling?
    case PublishDone(i) => At(s, i, Finishing)
    case CloseCall => s.closer.NotClosing? || (s.closer == Closed(Timeout) && s.ringLive)
    case CloseFinishes(_) =>
      s.closer.Waiting? && (s.current < 0 || (s.done && At(s, s.current, Suspended)))
    case CloseTimesOut => s.closer.Waiting?
  }

  /** The chunk being sent fits beside what the ring holds and what is out of it but not given back. */
  predicate HasRoom(c: Config, s: State)
    requires s.writer.Sending?
  {
    |s.ring| + Held(s.tasks) + |s.writer.chunk| <= c.capacity
  }

  function SetTask(s: State, i: nat, t: Task): State
    requires i < |s.tasks|
  {
    s.(tasks := s.tasks[i := t])
  }

  function Step(c: Config, s: State, a: Action): State
    requires Enabled(c, s, a)
  {
    match a
    case WriteCall(chunk, canCreate) => DoWriteCall(s, chunk, canCreate)
    case SendAccepted =>
      var chunk := s.writer.chunk;
      s.(ring := s.ring + chunk, enqueued := s.enqueued + chunk, writer := CountingIn(|chunk|))
    case SendTimesOut => s.(writer := Refused(s.writer.chunk))
    case SendRecheck(stalled) =>
      s.(writer := if !s.started || s.result != OK || stalled then Idle else Sending(s.writer.chunk))
    case CountIn => s.(totalIn := s.totalIn + s.writer.n, writer := Idle)
    case PrebufferCheck(i) =>
      if Level(s) >= c.prebuffer || !s.started then SetTask(s, i, s.tasks[i].(pc := Receiving)) else s
    case Receive(i, n) =>
      SetTask(s, i, s.tasks[i].(pc := Copying, item := s.ring[..n])).(ring := s.ring[n..])
    case ReceiveTimesOut(i) => SetTask(s, i, s.tasks[i].(pc := Checking))
    case ExitCheck(i) => SetTask(s, i, s.tasks[i].(pc := AfterCheck(s, s.tasks[i])))
    case Copy(i) => SetTask(s, i, CopyStep(c, s.tasks[i]))
    case CodecWrite(i, err) => DoCodecWrite(s, i, err)
    case Settle(i) => DoSettle(s, i)
    case PublishDone(i) => SetTask(s, i, s.tasks[i].(pc := Suspended)).(done := true)
    case CloseCall =>
      s.(started := if s.current >= 0 then false else s.started, closer := Waiting,
         quiet := if s.closer.NotClosing? then !Exposed(c, s) else s.quiet)
    case CloseFinishes(codecErr) => DoClose(s, codecErr)
    case CloseTimesOut => s.(closer := Closed(Timeout))
  }

  /** The end of close: totals and ring are gone; the codec stays open if it would not close. */
  function DoClose(s: State, codecErr: EspErr): State {
    s.(current := -1, done := true, ring := [], totalIn := 0, totalOut := 0, ringLive := false,
       codecOpen := codecErr != OK, closer := Closed(if s.result != OK then s.result else codecErr))
  }

  /** A write creates the ring buffer if there is none, and the task if none was started. */
  function DoWriteCall(s: State, chunk: seq<byte>, canCreate: bool): State {
    if chunk == [] || |chunk| % 2 != 0 || !s.codecOpen then s
    else if !s.started && !canCreate then s.(ringLive := true, current := -1, done := true)
    else
      var t := if s.started then s.(ringLive := true)
               else s.(ringLive := true, started := true, done := false, current := |s.tasks|,
                       tasks := s.tasks + [Task(Prebuffering, [], [])]);
      if t.result != OK then t else t.(writer := Sending(chunk))
  }

  function AfterCheck(s: State, t: Task): Pc {
    if s.started || Level(s) > |t.scratch| then Receiving
    else if t.scratch == [] then Finishing
    else Draining
  }

  /** Copies as much of the item as the scratch buffer holds; gives the item back when it is empty. */
  function CopyStep(c: Config, t: Task): Task {
    if t.item == [] then t.(pc := Receiving)
    else
      var n := Min(|t.item|, if c.read > |t.scratch| then c.read - |t.scratch| else 0);
      t.(scratch := t.scratch + t.item[..n], item := t.item[n..],
         pc := if |t.scratch| + n >= c.read then WritingFull else Copying)
  }

  /** `audio_out_write_pcm_chunk`: it refuses an odd length and a closed stream before the codec. */
  function DoCodecWrite(s: State, i: nat, codecErr: EspErr): State
    requires i < |s.tasks|
  {
    var t := s.tasks[i];
    var err := if |t.scratch| % 2 != 0 then InvalidSize else if !s.codecOpen then InvalidState else codecErr;
    SetTask(s, i, t.(pc := Settling(err, t.pc.Draining?)))
      .(written := if err == OK then s.written + t.scratch else s.written)
  }

  function DoSettle(s: State, i: nat): State
    requires i < |s.tasks| && s.tasks[i].pc.Settling?
  {
    var t := s.tasks[i];
    if t.pc.err != OK then SetTask(s, i, t.(pc := Finishing, item := [])).(result := t.pc.err)
    else
      SetTask(s, i, t.(pc := if t.pc.last then Finishing else Copying, scratch := []))
        .(totalOut := s.totalOut + |t.scratch|)
  }

  // ---------------------------------------------------------------- runs

  /** One turn of a schedule: an action that is not enabled changes nothing. */
  function Next(c: Config, s: State, a: Action): State {
    if Enabled(c, s, a) then Step(c, s, a) else s
  }

  /** The state a schedule reaches. */
  function Run(c: Config, s: State, schedule: seq<Action>): State
    decreases |schedule|
  {
    if schedule == [] then s else Run(c, Next(c, s, schedule[0]), schedule[1..])
  }

  /** A write call that begins after close was called, and is not refused for its argument or because
      the codec is closed. */
  predicate LateWrite(s: State, a: Action) {
    && a.WriteCall? && s.writer.Idle? && !s.closer.NotClosing?
    && s.codecOpen && a.chunk != [] && |a.chunk| % 2 == 0
  }

  ghost predicate Disciplined(c: Config, s: State, schedule: seq<Action>)
    decreases |schedule|
  {
    schedule != [] ==> !LateWrite(s, schedule[0]) && Disciplined(c, Next(c, s, schedule[0]), schedule[1..])
  }

  function Unsettled(t: Task): seq<byte> {
    (if t.pc.Settling? && t.pc.err == OK then [] else t.scratch) + t.item
  }

  ghost predicate TaskShape(c: Config, t: Task) {
    && (t.pc in {Prebuffering, Receiving, Checking, Draining} ==> t.item == [])
    && (t.pc in {Receiving, Checking, Copying, Draining} ==> |t.scratch| < c.read)
    && (t.pc == WritingFull ==> |t.scratch| == c.read)
    && (t.pc == Prebuffering ==> t.scratch == [])
    && (t.pc == Draining ==> t.scratch != [])
    && (t.pc.Settling? && t.pc.last ==> t.item == [])
    && (t.pc in {Finishing, Suspended} ==> t.item == [])
  }

  /** Nothing was lost: what the codec got, what the task holds and what the ring holds, in this
      order, are what was enqueued. */
  ghost predicate Conserved(s: State, t: Task) {
    s.written + Unsettled(t) + s.ring == s.enqueued
  }

  predicate Leaving(t: Task) {
    t.pc in {Draining, Finishing, Suspended} || (t.pc.Settling? && t.pc.last)
  }

  ghost predicate Inv(c: Config, s: State) {
    && |s.tasks| <= 1
    && (s.tasks == [] ==> s.enqueued == [] && s.written == [] && s.ring == [] && s.writer.Idle? && !s.started
                          && s.current == -1 && s.totalIn == 0 && s.totalOut == 0 && s.result == OK)
    && (s.closer.Closed? ==> s.closer != Closed(OK) || (s.quiet ==> s.written == s.enqueued))
    && (s.ringLive ==> s.codecOpen && (s.closer.Closed? ==> s.closer == Closed(Timeout)))
    && (s.tasks != [] ==> InvOne(c, s, s.tasks[0]))
  }

  ghost predicate InvOne(c: Config, s: State, t: Task) {
    && TaskShape(c, t)
    && |s.enqueued| % 2 == 0 && |s.written| % 2 == 0
    && (s.writer.Sending? || s.writer.Refused? ==> s.writer.chunk != [] && |s.writer.chunk| % 2 == 0)
    && (s.writer.CountingIn? ==> s.writer.n % 2 == 0)
    && s.written <= s.enqueued
    && (s.closer.NotClosing? <==> s.started)
    && (s.ringLive ==>
          && s.current == 0
          && s.totalIn + (if s.writer.CountingIn? then s.writer.n else 0) == |s.enqueued|
          && s.totalOut + (if t.pc.Settling? && t.pc.err == OK then |t.scratch| else 0) == |s.written|
          && (!Failed(s, t) ==> Conserved(s, t))
          && (s.done <==> t.pc == Suspended))
    && (s.closer.NotClosing? || s.closer.Waiting? ==> s.ringLive)
    && (!s.ringLive ==> t.pc == Suspended)
    && (s.result != OK ==> t.pc in {Finishing, Suspended})
    && (s.quiet && !s.closer.NotClosing? ==> !Exposed(c, s))
    && (s.writer.CountingIn? && t.pc == Checking && s.ring != [] ==> |s.ring| >= s.writer.n)
    && (Leaving(t) ==> !s.closer.NotClosing? || Failed(s, t))
    && (Leaving(t) && (s.quiet || s.writer.Sending?) && !s.closer.NotClosing? && !Failed(s, t) && s.ringLive ==>
          s.ring == [] && (t.pc in {Finishing, Suspended} ==> t.scratch == []))
    && (t.pc != Prebuffering ==> Primed(c, s))
    && (t.pc == Prebuffering ==> s.written == [])
  }

  /** Playback may begin: the prebuffer level was reached, or close was requested. */
  ghost predicate Primed(c: Config, s: State) {
    |s.enqueued| >= c.prebuffer || !s.closer.NotClosing?
  }

  lemma {:induction false} NothingHeld(tasks: seq<Task>)
    requires forall j :: 0 <= j < |tasks| ==> tasks[j].item == []
    ensures Held(tasks) == 0
  {
    if tasks != [] {
      NothingHeld(tasks[1..]);
    }
  }

  /** The item moves from the ring to the task without losing its place. */
  lemma {:induction false} ReceiveKeepsInv(c: Config, s: State, i: nat, n: nat)
    requires ValidConfig(c) && Inv(c, s) && Enabled(c, s, Receive(i, n))
    ensures Inv(c, Step(c, s, Receive(i, n)))
  {
    var t := s.tasks[0];
    assert s.ring == s.ring[..n] + s.ring[n..];
    assert !Failed(s, t);
    var u := Step(c, s, Receive(i, n)).tasks[0];
    assert s.written + Unsettled(t) + s.ring == s.written + Unsettled(u) + s.ring[n..];
  }

  lemma {:induction false} WriteKeepsInv(c: Config, s: State, chunk: seq<byte>, canCreate: bool)
    requires ValidConfig(c) && Inv(c, s) && s.writer.Idle? && s.closer.NotClosing?
    ensures Inv(c, DoWriteCall(s, chunk, canCreate))
  {
  }

  lemma {:induction false} SendKeepsInv(c: Config, s: State)
    requires ValidConfig(c) && Inv(c, s) && Enabled(c, s, SendAccepted)
    ensures Inv(c, Step(c, s, SendAccepted))
  {
    var t := s.tasks[0];
    var chunk := s.writer.chunk;
    assert s.written + Unsettled(t) + (s.ring + chunk) == s.written + Unsettled(t) + s.ring + chunk;
    assert s.written <= s.enqueued + chunk;
  }

  /** A task that leaves a stream that was not exposed has seen the ring empty. */
  lemma {:induction false} ExitKeepsInv(c: Config, s: State, i: nat)
    requires ValidConfig(c) && Inv(c, s) && Enabled(c, s, ExitCheck(i))
    ensures Inv(c, Step(c, s, ExitCheck(i)))
  {
    var t := s.tasks[0];
    var u := Step(c, s, ExitCheck(i)).tasks[0];
    assert Unsettled(u) == Unsettled(t);
    if Leaving(u) && (s.quiet || s.writer.Sending?) && !s.closer.NotClosing? {
      assert |s.written + Unsettled(t) + s.ring| == |s.written| + |t.scratch| + |s.ring|;
      assert s.ring == [];
    }
  }

  lemma {:induction false} CopyKeepsUnsettled(c: Config, t: Task)
    requires t.pc == Copying
    ensures Unsettled(CopyStep(c, t)) == Unsettled(t)
  {
    if t.item != [] {
      var n := Min(|t.item|, if c.read > |t.scratch| then c.read - |t.scratch| else 0);
      assert t.item == t.item[..n] + t.item[n..];
      assert t.scratch + t.item == t.scratch + t.item[..n] + t.item[n..];
    }
  }

  lemma {:induction false} CopyKeepsInv(c: Config, s: State, i: nat)
    requires ValidConfig(c) && Inv(c, s) && Enabled(c, s, Copy(i))
    ensures Inv(c, Step(c, s, Copy(i)))
  {
    CopyKeepsUnsettled(c, s.tasks[0]);
  }

  lemma {:induction false} Regroup(a: seq<byte>, b: seq<byte>, c: seq<byte>, d: seq<byte>)
    ensures a + b <= a + (b + c) + d
    ensures (a + b) + ([] + c) + d == a + (b + c) + d
  {
  }

  lemma {:induction false} CodecKeepsInv(c: Config, s: State, i: nat, err: EspErr)
    requires ValidConfig(c) && Inv(c, s) && Enabled(c, s, CodecWrite(i, err))
    ensures Inv(c, Step(c, s, CodecWrite(i, err)))
  {
    var t := s.tasks[0];
    assert !Failed(s, t);
    Regroup(s.written, t.scratch, t.item, s.ring);
  }

  lemma {:induction false} SettleKeepsInv(c: Config, s: State, i: nat)
    requires ValidConfig(c) && Inv(c, s) && Enabled(c, s, Settle(i))
    ensures Inv(c, Step(c, s, Settle(i)))
  {
    var t := s.tasks[0];
    var u := Step(c, s, Settle(i)).tasks[0];
    if t.pc.err == OK {
      assert Unsettled(u) == [] + t.item == Unsettled(t);
    }
  }

  lemma {:induction false} CloseKeepsInv(c: Config, s: State, err: EspErr)
    requires ValidConfig(c) && Inv(c, s) && Enabled(c, s, CloseFinishes(err))
    ensures Inv(c, Step(c, s, CloseFinishes(err)))
  {
    if s.tasks != [] {
      var t := s.tasks[0];
      if s.ringLive && s.quiet && s.result == OK {
        assert Unsettled(t) == [] && s.ring == [];
        assert s.written + Unsettled(t) + s.ring == s.written;
      }
    }
  }

  lemma {:induction false} TaskKeepsInv(c: Config, s: State, a: Action)
    requires ValidConfig(c) && Inv(c, s) && Enabled(c, s, a)
    requires a.PrebufferCheck? || a.ReceiveTimesOut? || a.PublishDone?
    ensures Inv(c, Step(c, s, a))
  {
    NothingHeld(s.tasks[1..]);
  }

  lemma {:induction false} CloserKeepsInv(c: Config, s: State, a: Action)
    requires ValidConfig(c) && Inv(c, s) && Enabled(c, s, a)
    requires a.SendTimesOut? || a.SendRecheck? || a.CountIn? || a.CloseCall? || a.CloseTimesOut?
    ensures Inv(c, Step(c, s, a))
  {
  }

  lemma {:induction false} StepKeepsInv(c: Config, s: State, a: Action)
    requires ValidConfig(c) && Inv(c, s) && Enabled(c, s, a)
    requires !LateWrite(s, a)
    ensures Inv(c, Step(c, s, a))
  {
    match a
    case WriteCall(chunk, canCreate) =>
      if s.closer.NotClosing? {
        WriteKeepsInv(c, s, chunk, canCreate);
      }
    case SendAccepted => SendKeepsInv(c, s);
    case Receive(i, n) => ReceiveKeepsInv(c, s, i, n);
    case ExitCheck(i) => ExitKeepsInv(c, s, i);
    case Copy(i) => CopyKeepsInv(c, s, i);
    case CodecWrite(i, err) => CodecKeepsInv(c, s, i, err);
    case Settle(i) => SettleKeepsInv(c, s, i);
    case CloseFinishes(codecErr) => CloseKeepsInv(c, s, codecErr);
    case SendTimesOut => CloserKeepsInv(c, s, a);
    case SendRecheck(_) => CloserKeepsInv(c, s, a);
    case CountIn => CloserKeepsInv(c, s, a);
    case CloseCall => CloserKeepsInv(c, s, a);
    case CloseTimesOut => CloserKeepsInv(c, s, a);
    case _ => TaskKeepsInv(c, s, a);
  }

  lemma {:induction false} RunKeepsInv(c: Config, s: State, schedule: seq<Action>)
    requires ValidConfig(c) && Inv(c, s) && Disciplined(c, s, schedule)
    ensures Inv(c, Run(c, s, schedule))
    decreases |schedule|
  {
    if schedule != [] {
      if Enabled(c, s, schedule[0]) {
        StepKeepsInv(c, s, schedule[0]);
      }
      RunKeepsInv(c, Next(c, s, schedule[0]), schedule[1..]);
    }
  }

  /** The guarantees of a stream in which no write begins after close was called, in every
      interleaving: the codec gets a prefix of what was enqueued, in whole samples, and nothing before
      the prebuffer level or a close; once close returns OK on a stream that was not exposed when it
      began, the codec got everything; the tail a task drains then is a whole number of samples. */
  lemma {:induction false} EveryRunPlaysAPrefix(c: Config, schedule: seq<Action>)
    requires ValidConfig(c) && Disciplined(c, OPENED, schedule)
    ensures var s := Run(c, OPENED, schedule);
      && s.written <= s.enqueued
      && |s.written| % 2 == 0
      && (s.written != [] ==> Primed(c, s))
      && (s.closer == Closed(OK) && s.quiet ==> s.written == s.enqueued)
      && (At(s, 0, Draining) && s.quiet ==> |s.tasks[0].scratch| % 2 == 0)
  {
    RunKeepsInv(c, OPENED, schedule);
    var s := Run(c, OPENED, schedule);
    if At(s, 0, Draining) && s.quiet {
      QuietTailIsEven(c, s);
    }
  }

  /** So the codec's refusal of an odd length cannot end such a close. */
  lemma {:induction false} QuietTailIsEven(c: Config, s: State)
    requires ValidConfig(c) && Inv(c, s) && At(s, 0, Draining) && (s.quiet || s.writer.Sending?)
    ensures |s.tasks[0].scratch| % 2 == 0
  {
    var t := s.tasks[0];
    assert !s.closer.NotClosing? && s.ring == [];
    assert |s.written + Unsettled(t) + s.ring| == |s.written| + |t.scratch|;
  }

  // ---------------------------------------------------------------- reaching one state from another

  lemma {:induction false} RunAppend(c: Config, s: State, a: seq<Action>, b: seq<Action>)
    ensures Run(c, s, a + b) == Run(c, Run(c, s, a), b)
    ensures Disciplined(c, s, a + b) <==> Disciplined(c, s, a) && Disciplined(c, Run(c, s, a), b)
    decreases |a|
  {
    if a == [] {
      assert a + b == b;
    } else {
      assert (a + b)[1..] == a[1..] + b;
      RunAppend(c, Next(c, s, a[0]), a[1..], b);
    }
  }

  ghost predicate Leads(c: Config, s: State, schedule: seq<Action>, late: bool, t: State) {
    Run(c, s, schedule) == t && (late || Disciplined(c, s, schedule))
  }

  /** Some run leads there; `late` is whether writes may begin after close was called. */
  ghost predicate Reaches(c: Config, s: State, late: bool, t: State) {
    exists schedule :: Leads(c, s, schedule, late, t)
  }

  lemma {:induction false} Stays(c: Config, s: State, late: bool)
    ensures Reaches(c, s, late, s)
  {
    assert Leads(c, s, [], late, s);
  }

  lemma {:induction false} Turns(c: Config, s: State, a: Action, late: bool, t: State)
    requires Reaches(c, Next(c, s, a), late, t) && (late || !LateWrite(s, a))
    ensures Reaches(c, s, late, t)
  {
    var rest :| Leads(c, Next(c, s, a), rest, late, t);
    assert ([a] + rest)[1..] == rest;
    assert Leads(c, s, [a] + rest, late, t);
  }

  lemma {:induction false} GoesOn(c: Config, s: State, late: bool, t: State, u: State)
    requires Reaches(c, s, late, t) && Reaches(c, t, late, u)
    ensures Reaches(c, s, late, u)
  {
    var first :| Leads(c, s, first, late, t);
    var second :| Leads(c, t, second, late, u);
    RunAppend(c, s, first, second);
    assert Leads(c, s, first + second, late, u);
  }

  lemma {:induction false} ReachingKeepsInv(c: Config, s: State, t: State)
    requires ValidConfig(c) && Inv(c, s) && Reaches(c, s, false, t)
    ensures Inv(c, t)
  {
    var schedule :| Leads(c, s, schedule, false, t);
    RunKeepsInv(c, s, schedule);
  }

  lemma {:induction false} MayBeLate(c: Config, s: State, t: State)
    requires Reaches(c, s, false, t)
    ensures Reaches(c, s, true, t)
  {
    var schedule :| Leads(c, s, schedule, false, t);
    assert Leads(c, s, schedule, true, t);
  }

  // ---------------------------------------------------------------- a task drains the ring

  predicate Streaming(t: Task) {
    t.pc in {Receiving, Copying, WritingFull} || t.pc == Settling(OK, false)
  }

  ghost predicate Drainable(c: Config, s: State, i: nat) {
    && ValidConfig(c) && s.codecOpen
    && i < |s.tasks| && Streaming(s.tasks[i]) && TaskShape(c, s.tasks[i])
    && forall j :: 0 <= j < |s.tasks| && j != i ==> s.tasks[j].item == []
  }

  /** What the codec got and what it would get from this task and the ring. */
  function InOrder(s: State, i: nat): seq<byte>
    requires i < |s.tasks|
  {
    s.written + Unsettled(s.tasks[i]) + s.ring
  }

  ghost predicate OnlyDrains(s: State, i: nat, t: State) {
    && i < |s.tasks| == |t.tasks|
    && t == s.(ring := t.ring, totalOut := t.totalOut, written := t.written, tasks := s.tasks[i := t.tasks[i]])
    && InOrder(t, i) == InOrder(s, i)
  }

  lemma {:induction false} OnlyDrainedTwice(s: State, i: nat, t: State, u: State)
    requires OnlyDrains(s, i, t) && OnlyDrains(t, i, u)
    ensures OnlyDrains(s, i, u)
  {
    assert s.tasks[i := t.tasks[i]][i := u.tasks[i]] == s.tasks[i := u.tasks[i]];
  }

  function DrainTurn(c: Config, s: State, i: nat): Action
    requires i < |s.tasks|
  {
    match s.tasks[i].pc
    case Receiving => Receive(i, Min(c.read, |s.ring|))
    case Copying => Copy(i)
    case WritingFull => CodecWrite(i, OK)
    case _ => Settle(i)
  }

  /** Every byte still has its way to go, and every turn takes some byte a bit further. */
  function Way(s: State, i: nat): nat
    requires i < |s.tasks|
  {
    var t := s.tasks[i];
    20 * |s.ring| + 15 * |t.item| + 10 * |t.scratch| +
    if t.pc == WritingFull then 3 else if t.pc.Settling? then 2 else if t.pc == Copying then 1 else 0
  }

  lemma {:induction false} ReceiveGoesOn(c: Config, s: State, i: nat)
    requires Drainable(c, s, i) && s.tasks[i].pc == Receiving && s.ring != []
    ensures DrainGoesOn(c, s, i)
  {
    NothingHeld(s.tasks);
    var t, u := s.tasks[i], Next(c, s, DrainTurn(c, s, i));
    assert s.ring == u.tasks[i].item + u.ring;
    assert s.written + t.scratch + s.ring == s.written + (t.scratch + u.tasks[i].item) + u.ring;
  }

  lemma {:induction false} CopyGoesOn(c: Config, s: State, i: nat)
    requires Drainable(c, s, i) && s.tasks[i].pc == Copying
    ensures DrainGoesOn(c, s, i)
  {
    CopyKeepsUnsettled(c, s.tasks[i]);
  }

  lemma {:induction false} WriteGoesOn(c: Config, s: State, i: nat)
    requires Drainable(c, s, i) && s.tasks[i].pc == WritingFull
    ensures DrainGoesOn(c, s, i)
  {
    var t, u := s.tasks[i], Step(c, s, CodecWrite(i, OK));
    Regroup(s.written, t.scratch, t.item, s.ring);
    assert u.tasks[i] == t.(pc := Settling(OK, false)) && u.written == s.written + t.scratch;
    assert InOrder(u, i) == InOrder(s, i);
  }

  lemma {:induction false} SettleGoesOn(c: Config, s: State, i: nat)
    requires Drainable(c, s, i) && s.tasks[i].pc.Settling?
    ensures DrainGoesOn(c, s, i)
  {
    assert [] + s.tasks[i].item == s.tasks[i].item;
  }

  ghost predicate DrainGoesOn(c: Config, s: State, i: nat)
    requires i < |s.tasks|
  {
    var a := DrainTurn(c, s, i);
    && Enabled(c, s, a) && !a.WriteCall?
    && var u := Step(c, s, a); Drainable(c, u, i) && OnlyDrains(s, i, u) && Way(u, i) < Way(s, i)
  }

  /** Left to itself, with a codec that takes every write, a task empties the ring in order. */
  lemma {:induction false} Drains(c: Config, s: State, i: nat) returns (t: State)
    requires Drainable(c, s, i)
    ensures Reaches(c, s, false, t) && OnlyDrains(s, i, t)
    ensures t.tasks[i].pc == Receiving && TaskShape(c, t.tasks[i]) && t.ring == []
    decreases Way(s, i)
  {
    if s.tasks[i].pc == Receiving && s.ring == [] {
      t := s;
      Stays(c, s, false);
    } else {
      if s.tasks[i].pc == Receiving {
        ReceiveGoesOn(c, s, i);
      } else if s.tasks[i].pc == Copying {
        CopyGoesOn(c, s, i);
      } else if s.tasks[i].pc == WritingFull {
        WriteGoesOn(c, s, i);
      } else {
        SettleGoesOn(c, s, i);
      }
      var a := DrainTurn(c, s, i);
      t := Drains(c, Step(c, s, a), i);
      OnlyDrainedTwice(s, i, Step(c, s, a), t);
      Turns(c, s, a, false, t);
    }
  }

  // ---------------------------------------------------------------- playback starts by itself

  /** The bytes enqueued, counted and not yet written: what the prebuffer check can know of. */
  function Buffered(s: State): int {
    |s.enqueued| - (if s.writer.CountingIn? then s.writer.n else 0) - |s.written|
  }

  /** A check ends the prebuffer wait exactly when so many bytes wait, or close was called. */
  lemma {:induction false} WaitEndsIff(c: Config, before: seq<Action>)
    requires ValidConfig(c) && Disciplined(c, OPENED, before) && At(Run(c, OPENED, before), 0, Prebuffering)
    ensures var s := Run(c, OPENED, before);
      At(Next(c, s, PrebufferCheck(0)), 0, Receiving) <==> Buffered(s) >= c.prebuffer || !s.closer.NotClosing?
    ensures var s := Run(c, OPENED, before);
      !At(Next(c, s, PrebufferCheck(0)), 0, Receiving) ==> Next(c, s, PrebufferCheck(0)) == s
  {
    RunKeepsInv(c, OPENED, before);
  }

  /** A chunk that is in the ring gets counted. */
  lemma {:induction false} GetsCounted(c: Config, s: State) returns (t: State)
    requires ValidConfig(c) && Inv(c, s)
    ensures Reaches(c, s, false, t) && Inv(c, t) && !t.writer.CountingIn?
    ensures t.tasks == s.tasks && t.closer == s.closer && t.enqueued == s.enqueued && t.written == s.written
    ensures t.ring == s.ring && t.result == s.result
  {
    Stays(c, s, false);
    t := s;
    if s.writer.CountingIn? {
      t := Step(c, s, CountIn);
      StepKeepsInv(c, s, CountIn);
      Stays(c, t, false);
      Turns(c, s, CountIn, false, t);
    }
  }

  /** From the wait, with the level reached, and from an exit test that close has not settled, the task
      comes to take bytes. */
  lemma {:induction false} ComesToStream(c: Config, s: State) returns (t: State)
    requires ValidConfig(c) && Inv(c, s) && s.closer.NotClosing? && s.tasks != [] && !Failed(s, s.tasks[0])
    requires !s.writer.CountingIn? && (s.tasks[0].pc == Prebuffering ==> |s.enqueued| >= c.prebuffer)
    ensures Reaches(c, s, false, t) && Inv(c, t) && Drainable(c, t, 0)
    ensures t.closer.NotClosing? && t.enqueued == s.enqueued && !Failed(t, t.tasks[0])
  {
    Stays(c, s, false);
    t := s;
    var pc := s.tasks[0].pc;
    if pc == Prebuffering || pc == Checking {
      var a := if pc == Prebuffering then PrebufferCheck(0) else ExitCheck(0);
      t := Step(c, s, a);
      StepKeepsInv(c, s, a);
      Stays(c, t, false);
      Turns(c, s, a, false, t);
    }
  }

  /** Without a close every byte gets to the codec, in order, up to less than one read: from every state
      of an open stream whose codec has not failed and in which playback has begun or the prebuffer
      level was enqueued. */
  lemma {:induction false} PlaysWithoutClose(c: Config, before: seq<Action>) returns (after: seq<Action>)
    requires ValidConfig(c) && Disciplined(c, OPENED, before)
    requires var s := Run(c, OPENED, before);
      && s.closer.NotClosing? && s.tasks != [] && !Failed(s, s.tasks[0])
      && (At(s, 0, Prebuffering) ==> |s.enqueued| >= c.prebuffer)
    ensures var s := Run(c, OPENED, before); var t := Run(c, s, after);
      && Disciplined(c, s, after) && t.closer.NotClosing?
      && t.enqueued == s.enqueued && t.written <= s.enqueued && |s.enqueued| - |t.written| < c.read
  {
    var s := Run(c, OPENED, before);
    RunKeepsInv(c, OPENED, before);
    var s1 := GetsCounted(c, s);
    var s2 := ComesToStream(c, s1);
    var t := Drains(c, s2, 0);
    GoesOn(c, s1, false, s2, t);
    GoesOn(c, s, false, s1, t);
    ReachingKeepsInv(c, s2, t);
    assert t.written + t.tasks[0].scratch == t.written + Unsettled(t.tasks[0]) + t.ring == t.enqueued;
    after :| Leads(c, s, after, false, t);
  }

  // ---------------------------------------------------------------- what an exposed stream loses

  function LeaveTurn(pc: Pc): Action {
    match pc
    case Draining => CodecWrite(0, OK)
    case Settling(_, _) => Settle(0)
    case _ => PublishDone(0)
  }

  function LeaveRank(pc: Pc): nat {
    match pc case Draining => 3 case Settling(_, _) => 2 case Finishing => 1 case _ => 0
  }

  ghost predicate SameOutside(s: State, t: State) {
    && t.ring == s.ring && t.writer == s.writer && t.closer == s.closer && t.enqueued == s.enqueued
    && t.ringLive == s.ringLive && t.current == s.current
  }

  /** A task that leaves gets to its end, if its tail is a whole number of samples. */
  lemma {:induction false} Leaves(c: Config, s: State) returns (t: State)
    requires ValidConfig(c) && Inv(c, s) && s.tasks != [] && s.ringLive
    requires Leaving(s.tasks[0]) && !Failed(s, s.tasks[0])
    requires s.tasks[0].pc == Draining ==> |s.tasks[0].scratch| % 2 == 0
    ensures Reaches(c, s, false, t) && Inv(c, t) && SameOutside(s, t)
    ensures t.tasks != [] && t.tasks[0].pc == Suspended && t.result == OK
    decreases LeaveRank(s.tasks[0].pc)
  {
    if s.tasks[0].pc == Suspended {
      t := s;
      Stays(c, s, false);
    } else {
      var a := LeaveTurn(s.tasks[0].pc);
      StepKeepsInv(c, s, a);
      t := Leaves(c, Step(c, s, a));
      Turns(c, s, a, false, t);
    }
  }

  /** Asked to leave while a chunk is on its way in, the task first drains what is there. */
  lemma {:induction false} TurnsToLeave(c: Config, s: State) returns (t: State)
    requires ValidConfig(c) && Inv(c, s) && s.tasks != [] && s.closer.Waiting? && s.writer.Sending?
    requires !Failed(s, s.tasks[0])
    ensures Reaches(c, s, false, t) && Inv(c, t)
    ensures t.tasks != [] && Leaving(t.tasks[0]) && !Failed(t, t.tasks[0]) && t.ringLive
    ensures t.writer == s.writer && t.closer == s.closer && t.enqueued == s.enqueued
    decreases if s.tasks[0].pc == Prebuffering || s.tasks[0].pc == Checking then 1 else 0
  {
    var pc := s.tasks[0].pc;
    if Leaving(s.tasks[0]) {
      t := s;
      Stays(c, s, false);
    } else if pc == Prebuffering || pc == Checking {
      var a := if pc == Prebuffering then PrebufferCheck(0) else ExitCheck(0);
      StepKeepsInv(c, s, a);
      t := TurnsToLeave(c, Step(c, s, a));
      Turns(c, s, a, false, t);
    } else {
      var u := Drains(c, s, 0);
      ReachingKeepsInv(c, s, u);
      t := TimesOut(c, u);
      GoesOn(c, s, false, u, t);
    }
  }

  lemma {:induction false} TimesOut(c: Config, s: State) returns (t: State)
    requires ValidConfig(c) && Inv(c, s) && At(s, 0, Receiving) && s.closer.Waiting? && s.writer.Sending?
    requires s.ring == [] && s.result == OK
    ensures Reaches(c, s, false, t) && Inv(c, t) && SameOutside(s, t)
    ensures t.tasks != [] && Leaving(t.tasks[0]) && !Failed(t, t.tasks[0])
  {
    var u := Step(c, s, ReceiveTimesOut(0));
    StepKeepsInv(c, s, ReceiveTimesOut(0));
    t := Step(c, u, ExitCheck(0));
    StepKeepsInv(c, u, ExitCheck(0));
    assert |s.written + Unsettled(s.tasks[0]) + s.ring| == |s.written| + |s.tasks[0].scratch|;
    Stays(c, t, false);
    Turns(c, u, ExitCheck(0), false, t);
    Turns(c, s, ReceiveTimesOut(0), false, t);
  }

  /** Once the task has gone, whatever the ring still gets or holds is deleted by a close that says OK. */
  lemma {:induction false} ClosesOver(c: Config, s: State) returns (t: State)
    requires ValidConfig(c) && Inv(c, s) && At(s, 0, Suspended) && s.ringLive && s.closer.Waiting? && s.result == OK
    requires s.ring != [] || (s.writer.Sending? && |s.writer.chunk| <= c.capacity)
    ensures Reaches(c, s, false, t) && t.closer == Closed(OK) && t.written != t.enqueued
    decreases s.writer.Sending?
  {
    if s.ring != [] {
      t := Step(c, s, CloseFinishes(OK));
      assert |s.written + Unsettled(s.tasks[0]) + s.ring| > |s.written|;
      Stays(c, t, false);
      Turns(c, s, CloseFinishes(OK), false, t);
    } else {
      NothingHeld(s.tasks);
      StepKeepsInv(c, s, SendAccepted);
      t := ClosesOver(c, Step(c, s, SendAccepted));
      Turns(c, s, SendAccepted, false, t);
    }
  }

  /** The exit test of a task that a chunk in the ring, not counted yet, does not keep from leaving. */
  lemma {:induction false} LeavesUncounted(c: Config, s: State) returns (t: State)
    requires ValidConfig(c) && Inv(c, s) && s.closer.Waiting? && Exposed(c, s) && !s.writer.Sending?
    ensures Reaches(c, s, false, t) && Inv(c, t) && SameOutside(s, t)
    ensures At(t, 0, Suspended) && t.result == OK
  {
    var u := Step(c, s, ExitCheck(0));
    StepKeepsInv(c, s, ExitCheck(0));
    var task := s.tasks[0];
    assert |s.written + Unsettled(task) + s.ring| == |s.written| + |task.scratch| + |s.ring|;
    assert |s.ring| == s.writer.n;
    t := Leaves(c, u);
    Turns(c, s, ExitCheck(0), false, t);
  }

  lemma {:induction false} ExposedCanLose(c: Config, s: State) returns (t: State)
    requires ValidConfig(c) && Inv(c, s) && s.closer.Waiting? && Exposed(c, s)
    ensures Reaches(c, s, false, t) && t.closer == Closed(OK) && t.written != t.enqueued
  {
    var gone := s;
    if s.writer.Sending? {
      var u := TurnsToLeave(c, s);
      if At(u, 0, Draining) {
        QuietTailIsEven(c, u);
      }
      gone := Leaves(c, u);
      GoesOn(c, s, false, u, gone);
    } else {
      gone := LeavesUncounted(c, s);
    }
    t := ClosesOver(c, gone);
    GoesOn(c, s, false, gone, t);
  }

  lemma {:induction false} QuietTurn(c: Config, s: State, a: Action)
    requires !s.closer.NotClosing?
    ensures Next(c, s, a).quiet == s.quiet && !Next(c, s, a).closer.NotClosing?
  {
    if !Enabled(c, s, a) {
      return;
    }
    match a
    case WriteCall(chunk, canCreate) =>
    case CodecWrite(i, err) =>
    case Settle(i) =>
    case CloseFinishes(codecErr) =>
    case _ =>
  }

  lemma {:induction false} QuietIsSettled(c: Config, s: State, schedule: seq<Action>)
    requires !s.closer.NotClosing?
    ensures Run(c, s, schedule).quiet == s.quiet
    decreases |schedule|
  {
    if schedule != [] {
      QuietTurn(c, s, schedule[0]);
      QuietIsSettled(c, Next(c, s, schedule[0]), schedule[1..]);
    }
  }

  /** Close is called here, and some continuation without late writes ends with OK and a byte that was
      enqueued and not written. */
  ghost predicate CanLose(c: Config, s: State) {
    exists t :: Reaches(c, Next(c, s, CloseCall), false, t) && t.closer == Closed(OK) && t.written != t.enqueued
  }

  /** When a close that returns OK can lose bytes: exactly when the stream is exposed as it begins. */
  lemma {:induction false} CloseCanLoseIffExposed(c: Config, before: seq<Action>)
    requires ValidConfig(c) && Disciplined(c, OPENED, before)
    requires Run(c, OPENED, before).closer.NotClosing?
    ensures CanLose(c, Run(c, OPENED, before)) <==> Exposed(c, Run(c, OPENED, before))
  {
    var s := Run(c, OPENED, before);
    var u := Next(c, s, CloseCall);
    RunKeepsInv(c, OPENED, before);
    StepKeepsInv(c, s, CloseCall);
    if Exposed(c, s) {
      var t := ExposedCanLose(c, u);
    } else if CanLose(c, s) {
      var t :| Reaches(c, u, false, t) && t.closer == Closed(OK) && t.written != t.enqueued;
      var after :| Leads(c, u, after, false, t);
      QuietIsSettled(c, u, after);
      RunKeepsInv(c, u, after);
      assert false;
    }
  }

  // ---------------------------------------------------------------- what close reports

  /** A codec write fails at action k of the run: for its odd length, or with the codec's own error. */
  ghost predicate WriteFailsAt(c: Config, schedule: seq<Action>, k: nat, err: EspErr) {
    k < |schedule| && WriteFails(c, Run(c, OPENED, schedule[..k]), schedule[k], err)
  }

  ghost predicate WriteFails(c: Config, s: State, a: Action, err: EspErr) {
    && a.CodecWrite? && Enabled(c, s, a) && s.tasks != [] && err != OK
    && err == if |s.tasks[0].scratch| % 2 != 0 then InvalidSize else a.err
  }

  ghost predicate SomeWriteFails(c: Config, schedule: seq<Action>, err: EspErr) {
    exists k: nat :: WriteFailsAt(c, schedule, k, err)
  }

  /** The error the task has met, settled or about to be. */
  function Failure(s: State): EspErr {
    if s.result != OK || s.tasks == [] then s.result
    else if s.tasks[0].pc.Settling? then s.tasks[0].pc.err
    else OK
  }

  lemma {:induction false} StepFails(c: Config, s: State, a: Action, err: EspErr)
    requires ValidConfig(c) && Inv(c, s) && !LateWrite(s, a) && err != OK
    ensures Failure(Next(c, s, a)) == err <==> Failure(s) == err || WriteFails(c, s, a, err)
    ensures WriteFails(c, s, a, err) ==> Failure(s) == OK
  {
  }

  lemma {:induction false} RunSnoc(c: Config, s: State, schedule: seq<Action>, a: Action)
    ensures Run(c, s, schedule + [a]) == Next(c, Run(c, s, schedule), a)
    ensures Disciplined(c, s, schedule + [a]) <==> Disciplined(c, s, schedule) && !LateWrite(Run(c, s, schedule), a)
  {
    RunAppend(c, s, schedule, [a]);
    var t := Run(c, s, schedule);
    assert [a][1..] == [] && Run(c, Next(c, t, a), []) == Next(c, t, a);
  }

  lemma {:induction false} OneTurnLater(c: Config, schedule: seq<Action>, a: Action, err: EspErr)
    ensures SomeWriteFails(c, schedule + [a], err) <==>
              SomeWriteFails(c, schedule, err) || WriteFails(c, Run(c, OPENED, schedule), a, err)
  {
    var more := schedule + [a];
    assert forall k :: 0 <= k <= |schedule| ==> more[..k] == schedule[..k];
    assert schedule[..|schedule|] == schedule;
    if WriteFails(c, Run(c, OPENED, schedule), a, err) {
      assert WriteFailsAt(c, more, |schedule|, err);
    }
    if SomeWriteFails(c, schedule, err) {
      var k: nat :| WriteFailsAt(c, schedule, k, err);
      assert WriteFailsAt(c, more, k, err);
    }
    if SomeWriteFails(c, more, err) {
      var k: nat :| WriteFailsAt(c, more, k, err);
      assert k < |schedule| ==> WriteFailsAt(c, schedule, k, err);
    }
  }

  lemma {:induction false} FailureIffWriteFailed(c: Config, schedule: seq<Action>, err: EspErr)
    requires ValidConfig(c) && Disciplined(c, OPENED, schedule) && err != OK
    ensures Failure(Run(c, OPENED, schedule)) == err <==> SomeWriteFails(c, schedule, err)
    decreases |schedule|
  {
    if schedule != [] {
      var n := |schedule| - 1;
      var shorter, a := schedule[..n], schedule[n];
      assert schedule == shorter + [a];
      RunSnoc(c, OPENED, shorter, a);
      FailureIffWriteFailed(c, shorter, err);
      OneTurnLater(c, shorter, a, err);
      RunKeepsInv(c, OPENED, shorter);
      StepFails(c, Run(c, OPENED, shorter), a, err);
    }
  }

  /** What close returns once the task is done: the error of the codec write that failed; if none did,
      what closing the codec returns. */
  lemma {:induction false} CloseReports(c: Config, before: seq<Action>, codecErr: EspErr)
    requires ValidConfig(c) && Disciplined(c, OPENED, before)
    requires Enabled(c, Run(c, OPENED, before), CloseFinishes(codecErr))
    ensures var t := Next(c, Run(c, OPENED, before), CloseFinishes(codecErr));
      && t.closer.Closed?
      && (forall err :: err != OK && SomeWriteFails(c, before, err) ==> t.closer.err == err)
      && ((forall err :: err != OK ==> !SomeWriteFails(c, before, err)) ==> t.closer.err == codecErr)
  {
    var s := Run(c, OPENED, before);
    RunKeepsInv(c, OPENED, before);
    assert Failure(s) == s.result;
    forall err | err != OK
      ensures SomeWriteFails(c, before, err) <==> s.result == err
    {
      FailureIffWriteFailed(c, before, err);
    }
    assert s.result != OK ==> SomeWriteFails(c, before, s.result);
  }

  // ---------------------------------------------------------------- what late writes reorder

  /** Close waits, no writer is at work, and no task holds an item of the ring. */
  ghost predicate Ready(c: Config, s: State) {
    && ValidConfig(c) && s.closer.Waiting? && !s.started && s.writer.Idle? && s.result == OK
    && s.ringLive && s.codecOpen
    && forall j :: 0 <= j < |s.tasks| ==> s.tasks[j].item == []
  }

  /** Without late writes every stream that is not over and has not failed can come to that. */
  lemma {:induction false} BecomesReady(c: Config, s: State) returns (t: State)
    requires ValidConfig(c) && Inv(c, s) && s.ringLive && (s.tasks != [] ==> !Failed(s, s.tasks[0]))
    ensures Reaches(c, s, false, t) && Ready(c, t) && |t.written| + |t.ring| <= |t.enqueued|
    decreases !s.closer.Waiting?, s.writer.Sending?, !s.writer.Idle?
  {
    if !s.closer.Waiting? || !s.writer.Idle? {
      var a := if !s.closer.Waiting? then CloseCall
               else if s.writer.CountingIn? then CountIn
               else if s.writer.Refused? then SendRecheck(true)
               else if HasRoom(c, s) then SendAccepted
               else SendTimesOut;
      StepKeepsInv(c, s, a);
      t := BecomesReady(c, Step(c, s, a));
      Turns(c, s, a, false, t);
    } else if s.tasks == [] || s.tasks[0].item == [] {
      t := s;
      Stays(c, s, false);
      assert s.tasks != [] ==> |s.written + Unsettled(s.tasks[0]) + s.ring| == |s.enqueued|;
    } else {
      t := Drains(c, s, 0);
      ReachingKeepsInv(c, s, t);
      assert |t.written + Unsettled(t.tasks[0]) + t.ring| == |t.enqueued|;
    }
  }

  const FRESH := Task(Receiving, [], [])

  /** The state after a late write, and after close was called again: one more task. */
  function Joined(s: State, chunk: seq<byte>): State {
    s.(tasks := s.tasks + [FRESH], current := |s.tasks|, done := false,
       ring := s.ring + chunk, enqueued := s.enqueued + chunk, totalIn := s.totalIn + |chunk|)
  }

  /** A late write starts one more task; calling close again makes that task begin. */
  lemma {:induction false} LateWriteJoins(c: Config, s: State, chunk: seq<byte>)
    requires Ready(c, s) && chunk != [] && |chunk| % 2 == 0 && |s.ring| + |chunk| <= c.capacity
    ensures LateWrite(s, WriteCall(chunk, true))
    ensures Reaches(c, s, true, Joined(s, chunk)) && Ready(c, Joined(s, chunk))
  {
    var k, t := |s.tasks|, Joined(s, chunk);
    var s1 := Next(c, s, WriteCall(chunk, true));
    var s2 := s1.(ring := s.ring + chunk, enqueued := s.enqueued + chunk, writer := CountingIn(|chunk|));
    NothingHeld(s1.tasks);
    assert Next(c, s1, SendAccepted) == s2;
    var s3 := Next(c, s2, CountIn);
    EndsJoining(c, s3, t);
    Turns(c, s2, CountIn, true, t);
    Turns(c, s1, SendAccepted, true, t);
    Turns(c, s, WriteCall(chunk, true), true, t);
  }

  /** The same for a write that gives up because the ring has no room for it. */
  lemma {:induction false} AbandonedWriteJoins(c: Config, s: State)
    requires Ready(c, s) && |s.ring| + 2 > c.capacity
    ensures Reaches(c, s, true, Joined(s, [])) && Ready(c, Joined(s, []))
  {
    var t := Joined(s, []);
    var s1 := Next(c, s, WriteCall([0, 0], true));
    assert s.ring + [] == s.ring && s.enqueued + [] == s.enqueued;
    NothingHeld(s1.tasks);
    var s2 := Next(c, s1, SendTimesOut);
    EndsJoining(c, Next(c, s2, SendRecheck(true)), t);
    Turns(c, s2, SendRecheck(true), true, t);
    Turns(c, s1, SendTimesOut, true, t);
    Turns(c, s, WriteCall([0, 0], true), true, t);
  }

  lemma {:induction false} EndsJoining(c: Config, s: State, t: State)
    requires s.closer.Waiting? && s.ringLive && s.tasks != [] && s.current == |s.tasks| - 1
    requires At(s, |s.tasks| - 1, Prebuffering)
    requires t == s.(started := false, tasks := s.tasks[|s.tasks| - 1 := s.tasks[|s.tasks| - 1].(pc := Receiving)])
    ensures Reaches(c, s, true, t)
  {
    var s1 := Next(c, s, CloseTimesOut);
    var s2 := Next(c, s1, CloseCall);
    assert s2 == s.(started := false);
    Stays(c, t, true);
    Turns(c, s2, PrebufferCheck(|s.tasks| - 1), true, t);
    Turns(c, s1, CloseCall, true, t);
    Turns(c, s, CloseTimesOut, true, t);
  }

  /** A fresh task takes a chunk that fits its scratch buffer out of the ring. */
  lemma {:induction false} TakesWhole(c: Config, s: State, k: nat) returns (t: State)
    requires Ready(c, s) && k < |s.tasks| && s.tasks[k] == FRESH && 0 < |s.ring| <= c.read
    ensures Reaches(c, s, true, t) && Ready(c, t)
    ensures var pc := if |s.ring| == c.read then WritingFull else Copying;
      t == s.(ring := [], tasks := s.tasks[k := Task(pc, s.ring, [])])
  {
    var u := s.(ring := [], tasks := s.tasks[k := Task(Copying, [], s.ring)]);
    NothingHeld(s.tasks);
    assert s.ring[..|s.ring|] == s.ring && s.ring[|s.ring|..] == [];
    assert Next(c, s, Receive(k, |s.ring|)) == u;
    t := Next(c, u, Copy(k));
    assert [] + s.ring == s.ring && u.tasks[k := t.tasks[k]] == s.tasks[k := t.tasks[k]];
    Stays(c, t, true);
    Turns(c, u, Copy(k), true, t);
    Turns(c, s, Receive(k, |s.ring|), true, t);
  }

  /** With bytes still unwritten and the ring empty, the chunk of a late write gets ahead of them. */
  lemma {:induction false} Overtakes(c: Config, s: State) returns (t: State)
    requires Ready(c, s) && s.ring == [] && |s.written| < |s.enqueued|
    ensures Reaches(c, s, true, t) && !(t.written <= t.enqueued)
  {
    var b: byte := if s.enqueued[|s.written|] == 0 then 1 else 0;
    var chunk: seq<byte> := seq(c.read, _ => b);
    LateWriteJoins(c, s, chunk);
    var u, k := Joined(s, chunk), |s.tasks|;
    assert u.ring == chunk;
    var v := TakesWhole(c, u, k);
    t := Next(c, v, CodecWrite(k, OK));
    assert t.written == s.written + chunk && t.enqueued == s.enqueued + chunk;
    assert t.written[|s.written|] == b != t.enqueued[|s.written|];
    Stays(c, t, true);
    Turns(c, v, CodecWrite(k, OK), true, t);
    GoesOn(c, u, true, v, t);
    GoesOn(c, s, true, u, t);
  }

  /** If nothing is unwritten, a first late chunk is left in one task, for a second one to overtake. */
  lemma {:induction false} LateChunksReorder(c: Config, s: State) returns (t: State)
    requires Ready(c, s) && s.ring == [] && |s.written| <= |s.enqueued|
    ensures Reaches(c, s, true, t) && !(t.written <= t.enqueued)
  {
    if |s.written| < |s.enqueued| {
      t := Overtakes(c, s);
    } else {
      LateWriteJoins(c, s, [0, 0]);
      var u := Joined(s, [0, 0]);
      assert u.ring == [0, 0];
      var v := TakesWhole(c, u, |s.tasks|);
      t := Overtakes(c, v);
      GoesOn(c, u, true, v, t);
      GoesOn(c, s, true, u, t);
    }
  }

  /** Late writes are excluded for a reason: from every state of a stream that is not over and has not
      failed there is a run in which they make the codec get bytes out of order. */
  lemma {:induction false} LateWritesCanReorder(c: Config, before: seq<Action>) returns (after: seq<Action>)
    requires ValidConfig(c) && Disciplined(c, OPENED, before)
    requires var s := Run(c, OPENED, before); s.ringLive && (s.tasks != [] ==> !Failed(s, s.tasks[0]))
    ensures var t := Run(c, Run(c, OPENED, before), after); !(t.written <= t.enqueued)
    ensures !Disciplined(c, Run(c, OPENED, before), after)
  {
    var s := Run(c, OPENED, before);
    RunKeepsInv(c, OPENED, before);
    var s1 := BecomesReady(c, s);
    MayBeLate(c, s, s1);
    var fits := |s1.ring| + 2 <= c.capacity;
    var s2, k := Joined(s1, if fits then [0, 0] else []), |s1.tasks|;
    if fits {
      LateWriteJoins(c, s1, [0, 0]);
    } else {
      AbandonedWriteJoins(c, s1);
    }
    var s3 := Drains(c, s2, k);
    MayBeLate(c, s2, s3);
    assert |InOrder(s3, k)| == |InOrder(s2, k)| == |s2.written| + |s2.ring|;
    var t := LateChunksReorder(c, s3);
    GoesOn(c, s2, true, s3, t);
    GoesOn(c, s1, true, s2, t);
    GoesOn(c, s, true, s1, t);
    after :| Leads(c, s, after, true, t);
    if Disciplined(c, s, after) {
      RunKeepsInv(c, s, after);
      assert false;
    }
  }

  // ---------------------------------------------------------------- the shared object

  /** `s_audio_out_state`, the ring buffer and the tasks' locals; one method per critical section or
      blocking call of the three parties. Histories are ghost. */
  class PcmStream {
    const config: Config
    var ring: seq<byte>
    var totalIn: nat
    var totalOut: nat
    var ringLive: bool
    var codecOpen: bool
    var started: bool
    var done: bool
    var current: int
    var result: EspErr
    var tasks: seq<Task>
    var writer: Writer
    var closer: Closer
    ghost var quiet: bool
    ghost var enqueued: seq<byte>
    ghost var written: seq<byte>

    ghost function Now(): State
      reads this
    {
      State(ring, totalIn, totalOut, ringLive, codecOpen, started, done, current, result, tasks, writer, closer,
            quiet, enqueued, written)
    }

    ghost predicate Sound()
      reads this
    {
      ValidConfig(config) && Inv(config, Now())
    }

    constructor (config: Config)
      ensures this.config == config && Now() == OPENED
    {
      this.config := config;
      ring, totalIn, totalOut, ringLive, codecOpen, started, done := [], 0, 0, true, true, false, true;
      current, result, tasks, writer, closer := -1, OK, [], Idle, NotClosing;
      quiet, enqueued, written := false, [], [];
    }

    method LevelLocked() returns (level: nat)
      ensures level == Level(Now())
    {
      if totalIn < totalOut {
        return 0;
      }
      level := totalIn - totalOut;
    }

    /** `audio_out_write_pcm_chunk_buffered` up to the send. */
    method BeginWrite(chunk: seq<byte>, canCreate: bool) returns (err: EspErr)
      requires writer.Idle?
      modifies this
      ensures Now() == Step(config, old(Now()), WriteCall(chunk, canCreate))
      ensures writer == if err == OK then Sending(chunk) else Idle
      ensures chunk == [] ==> err == InvalidArg
      ensures |chunk| % 2 != 0 ==> err == InvalidSize
      ensures chunk != [] && |chunk| % 2 == 0 ==>
                if !old(codecOpen) then err == InvalidState
                else if !old(started) && !canCreate then err == NoMem && !started
                else err == old(result) && started
    {
      if chunk == [] {
        return InvalidArg;
      }
      if |chunk| % 2 != 0 {
        return InvalidSize;
      }
      if !codecOpen {
        return InvalidState;
      }
      ringLive := true;
      if !started {
        started := true;
        done := false;
        if !canCreate {
          started, current, done := false, -1, true;
          return NoMem;
        }
        current := |tasks|;
        tasks := tasks + [Task(Prebuffering, [], [])];
      }
      err := result;
      if err == OK {
        writer := Sending(chunk);
      }
    }

    method Send()
      requires Enabled(config, Now(), SendAccepted)
      modifies this
      ensures Now() == Step(config, old(Now()), SendAccepted)
    {
      ring := ring + writer.chunk;
      enqueued := enqueued + writer.chunk;
      writer := CountingIn(|writer.chunk|);
    }

    /** After a send that timed out: once close was requested, or the task failed, or playback stalled,
        the write gives up. */
    method RecheckWrite(stalled: bool) returns (err: EspErr)
      requires writer.Refused?
      modifies this
      ensures Now() == Step(config, old(Now()), SendRecheck(stalled))
      ensures if err == OK then writer == Sending(old(writer.chunk)) else writer.Idle?
      ensures !started ==> err == InvalidState
      ensures started && result != OK ==> err == result
      ensures started && result == OK ==> err == if stalled then Timeout else OK
      ensures old(Sound()) ==> Sound() && (!closer.NotClosing? ==> err != OK)
    {
      ghost var before, sound := Now(), Sound();
      err := if !started then InvalidState else if result != OK then result else if stalled then Timeout else OK;
      writer := if err == OK then Sending(writer.chunk) else Idle;
      if sound {
        StepKeepsInv(config, before, SendRecheck(stalled));
      }
    }

    method EndWrite()
      requires writer.CountingIn?
      modifies this
      ensures Now() == Step(config, old(Now()), CountIn)
      ensures old(Sound()) ==> Sound() && (ringLive ==> totalIn == |enqueued|)
    {
      ghost var before, sound := Now(), Sound();
      totalIn := totalIn + writer.n;
      writer := Idle;
      if sound {
        StepKeepsInv(config, before, CountIn);
      }
    }

    method CheckPrebuffer(i: nat)
      requires At(Now(), i, Prebuffering)
      modifies this
      ensures Now() == Step(config, old(Now()), PrebufferCheck(i))
    {
      var level := LevelLocked();
      if level >= config.prebuffer || !started {
        tasks := tasks[i := tasks[i].(pc := Receiving)];
      }
    }

    method ReceiveUpTo(i: nat, n: nat)
      requires Enabled(config, Now(), Receive(i, n))
      modifies this
      ensures Now() == Step(config, old(Now()), Receive(i, n))
    {
      tasks := tasks[i := tasks[i].(pc := Copying, item := ring[..n])];
      ring := ring[n..];
    }

    /** The exit test after a receive that timed out. */
    method CheckExit(i: nat)
      requires At(Now(), i, Checking)
      modifies this
      ensures Now() == Step(config, old(Now()), ExitCheck(i))
    {
      var level := LevelLocked();
      var t := tasks[i];
      if started || level > |t.scratch| {
        t := t.(pc := Receiving);
      } else if |t.scratch| > 0 {
        t := t.(pc := Draining);
      } else {
        t := t.(pc := Finishing);
      }
      tasks := tasks[i := t];
    }

    /** One turn of the copy loop. */
    method CopyItem(i: nat)
      requires At(Now(), i, Copying)
      modifies this
      ensures Now() == Step(config, old(Now()), Copy(i))
    {
      var t := tasks[i];
      if t.item == [] {
        tasks := tasks[i := t.(pc := Receiving)];
        return;
      }
      var room := if config.read > |t.scratch| then config.read - |t.scratch| else 0;
      var n := if |t.item| < room then |t.item| else room;
      var scratch := t.scratch + t.item[..n];
      tasks := tasks[i := t.(scratch := scratch, item := t.item[n..],
                             pc := if |scratch| >= config.read then WritingFull else Copying)];
    }

    /** `audio_out_write_pcm_chunk` as the task calls it, for a full or a draining scratch buffer. */
    method WriteToCodec(i: nat, codecErr: EspErr)
      requires At(Now(), i, WritingFull) || At(Now(), i, Draining)
      modifies this
      ensures Now() == Step(config, old(Now()), CodecWrite(i, codecErr))
    {
      var t := tasks[i];
      var err := codecErr;
      if |t.scratch| % 2 != 0 {
        err := InvalidSize;
      } else if !codecOpen {
        err := InvalidState;
      }
      if err == OK {
        written := written + t.scratch;
      }
      tasks := tasks[i := t.(pc := Settling(err, t.pc.Draining?))];
    }

    /** The critical section after a codec write. */
    method SettleWrite(i: nat)
      requires i < |tasks| && tasks[i].pc.Settling?
      modifies this
      ensures Now() == Step(config, old(Now()), Settle(i))
    {
      var t := tasks[i];
      if t.pc.err != OK {
        result := t.pc.err;
        tasks := tasks[i := t.(pc := Finishing, item := [])];
        return;
      }
      totalOut := totalOut + |t.scratch|;
      tasks := tasks[i := t.(pc := if t.pc.last then Finishing else Copying, scratch := [])];
    }

    method FinishTask(i: nat)
      requires At(Now(), i, Finishing)
      modifies this
      ensures Now() == Step(config, old(Now()), PublishDone(i))
    {
      done := true;
      tasks := tasks[i := tasks[i].(pc := Suspended)];
    }

    method BeginClose()
      requires Enabled(config, Now(), CloseCall)
      modifies this
      ensures Now() == Step(config, old(Now()), CloseCall)
      ensures old(Sound()) ==> Sound() && !started
    {
      ghost var before, sound := Now(), Sound();
      if closer.NotClosing? {
        quiet := !Exposed(config, Now());
      }
      if current >= 0 {
        started := false;
      }
      closer := Waiting;
      if sound {
        StepKeepsInv(config, before, CloseCall);
      }
    }

    /** The end of close, once the task is seen done and suspended. */
    method EndClose(codecErr: EspErr) returns (err: EspErr)
      requires closer.Waiting?
      requires current < 0 || (done && current < |tasks| && tasks[current].pc == Suspended)
      modifies this
      ensures Now() == DoClose(old(Now()), codecErr)
      ensures closer == Closed(err) && err == (if old(result) != OK then old(result) else codecErr)
      ensures ring == [] && totalIn == totalOut == 0 && !ringLive && codecOpen == (codecErr != OK)
      ensures old(Sound()) ==> Sound() && (err == OK && quiet ==> written == enqueued)
    {
      ghost var before, sound := Now(), Sound();
      err := if result != OK then result else codecErr;
      current, done, ring, totalIn, totalOut := -1, true, [], 0, 0;
      ringLive, codecOpen := false, codecErr != OK;
      closer := Closed(err);
      if sound {
        StepKeepsInv(config, before, CloseFinishes(codecErr));
      }
    }
  }
}
