/** The runtime outage notifier: connect and disconnect events, suppression and a timer task share a
    few flags and a generation counter under a spinlock. A step is one critical section, one wait or
    one moment of time passing. */
module OutageNotifier {
  import opened Bytes

  const PROMPT_MS := 12000
  /** The length of a tick at the default 100 Hz. */
  const TICK_MS := 10

  datatype Flags = Flags(suppressed: bool, active: bool, prompted: bool, generation: uint32, startedMs: nat)

  /** What the timer task read under the lock, when it then read the clock, and (a history) how often
      the counter had moved when it held the lock. */
  datatype Snapshot = Snapshot(generation: uint32, startedMs: nat, lookedUs: nat, epoch: nat)

  /** `earliestUs`: a wait of n ticks ends with the n-th tick, so after more than n - 1 whole ticks. */
  datatype Pc =
    | Asleep
    | Looking
    | Timing(generation: uint32, startedMs: nat, epoch: nat)
    | Waiting(snap: Snapshot, earliestUs: nat)
    | Deciding(snap: Snapshot)
    | Committing(snap: Snapshot)

  /** A prompt that was committed: for which outage, when, and on what the task had read. */
  datatype Commit = Commit(outage: nat, atUs: nat, startedMs: nat, snap: Snapshot, epoch: nat)

  /** Histories: `outages` counts the outages begun, `epoch` counts the counter's moves without
      wrapping, `recovered` lists the outages whose end was announced. */
  datatype Log = Log(outages: nat, epoch: nat, commits: seq<Commit>, recovered: seq<nat>)

  datatype State = State(nowUs: nat, flags: Flags, raise: bool, changed: bool, pc: Pc, log: Log)

  const BOOTED := State(0, Flags(false, false, false, 0, 0), false, false, Asleep, Log(0, 0, [], []))

  datatype Action =
    | Pass(us: nat)
    | SetSuppressed(on: bool)
    | Connected
    | Disconnected
    | RaiseBit
    | WakeUp
    | Look
    | ReadClock
    | WaitInterrupted
    | WaitElapsed
    | Decide(connected: bool)
    | TryCommit

  function NowMs(s: State): nat { s.nowUs / 1000 }

  predicate Enabled(s: State, a: Action) {
    match a
    case Pass(_) => true
    case SetSuppressed(_) => true
    case Connected => true
    case Disconnected => true
    case RaiseBit => s.raise
    case WakeUp => s.pc.Asleep? && s.changed
    case Look => s.pc.Looking?
    case ReadClock => s.pc.Timing?
    case WaitInterrupted => s.pc.Waiting? && s.changed
    case WaitElapsed => s.pc.Waiting? && s.nowUs >= s.pc.earliestUs
    case Decide(_) => s.pc.Deciding?
    case TryCommit => s.pc.Committing?
  }

  function Bumped(f: Flags): uint32 { (f.generation + 1) % TWO_TO_THE_32 }

  function Deadline(startedMs: nat): nat { startedMs + PROMPT_MS }

  /** When a wait of `ms` milliseconds that begins at `us` can end at the earliest. */
  function EarliestEnd(us: nat, ms: nat): nat {
    var ticks := ms / TICK_MS;
    if ticks == 0 then us else us + (ticks - 1) * TICK_MS * 1000 + 1
  }

  function Step(s: State, a: Action): State
    requires Enabled(s, a)
  {
    match a
    case Pass(us) => s.(nowUs := s.nowUs + us)
    case SetSuppressed(on) => s.(flags := s.flags.(suppressed := on), raise := true)
    case Connected => ConnectedStep(s)
    case Disconnected => DisconnectedStep(s)
    case RaiseBit => s.(raise := false, changed := true)
    case WakeUp => s.(changed := false, pc := Looking)
    case Look => s.(pc := AfterLook(s.flags, s.log.epoch))
    case ReadClock => s.(pc := AfterClock(s.pc, s.nowUs))
    case WaitInterrupted => s.(changed := false, pc := Looking)
    case WaitElapsed => s.(pc := Deciding(s.pc.snap))
    case Decide(connected) => s.(pc := if connected then Asleep else Committing(s.pc.snap))
    case TryCommit => CommitStep(s)
  }

  function ConnectedStep(s: State): State {
    if !s.flags.active then s.(raise := true)
    else
      s.(raise := true,
         flags := s.flags.(active := false, prompted := false, generation := Bumped(s.flags)),
         log := s.log.(epoch := s.log.epoch + 1,
                       recovered := if s.flags.prompted then s.log.recovered + [Current(s)] else s.log.recovered))
  }

  function DisconnectedStep(s: State): State {
    if s.flags.suppressed || s.flags.active then s
    else
      s.(raise := true,
         flags := Flags(s.flags.suppressed, true, false, Bumped(s.flags), NowMs(s)),
         log := s.log.(outages := s.log.outages + 1, epoch := s.log.epoch + 1))
  }

  /** The number of the outage that is on. */
  function Current(s: State): nat { if s.log.outages == 0 then 0 else s.log.outages - 1 }

  function AfterLook(f: Flags, epoch: nat): Pc {
    if !(f.active && !f.suppressed) || f.prompted then Asleep else Timing(f.generation, f.startedMs, epoch)
  }

  function AfterClock(pc: Pc, nowUs: nat): Pc
    requires pc.Timing?
  {
    var snap := Snapshot(pc.generation, pc.startedMs, nowUs, pc.epoch);
    if nowUs / 1000 < Deadline(pc.startedMs) then
      Waiting(snap, EarliestEnd(nowUs, Deadline(pc.startedMs) - nowUs / 1000))
    else Deciding(snap)
  }

  predicate MayCommit(f: Flags, snap: Snapshot) {
    f.active && !f.suppressed && !f.prompted && snap.generation == f.generation
  }

  function CommitStep(s: State): State
    requires s.pc.Committing?
  {
    if !MayCommit(s.flags, s.pc.snap) then s.(pc := Asleep)
    else
      s.(pc := Asleep, flags := s.flags.(prompted := true),
         log := s.log.(commits := s.log.commits +
           [Commit(Current(s), s.nowUs, s.flags.startedMs, s.pc.snap, s.log.epoch)]))
  }

  function Next(s: State, a: Action): State { if Enabled(s, a) then Step(s, a) else s }

  function Run(s: State, schedule: seq<Action>): State
    decreases |schedule|
  {
    if schedule == [] then s else Run(Next(s, schedule[0]), schedule[1..])
  }

  // ---------------------------------------------------------------- invariants

  /** Commits and recoveries pair up: every commit was recovered, but perhaps the current one. */
  ghost predicate Paired(f: Flags, log: Log) {
    && (f.active ==> log.outages > 0)
    && (f.prompted ==> f.active)
    && |log.commits| == |log.recovered| + (if f.prompted then 1 else 0)
    && (forall i :: 0 <= i < |log.recovered| ==> log.recovered[i] == log.commits[i].outage)
    && (f.prompted ==> log.commits[|log.commits| - 1].outage == log.outages - 1)
    && (forall i, j :: 0 <= i < j < |log.commits| ==> log.commits[i].outage < log.commits[j].outage)
    && (forall i :: 0 <= i < |log.commits| ==>
          log.commits[i].outage < log.outages
          && (f.active && !f.prompted ==> log.commits[i].outage < log.outages - 1))
  }

  ghost predicate Counted(f: Flags, log: Log) {
    f.generation == log.epoch % TWO_TO_THE_32
  }

  /** What a snapshot still says: it is from the past, and if the counter has not moved since, the
      outage it saw is still on. */
  ghost predicate SnapHolds(s: State, snap: Snapshot) {
    snap.lookedUs <= s.nowUs && ReadHolds(s, snap.generation, snap.startedMs, snap.epoch)
  }

  ghost predicate ReadHolds(s: State, generation: uint32, startedMs: nat, epoch: nat) {
    && epoch <= s.log.epoch && generation == epoch % TWO_TO_THE_32
    && (epoch == s.log.epoch ==> startedMs == s.flags.startedMs)
  }

  /** Not before the wait could have ended. */
  ghost predicate Ripe(nowUs: nat, snap: Snapshot) {
    if snap.lookedUs / 1000 < Deadline(snap.startedMs) then
      nowUs >= EarliestEnd(snap.lookedUs, Deadline(snap.startedMs) - snap.lookedUs / 1000)
    else nowUs >= snap.lookedUs
  }

  ghost predicate PcHolds(s: State) {
    match s.pc
    case Timing(generation, startedMs, epoch) => ReadHolds(s, generation, startedMs, epoch)
    case Waiting(snap, earliest) =>
      && SnapHolds(s, snap)
      && snap.lookedUs / 1000 < Deadline(snap.startedMs)
      && earliest == EarliestEnd(snap.lookedUs, Deadline(snap.startedMs) - snap.lookedUs / 1000)
    case Deciding(snap) => SnapHolds(s, snap) && Ripe(s.nowUs, snap)
    case Committing(snap) => SnapHolds(s, snap) && Ripe(s.nowUs, snap)
    case _ => true
  }

  /** A commit whose pass saw fewer than 2^32 moves of the counter is for the outage it looked at, and
      came no earlier than that pass's wait could end. */
  ghost predicate Timely(c: Commit) {
    && c.snap.epoch <= c.epoch
    && (c.epoch < c.snap.epoch + TWO_TO_THE_32 ==>
          c.snap.epoch == c.epoch && c.snap.startedMs == c.startedMs && Ripe(c.atUs, c.snap))
  }

  ghost predicate Inv(s: State) {
    && Paired(s.flags, s.log) && Counted(s.flags, s.log) && PcHolds(s)
    && forall i :: 0 <= i < |s.log.commits| ==> Timely(s.log.commits[i])
  }

  lemma {:induction false} SameGenerationSameEpoch(a: nat, b: nat)
    requires a <= b < a + TWO_TO_THE_32 && a % TWO_TO_THE_32 == b % TWO_TO_THE_32
    ensures a == b
  {
  }

  lemma {:induction false} CommitKeepsInv(s: State)
    requires Inv(s) && s.pc.Committing?
    ensures Inv(CommitStep(s))
  {
    var t := CommitStep(s);
    if MayCommit(s.flags, s.pc.snap) {
      var c := t.log.commits[|s.log.commits|];
      if c.epoch < c.snap.epoch + TWO_TO_THE_32 {
        SameGenerationSameEpoch(c.snap.epoch, c.epoch);
      }
      assert Timely(c);
    }
  }

  lemma {:induction false} BumpIsCounted(f: Flags, log: Log)
    requires Counted(f, log)
    ensures Bumped(f) == (log.epoch + 1) % TWO_TO_THE_32
  {
  }

  lemma {:induction false} ConnectedKeepsInv(s: State)
    requires Inv(s)
    ensures Inv(ConnectedStep(s))
  {
    BumpIsCounted(s.flags, s.log);
    ConnectedKeepsPairs(s);
  }

  lemma {:induction false} ConnectedKeepsPairs(s: State)
    requires Paired(s.flags, s.log)
    ensures Paired(ConnectedStep(s).flags, ConnectedStep(s).log)
    ensures ConnectedStep(s).log.commits == s.log.commits
  {
  }

  lemma {:induction false} DisconnectedKeepsInv(s: State)
    requires Inv(s)
    ensures Inv(DisconnectedStep(s))
  {
    BumpIsCounted(s.flags, s.log);
  }

  lemma {:induction false} StepKeepsInv(s: State, a: Action)
    requires Inv(s) && Enabled(s, a)
    ensures Inv(Step(s, a))
  {
    match a
    case TryCommit => CommitKeepsInv(s);
    case Connected => ConnectedKeepsInv(s);
    case Disconnected => DisconnectedKeepsInv(s);
    case _ =>
  }

  lemma {:induction false} RunKeepsInv(s: State, schedule: seq<Action>)
    requires Inv(s)
    ensures Inv(Run(s, schedule))
    decreases |schedule|
  {
    if schedule != [] {
      if Enabled(s, schedule[0]) {
        StepKeepsInv(s, schedule[0]);
      }
      RunKeepsInv(Next(s, schedule[0]), schedule[1..]);
    }
  }

  /** In every interleaving each outage commits at most one prompt, and the outages whose end was
      announced are, in order, the prompted ones that have ended. */
  lemma {:induction false} OnePromptPerOutage(schedule: seq<Action>)
    ensures var s := Run(BOOTED, schedule);
      var commits := s.log.commits;
      && (forall i, j :: 0 <= i < j < |commits| ==> commits[i].outage < commits[j].outage)
      && |commits| == |s.log.recovered| + (if s.flags.prompted then 1 else 0)
      && (forall i :: 0 <= i < |s.log.recovered| ==> s.log.recovered[i] == commits[i].outage)
      && (s.flags.prompted ==> s.flags.active && commits[|commits| - 1].outage == Current(s))
  {
    RunKeepsInv(BOOTED, schedule);
  }

  /** Commit `c` is made at action k of the run: its outage is on then, unprompted and not suppressed. */
  ghost predicate MadeAt(schedule: seq<Action>, k: nat, i: nat, c: Commit)
    requires k < |schedule|
  {
    var s := Run(BOOTED, schedule[..k]);
    && schedule[k].TryCommit? && s.pc.Committing?
    && s.flags.active && !s.flags.suppressed && !s.flags.prompted
    && |s.log.commits| == i && c.outage == Current(s) && c.atUs == s.nowUs && c.startedMs == s.flags.startedMs
  }

  lemma {:induction false} RunSnoc(s: State, schedule: seq<Action>, a: Action)
    ensures Run(s, schedule + [a]) == Next(Run(s, schedule), a)
    decreases |schedule|
  {
    if schedule == [] {
      assert ([] + [a])[1..] == [] && ([] + [a])[0] == a;
      assert Run(Next(s, a), []) == Next(s, a);
    } else {
      assert (schedule + [a])[1..] == schedule[1..] + [a];
      RunSnoc(Next(s, schedule[0]), schedule[1..], a);
    }
  }

  lemma {:induction false} OnlyCommitsAreLogged(s: State, a: Action)
    ensures Next(s, a).log.commits == s.log.commits
            || (a.TryCommit? && s.pc.Committing? && MayCommit(s.flags, s.pc.snap) && Next(s, a) == CommitStep(s))
  {
  }

  /** Every prompt of a run was committed at one moment of it, in its own outage, while that was on and
      not suppressed. */
  lemma {:induction false} CommitsOnlyInOutage(schedule: seq<Action>, i: nat) returns (k: nat)
    requires i < |Run(BOOTED, schedule).log.commits|
    ensures k < |schedule| && MadeAt(schedule, k, i, Run(BOOTED, schedule).log.commits[i])
    decreases |schedule|
  {
    var n := |schedule| - 1;
    var shorter := schedule[..n];
    var s := Run(BOOTED, shorter);
    assert schedule == shorter + [schedule[n]];
    RunSnoc(BOOTED, shorter, schedule[n]);
    OnlyCommitsAreLogged(s, schedule[n]);
    if i < |s.log.commits| {
      k := CommitsOnlyInOutage(shorter, i);
      assert schedule[..k] == shorter[..k];
    } else {
      k := n;
    }
  }

  /** How early a wait in whole ticks can end. */
  lemma {:induction false} WaitBound(us: nat, ms: nat)
    ensures EarliestEnd(us, ms) > us + (ms - 2 * TICK_MS) * 1000
  {
    var ticks := ms / TICK_MS;
    assert ticks * TICK_MS > ms - TICK_MS;
  }

  /** The deadline: a prompt comes at most two ticks before its own outage's deadline, and never
      before it if its pass read the clock when the deadline had passed. */
  lemma {:induction false} PromptsAreNotMuchTooEarly(schedule: seq<Action>, i: nat)
    requires i < |Run(BOOTED, schedule).log.commits|
    ensures var c := Run(BOOTED, schedule).log.commits[i];
      c.epoch < c.snap.epoch + TWO_TO_THE_32 ==>
        && c.atUs > (c.startedMs + 12000 - 2 * 10) * 1000
        && (c.snap.lookedUs / 1000 >= Deadline(c.startedMs) ==> c.atUs >= Deadline(c.startedMs) * 1000)
  {
    RunKeepsInv(BOOTED, schedule);
    var c := Run(BOOTED, schedule).log.commits[i];
    assert Timely(c);
    var looked := c.snap.lookedUs / 1000;
    if looked < Deadline(c.snap.startedMs) {
      WaitBound(c.snap.lookedUs, Deadline(c.snap.startedMs) - looked);
    }
  }

  /** From the look on: nothing happens until the wait ends, and then the prompt is committed. */
  function EarlyPass(s: State): seq<Action> {
    [Look] + ([ReadClock] + ([Pass(EarliestEnd(s.nowUs, Max0(Deadline(s.flags.startedMs) - NowMs(s))) - s.nowUs)] +
      ([WaitElapsed] + ([Decide(false)] + ([TryCommit] + [])))))
  }

  function Max0(n: int): nat { if n < 0 then 0 else n }

  lemma {:induction false} RunCons(s: State, a: Action, rest: seq<Action>)
    ensures Run(s, [a] + rest) == Run(Next(s, a), rest)
  {
    assert ([a] + rest)[1..] == rest;
  }

  /** Conversely a pass that reads the clock before the deadline can always prompt before it: the wait is
      cut down to whole ticks and its first tick is already running, and time is not looked at again. So
      a prompt is sure not to be early exactly when its pass read the clock at or after the deadline. */
  lemma {:induction false} EarlyLookCanPromptEarly(s: State)
    requires s.pc.Looking? && s.flags.active && !s.flags.suppressed && !s.flags.prompted
    requires NowMs(s) < Deadline(s.flags.startedMs)
    ensures var t := Run(s, EarlyPass(s));
      && |t.log.commits| == |s.log.commits| + 1
      && t.log.commits[|s.log.commits|].outage == Current(s)
      && t.log.commits[|s.log.commits|].atUs < Deadline(s.flags.startedMs) * 1000
  {
    var end := EarliestEnd(s.nowUs, Deadline(s.flags.startedMs) - NowMs(s));
    EndIsBeforeDeadline(s.nowUs, Deadline(s.flags.startedMs));
    var snap := Snapshot(s.flags.generation, s.flags.startedMs, s.nowUs, s.log.epoch);
    var rest := [WaitElapsed] + ([Decide(false)] + ([TryCommit] + []));
    RunCons(s, Look, [ReadClock] + ([Pass(end - s.nowUs)] + rest));
    RunCons(s.(pc := Timing(snap.generation, snap.startedMs, snap.epoch)), ReadClock, [Pass(end - s.nowUs)] + rest);
    RunCons(s.(pc := Waiting(snap, end)), Pass(end - s.nowUs), rest);
    ElapsedWaitCommits(s.(pc := Waiting(snap, end), nowUs := end));
  }

  lemma {:induction false} ElapsedWaitCommits(s: State)
    requires s.pc.Waiting? && s.nowUs >= s.pc.earliestUs && MayCommit(s.flags, s.pc.snap)
    ensures var t := Run(s, [WaitElapsed] + ([Decide(false)] + ([TryCommit] + [])));
      t.log.commits == s.log.commits + [Commit(Current(s), s.nowUs, s.flags.startedMs, s.pc.snap, s.log.epoch)]
  {
    var s3 := s.(pc := Deciding(s.pc.snap));
    var s4 := s.(pc := Committing(s.pc.snap));
    RunCons(s, WaitElapsed, [Decide(false)] + ([TryCommit] + []));
    RunCons(s3, Decide(false), [TryCommit] + []);
    RunCons(s4, TryCommit, []);
  }

  lemma {:induction false} EndIsBeforeDeadline(us: nat, deadlineMs: nat)
    requires us / 1000 < deadlineMs
    ensures us <= EarliestEnd(us, deadlineMs - us / 1000) < deadlineMs * 1000
  {
    var ms := deadlineMs - us / 1000;
    assert ms / TICK_MS * TICK_MS <= ms;
  }

  // ---------------------------------------------------------------- an outage gets its prompt

  /** An outage that is on, may be announced and was not. */
  predicate Due(s: State) { s.flags.active && !s.flags.suppressed && !s.flags.prompted }

  /** The pass in hand, or one that is sure to come, will see the outage as it is now. */
  predicate WillLook(s: State) {
    s.raise || s.changed || s.pc.Looking? || (PassOf(s.pc).Some? && PassOf(s.pc).value == s.flags.generation)
  }

  datatype Option<T> = None | Some(value: T)

  /** The outage a pass has read. */
  function PassOf(pc: Pc): Option<uint32> {
    match pc
    case Timing(generation, _, _) => Some(generation)
    case Waiting(snap, _) => Some(snap.generation)
    case Deciding(snap) => Some(snap.generation)
    case Committing(snap) => Some(snap.generation)
    case _ => None
  }

  /** The task never found the device connected while the outage was on. */
  ghost predicate NeverConnectedInOutage(s: State, schedule: seq<Action>)
    decreases |schedule|
  {
    schedule != [] ==>
      && !(schedule[0] == Decide(true) && Enabled(s, schedule[0]) && Due(s))
      && NeverConnectedInOutage(Next(s, schedule[0]), schedule[1..])
  }

  lemma {:induction false} StepForgetsNothing(s: State, a: Action)
    requires (Due(s) ==> WillLook(s)) && !(a == Decide(true) && Due(s)) && Enabled(s, a)
    ensures Due(Step(s, a)) ==> WillLook(Step(s, a))
  {
  }

  /** No outage is forgotten: in every run, while one is due for its prompt, the change bit is set or
      about to be, or a pass is under way that has read it, unless the task found the device connected. */
  lemma {:induction false} NoOutageIsForgotten(s: State, schedule: seq<Action>)
    requires Due(s) ==> WillLook(s)
    requires NeverConnectedInOutage(s, schedule)
    ensures Due(Run(s, schedule)) ==> WillLook(Run(s, schedule))
    decreases |schedule|
  {
    if schedule != [] {
      if Enabled(s, schedule[0]) {
        StepForgetsNothing(s, schedule[0]);
      }
      NoOutageIsForgotten(Next(s, schedule[0]), schedule[1..]);
    }
  }

  /** The task goes on to a prompt only after it has found the device not connected. */
  lemma {:induction false} ConnectedIsNotPrompted(s: State, a: Action)
    requires Enabled(s, a) && Step(s, a).pc.Committing?
    ensures s.pc == Step(s, a).pc || (a == Decide(false) && s.pc.Deciding?)
  {
  }

  /** Outage number `outage` began at action k of the run, at that time. */
  ghost predicate BeganAt(schedule: seq<Action>, k: nat, outage: nat, startedMs: nat) {
    && k < |schedule| && schedule[k] == Disconnected
    && var s := Run(BOOTED, schedule[..k]);
       && !s.flags.suppressed && !s.flags.active && s.log.outages == outage && NowMs(s) == startedMs
  }

  ghost predicate Began(schedule: seq<Action>, outage: nat, startedMs: nat) {
    exists k: nat :: BeganAt(schedule, k, outage, startedMs)
  }

  lemma {:induction false} BeganStays(schedule: seq<Action>, a: Action, outage: nat, startedMs: nat)
    ensures Began(schedule, outage, startedMs) ==> Began(schedule + [a], outage, startedMs)
    ensures var s := Run(BOOTED, schedule);
      a == Disconnected && !s.flags.suppressed && !s.flags.active && s.log.outages == outage && NowMs(s) == startedMs ==>
        Began(schedule + [a], outage, startedMs)
  {
    var more := schedule + [a];
    assert forall k :: 0 <= k <= |schedule| ==> more[..k] == schedule[..k];
    assert schedule[..|schedule|] == schedule;
    if Began(schedule, outage, startedMs) {
      var k: nat :| BeganAt(schedule, k, outage, startedMs);
      assert BeganAt(more, k, outage, startedMs);
    }
    if BeganAt(more, |schedule|, outage, startedMs) {
      assert Began(more, outage, startedMs);
    }
  }

  /** The times that count: an outage that is on, and every outage that was prompted, began in the run at
      the time its deadline is counted from. */
  lemma {:induction false} DeadlineCountsFromTheStart(schedule: seq<Action>)
    ensures var s := Run(BOOTED, schedule);
      && (s.flags.active ==> Began(schedule, Current(s), s.flags.startedMs))
      && (forall i :: 0 <= i < |s.log.commits| ==> Began(schedule, s.log.commits[i].outage, s.log.commits[i].startedMs))
    decreases |schedule|
  {
    if schedule != [] {
      var n := |schedule| - 1;
      var shorter, a := schedule[..n], schedule[n];
      assert schedule == shorter + [a];
      DeadlineCountsFromTheStart(shorter);
      RunSnoc(BOOTED, shorter, a);
      RunKeepsInv(BOOTED, shorter);
      var s := Run(BOOTED, shorter);
      StepCommits(s, a);
      BeganStays(shorter, a, Current(s), s.flags.startedMs);
      BeganStays(shorter, a, s.log.outages, NowMs(s));
      forall i | 0 <= i < |s.log.commits|
        ensures Began(schedule, s.log.commits[i].outage, s.log.commits[i].startedMs)
      {
        BeganStays(shorter, a, s.log.commits[i].outage, s.log.commits[i].startedMs);
      }
    }
  }

  /** What a step does to the outage that is on and to the commits. */
  lemma {:induction false} StepCommits(s: State, a: Action)
    requires Inv(s)
    ensures var t := Next(s, a);
      && (t.flags.active ==>
            || (s.flags.active && Current(t) == Current(s) && t.flags.startedMs == s.flags.startedMs)
            || (a == Disconnected && !s.flags.suppressed && !s.flags.active
                && Current(t) == s.log.outages && t.flags.startedMs == NowMs(s)))
      && (t.log.commits == s.log.commits
          || (s.flags.active && |t.log.commits| == |s.log.commits| + 1 && t.log.commits[..|s.log.commits|] == s.log.commits
              && t.log.commits[|s.log.commits|].outage == Current(s)
              && t.log.commits[|s.log.commits|].startedMs == s.flags.startedMs))
  {
  }

  /** What takes a pass on. */
  function PassTurn(s: State): Action {
    match s.pc
    case Asleep => if s.changed then WakeUp else RaiseBit
    case Looking => Look
    case Timing(_, _, _) => ReadClock
    case Waiting(_, earliest) => if s.nowUs >= earliest then WaitElapsed else Pass(earliest - s.nowUs)
    case Deciding(_) => Decide(false)
    case Committing(_) => TryCommit
  }

  function PassRank(s: State): nat {
    match s.pc
    case Asleep => if s.changed then 7 else 8
    case Looking => 6
    case Timing(_, _, _) => 5
    case Waiting(_, earliest) => if s.nowUs >= earliest then 3 else 4
    case Deciding(_) => 2
    case Committing(_) => 1
  }

  /** A pass has not read anything else than the outage that is on. */
  predicate PassIsCurrent(s: State) { PassOf(s.pc).Some? ==> PassOf(s.pc).value == s.flags.generation }

  /** And every outage that is due gets its prompt in some run that nothing else disturbs, late or early. */
  lemma {:induction false} DueIsPrompted(s: State) returns (schedule: seq<Action>)
    requires Due(s) && PassIsCurrent(s) && (s.pc.Asleep? ==> s.changed || s.raise)
    ensures var t := Run(s, schedule);
      && |t.log.commits| == |s.log.commits| + 1 && t.log.commits[|s.log.commits|].outage == Current(s)
      && t.flags == s.flags.(prompted := true) && t.log.recovered == s.log.recovered
    decreases PassRank(s)
  {
    var a := PassTurn(s);
    var t := Step(s, a);
    var rest: seq<Action> := [];
    if !s.pc.Committing? {
      rest := DueIsPrompted(t);
    }
    RunCons(s, a, rest);
    schedule := [a] + rest;
  }

  // ---------------------------------------------------------------- the shared object

  /** The notifier's static variables, the event bit and the timer task's locals.
      The log takes no part in any decision. */
  class Notifier {
    var nowUs: nat
    var suppressed: bool
    var active: bool
    var prompted: bool
    var generation: uint32
    var startedMs: nat
    var raise: bool
    var changed: bool
    var pc: Pc
    var log: Log

    ghost function Now(): State
      reads this
    {
      State(nowUs, Flags(suppressed, active, prompted, generation, startedMs), raise, changed, pc, log)
    }

    ghost predicate Sound()
      reads this
    {
      Inv(Now())
    }

    constructor ()
      ensures Now() == BOOTED && Sound()
    {
      nowUs, suppressed, active, prompted, generation, startedMs := 0, false, false, false, 0, 0;
      raise, changed, pc, log := false, false, Asleep, Log(0, 0, [], []);
    }

    method SetOutageSuppressed(on: bool)
      modifies this
      ensures Now() == Step(old(Now()), SetSuppressed(on))
    {
      suppressed := on;
      raise := true;
    }

    method BeginRuntimeOutage()
      modifies this
      ensures Now() == Step(old(Now()), Disconnected)
      ensures old(Sound()) ==> Sound() && (log.outages > old(log.outages) <==> !old(suppressed) && !old(active))
    {
      ghost var before, sound := Now(), Sound();
      if suppressed || active {
        return;
      }
      active, prompted := true, false;
      startedMs := nowUs / 1000;
      generation := (generation + 1) % TWO_TO_THE_32;
      log := log.(outages := log.outages + 1, epoch := log.epoch + 1);
      raise := true;
      if sound {
        StepKeepsInv(before, Disconnected);
      }
    }

    /** The Connected event; `announce` is whether it submits the recovery prompt. */
    method HandleConnected() returns (announce: bool)
      modifies this
      ensures Now() == Step(old(Now()), Connected)
      ensures announce <==> log.recovered != old(log.recovered)
      ensures old(Sound()) ==> Sound() && (announce <==> |old(log.commits)| > |old(log.recovered)|)
    {
      ghost var before, sound := Now(), Sound();
      announce := false;
      if active {
        announce := prompted;
        if announce {
          log := log.(recovered := log.recovered + [if log.outages == 0 then 0 else log.outages - 1]);
        }
        active, prompted := false, false;
        generation := (generation + 1) % TWO_TO_THE_32;
        log := log.(epoch := log.epoch + 1);
      }
      raise := true;
      if sound {
        StepKeepsInv(before, Connected);
      }
    }

    /** The timer task's reading of the flags, in one critical section, and its decision to go on. */
    method LookAtOutage()
      requires pc.Looking?
      modifies this
      ensures Now() == Step(old(Now()), Look)
      ensures old(Sound()) ==> Sound()
      ensures old(Sound()) && !pc.Asleep? ==>
                forall i :: 0 <= i < |log.commits| ==> log.commits[i].outage < Current(Now())
    {
      ghost var before, sound := Now(), Sound();
      var on := active && !suppressed;
      if !on || prompted {
        pc := Asleep;
      } else {
        pc := Timing(generation, startedMs, log.epoch);
      }
      if sound {
        StepKeepsInv(before, Look);
      }
    }

    /** Outside the lock: what the clock says of the outage that was read. */
    method ReadTheClock()
      requires pc.Timing?
      modifies this
      ensures Now() == Step(old(Now()), ReadClock)
      ensures old(Sound()) ==> Sound()
      ensures pc.Waiting? ==> pc.earliestUs > nowUs + (Deadline(pc.snap.startedMs) - nowUs / 1000 - 2 * TICK_MS) * 1000
    {
      ghost var before, sound := Now(), Sound();
      var deadlineMs, nowMs, snap := pc.startedMs + PROMPT_MS, nowUs / 1000, Snapshot(pc.generation, pc.startedMs, nowUs, pc.epoch);
      if nowMs < deadlineMs {
        var ticks := (deadlineMs - nowMs) / TICK_MS;
        WaitBound(nowUs, deadlineMs - nowMs);
        pc := Waiting(snap, if ticks == 0 then nowUs else nowUs + (ticks - 1) * TICK_MS * 1000 + 1);
      } else {
        pc := Deciding(snap);
      }
      if sound {
        StepKeepsInv(before, ReadClock);
      }
    }

    /** The check-and-mark critical section; `submit` is whether the prompt goes out. */
    method CommitPrompt() returns (submit: bool)
      requires pc.Committing?
      modifies this
      ensures Now() == Step(old(Now()), TryCommit)
      ensures submit <==> !old(prompted) && prompted
      ensures old(Sound()) ==> Sound()
      ensures old(Sound()) && submit ==>
                forall i :: 0 <= i < |old(log.commits)| ==> log.commits[i].outage < Current(Now())
    {
      ghost var before, sound := Now(), Sound();
      submit := false;
      if active && !suppressed && !prompted && pc.snap.generation == generation {
        var outage := if log.outages == 0 then 0 else log.outages - 1;
        log := log.(commits := log.commits + [Commit(outage, nowUs, startedMs, pc.snap, log.epoch)]);
        prompted := true;
        submit := true;
      }
      pc := Asleep;
      if sound {
        StepKeepsInv(before, TryCommit);
      }
    }
  }
}
