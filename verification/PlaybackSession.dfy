/** Playback sessions: an owner task per session, a caller that starts, joins, cancels and detaches,
    and one reaper behind a queue of length 1. A step is one access to shared memory; any
    interleaving is a run. Touching a session that was freed sets `faulted`. */
module PlaybackSession {
  import opened Bytes

  /** `playback_session_t`; a fresh one is all zero, so its result reads OK. Its cancel flag is kept
      beside it, in `cancelled`. */
  datatype Session = Session(doneBit: bool, published: bool, result: EspErr)

  /** The owner task: it streams, writes its result, sets the event bit, publishes, suspends. */
  datatype Owner = Working | Decided | Signalled | Published | Suspended

  /** Where a join stands. */
  datatype JoinPc = WaitingDone | WaitingPublished | WaitingSuspended(result: EspErr) | Deleting(result: EspErr)

  datatype Caller =
    | Idle
    | Joining(id: nat, attempt: nat, pc: JoinPc)
    | Cancelling(id: nat)
    | Detaching(id: nat)
    | HandedOver(id: nat)

  datatype Reaper = Resting | Reaping(id: nat, pc: JoinPc) | Retrying(id: nat)

  datatype Slot = Empty | Full(id: nat)

  /** `outcomes`, `joined` and `freed` are histories: the result each owner decided, the result each
      successful join returned, and the sessions in the order they were freed. */
  datatype Memory = Memory(
    next: nat, sessions: map<nat, Session>, owners: map<nat, Owner>,
    outcomes: map<nat, EspErr>, joined: map<nat, EspErr>, freed: seq<nat>)

  datatype State = State(
    mem: Memory, cancelled: set<nat>, caller: Caller, reaper: Reaper, slot: Slot,
    restarted: bool, faulted: bool)

  const BOOTED := State(Memory(0, map[], map[], map[], map[], []), {}, Idle, Resting, Empty, false, false)

  datatype Action = Start(created: bool) | OwnerTurn(id: nat, result: EspErr) | CallerTurn(late: bool) | ReaperTurn(late: bool)

  predicate Enabled(s: State, a: Action) {
    && !s.restarted
    && match a
       case Start(_) => s.caller.Idle?
       case OwnerTurn(id, _) => id in s.mem.owners && !s.mem.owners[id].Suspended?
       case CallerTurn(_) => !s.caller.Idle?
       case ReaperTurn(_) => !(s.reaper.Resting? && s.slot.Empty?)
  }

  /** How one turn of a join ends. */
  datatype Turn = Still(pc: JoinPc) | TimedOut | Freed(result: EspErr)

  /** One turn of a join on a live session with a live task; `late` is whether the deadline that
      applies has passed. The inactivity deadline of the reaper's join never passes. */
  function JoinTurn(session: Session, owner: Owner, pc: JoinPc, late: bool, patient: bool): Turn {
    match pc
    case WaitingDone =>
      if session.doneBit then Still(WaitingPublished) else if late && !patient then TimedOut else Still(pc)
    case WaitingPublished => if session.published then Still(WaitingSuspended(session.result)) else Still(pc)
    case WaitingSuspended(result) =>
      if owner.Suspended? then Still(Deleting(result)) else if late then TimedOut else Still(pc)
    case Deleting(result) => Freed(result)
  }

  /** Deletes the task and frees the session. */
  function Free(m: Memory, id: nat, result: EspErr): Memory {
    m.(sessions := m.sessions - {id}, owners := m.owners - {id}, joined := m.joined[id := result], freed := m.freed + [id])
  }

  function Step(s: State, a: Action): State
    requires Enabled(s, a)
  {
    match a
    case Start(created) =>
      if !created then s
      else s.(mem := Create(s.mem), caller := Joining(s.mem.next, 1, WaitingDone))
    case OwnerTurn(id, result) => OwnerStep(s, id, result)
    case CallerTurn(late) => CallerStep(s, late)
    case ReaperTurn(late) => ReaperStep(s, late)
  }

  function Create(m: Memory): Memory {
    m.(next := m.next + 1, sessions := m.sessions[m.next := Session(false, false, OK)],
       owners := m.owners[m.next := Working])
  }

  function OwnerStep(s: State, id: nat, result: EspErr): State
    requires id in s.mem.owners && !s.mem.owners[id].Suspended?
  {
    if id !in s.mem.sessions then s.(faulted := true) else s.(mem := OwnerMoves(s.mem, id, result))
  }

  function OwnerMoves(m: Memory, id: nat, result: EspErr): Memory
    requires id in m.owners && id in m.sessions && !m.owners[id].Suspended?
  {
    var session := m.sessions[id];
    match m.owners[id]
    case Working =>
      m.(sessions := m.sessions[id := session.(result := result)], owners := m.owners[id := Decided],
         outcomes := m.outcomes[id := result])
    case Decided => m.(sessions := m.sessions[id := session.(doneBit := true)], owners := m.owners[id := Signalled])
    case Signalled => m.(sessions := m.sessions[id := session.(published := true)], owners := m.owners[id := Published])
    case Published => m.(owners := m.owners[id := Suspended])
  }

  function CallerStep(s: State, late: bool): State
    requires !s.caller.Idle?
  {
    match s.caller
    case HandedOver(_) => s.(caller := Idle)
    case Detaching(id) =>
      if s.slot.Full? then s.(restarted := true) else s.(slot := Full(id), caller := HandedOver(id))
    case Cancelling(id) =>
      if id !in s.mem.sessions then s.(faulted := true) else s.(cancelled := s.cancelled + {id}, caller := Joining(id, 2, WaitingDone))
    case Joining(id, attempt, pc) =>
      if id !in s.mem.sessions || id !in s.mem.owners then s.(faulted := true)
      else
        match JoinTurn(s.mem.sessions[id], s.mem.owners[id], pc, late, false)
        case Still(pc') => s.(caller := Joining(id, attempt, pc'))
        case TimedOut =>
          s.(cancelled := if pc.WaitingDone? then s.cancelled + {id} else s.cancelled,
             caller := if attempt == 1 then Cancelling(id) else Detaching(id))
        case Freed(result) => s.(mem := Free(s.mem, id, result), caller := Idle)
  }

  function ReaperStep(s: State, late: bool): State
    requires !(s.reaper.Resting? && s.slot.Empty?)
  {
    match s.reaper
    case Resting => s.(reaper := Reaping(s.slot.id, WaitingDone), slot := Empty)
    case Retrying(id) => s.(reaper := Reaping(id, WaitingDone))
    case Reaping(id, pc) =>
      if id !in s.mem.sessions || id !in s.mem.owners then s.(faulted := true)
      else
        match JoinTurn(s.mem.sessions[id], s.mem.owners[id], pc, late, true)
        case Still(pc') => s.(reaper := Reaping(id, pc'))
        case TimedOut => s.(reaper := Retrying(id))
        case Freed(result) => s.(mem := Free(s.mem, id, result), reaper := Resting)
  }

  function Next(s: State, a: Action): State { if Enabled(s, a) then Step(s, a) else s }

  function Run(s: State, schedule: seq<Action>): State
    decreases |schedule|
  {
    if schedule == [] then s else Run(Next(s, schedule[0]), schedule[1..])
  }

  // ---------------------------------------------------------------- invariants

  /** Which sessions each party holds. The handover happens when the queue takes the pointer, although
      the caller clears its own copy only afterwards. */
  predicate CallerHolds(s: State, id: nat) { !s.caller.Idle? && !s.caller.HandedOver? && s.caller.id == id }

  predicate SlotHolds(s: State, id: nat) { s.slot.Full? && s.slot.id == id }

  predicate ReaperHolds(s: State, id: nat) { !s.reaper.Resting? && s.reaper.id == id }

  function One(b: bool): nat { if b then 1 else 0 }

  function Holders(s: State, id: nat): nat {
    One(CallerHolds(s, id)) + One(SlotHolds(s, id)) + One(ReaperHolds(s, id))
  }

  /** Every live session has exactly one holder, and nothing else is held. */
  ghost predicate OneHolder(s: State) {
    forall id: nat :: Holders(s, id) == One(id in s.mem.sessions)
  }

  ghost predicate OwnerMatches(m: Memory, id: nat)
    requires id in m.sessions && id in m.owners
  {
    var session, o := m.sessions[id], m.owners[id];
    && (session.doneBit <==> o.Signalled? || o.Published? || o.Suspended?)
    && (session.published <==> o.Published? || o.Suspended?)
    && (!o.Working? ==> id in m.outcomes && session.result == m.outcomes[id])
  }

  ghost predicate Matching(m: Memory) {
    m.owners.Keys == m.sessions.Keys && forall id :: id in m.sessions ==> OwnerMatches(m, id)
  }

  ghost predicate JoinMatches(m: Memory, id: nat, pc: JoinPc) {
    && id in m.sessions && id in m.owners
    && (pc.WaitingPublished? ==> m.sessions[id].doneBit)
    && (pc.WaitingSuspended? || pc.Deleting? ==>
          m.sessions[id].published && id in m.outcomes && pc.result == m.outcomes[id])
    && (pc.Deleting? ==> m.owners[id].Suspended?)
  }

  ghost predicate Books(m: Memory) {
    && (forall i, j :: 0 <= i < j < |m.freed| ==> m.freed[i] != m.freed[j])
    && (forall id :: id in m.freed <==> id in m.joined)
    && (forall id :: id in m.joined ==> id in m.outcomes && m.joined[id] == m.outcomes[id])
    && (forall id :: id in m.freed ==> id < m.next && id !in m.sessions)
    && (forall id: nat :: id < m.next ==> id in m.freed || id in m.sessions)
    && (forall id :: id in m.sessions ==> id < m.next)
  }

  ghost predicate Joins(s: State) {
    && (s.caller.Joining? ==> JoinMatches(s.mem, s.caller.id, s.caller.pc))
    && (s.reaper.Reaping? ==> JoinMatches(s.mem, s.reaper.id, s.reaper.pc))
  }

  ghost predicate Inv(s: State) {
    !s.faulted && OneHolder(s) && Matching(s.mem) && Books(s.mem) && Joins(s)
  }

  // The memory, by itself.

  lemma {:induction false} CreateKeepsMemory(m: Memory)
    requires Matching(m) && Books(m)
    ensures Matching(Create(m)) && Books(Create(m))
  {
    assert forall id :: id in m.sessions ==> OwnerMatches(m, id);
  }

  lemma {:induction false} OwnerKeepsMemory(m: Memory, id: nat, result: EspErr)
    requires Matching(m) && Books(m) && id in m.owners && !m.owners[id].Suspended?
    ensures Matching(OwnerMoves(m, id, result)) && Books(OwnerMoves(m, id, result))
  {
    assert forall k :: k in m.sessions ==> OwnerMatches(m, k);
  }

  lemma {:induction false} OwnerKeepsJoin(m: Memory, id: nat, result: EspErr, joined: nat, pc: JoinPc)
    requires Matching(m) && JoinMatches(m, joined, pc) && id in m.owners && !m.owners[id].Suspended?
    ensures JoinMatches(OwnerMoves(m, id, result), joined, pc)
  {
    assert OwnerMatches(m, id);
  }

  /** A session that is freed leaves no trace but the books. */
  lemma {:induction false} FreeKeepsBooks(m: Memory, id: nat, result: EspErr)
    requires Books(m) && id in m.sessions && id in m.outcomes && m.outcomes[id] == result
    ensures Books(Free(m, id, result))
  {
    var n := Free(m, id, result);
    assert n.freed[|m.freed|] == id;
    assert forall k :: k in n.freed <==> k in m.freed || k == id;
  }

  lemma {:induction false} FreeKeepsMatching(m: Memory, id: nat, result: EspErr)
    requires Matching(m)
    ensures Matching(Free(m, id, result))
  {
    assert forall k :: k in m.sessions ==> OwnerMatches(m, k);
  }

  lemma {:induction false} JoinTurnMatches(m: Memory, id: nat, pc: JoinPc, late: bool, patient: bool)
    requires Matching(m) && JoinMatches(m, id, pc)
    ensures match JoinTurn(m.sessions[id], m.owners[id], pc, late, patient)
      case Still(pc') => JoinMatches(m, id, pc')
      case TimedOut => true
      case Freed(result) => pc.Deleting? && id in m.outcomes && result == m.outcomes[id]
  {
    assert OwnerMatches(m, id);
  }

  // The parties.

  lemma {:induction false} HoldersFrame(s: State, t: State)
    requires OneHolder(s) && t.mem.sessions.Keys == s.mem.sessions.Keys
    requires forall id: nat :: Holders(t, id) == Holders(s, id)
    ensures OneHolder(t)
  {
    forall id: nat
      ensures Holders(t, id) == One(id in t.mem.sessions)
    {
      assert Holders(s, id) == One(id in s.mem.sessions);
    }
  }

  lemma {:induction false} StartKeepsInv(s: State, created: bool)
    requires Inv(s) && Enabled(s, Start(created))
    ensures Inv(Step(s, Start(created)))
  {
    var t := Step(s, Start(created));
    CreateKeepsMemory(s.mem);
    assert Holders(s, s.mem.next) == 0;
    forall id: nat
      ensures created ==> Holders(t, id) == One(id in t.mem.sessions)
    {
      assert Holders(s, id) == One(id in s.mem.sessions);
    }
  }

  lemma {:induction false} OwnerKeepsInv(s: State, id: nat, result: EspErr)
    requires Inv(s) && Enabled(s, OwnerTurn(id, result))
    ensures Inv(Step(s, OwnerTurn(id, result)))
  {
    var t := Step(s, OwnerTurn(id, result));
    OwnerKeepsMemory(s.mem, id, result);
    HoldersFrame(s, t);
    if s.caller.Joining? {
      OwnerKeepsJoin(s.mem, id, result, s.caller.id, s.caller.pc);
    }
    if s.reaper.Reaping? {
      OwnerKeepsJoin(s.mem, id, result, s.reaper.id, s.reaper.pc);
    }
  }

  /** A freed session loses its one holder. */
  lemma {:induction false} HoldersAfterFree(s: State, t: State, id: nat, result: EspErr)
    requires OneHolder(s) && t.mem == Free(s.mem, id, result)
    requires forall k: nat :: k != id ==> Holders(t, k) == Holders(s, k)
    requires Holders(t, id) == 0
    ensures OneHolder(t)
  {
    forall k: nat
      ensures Holders(t, k) == One(k in t.mem.sessions)
    {
      assert Holders(s, k) == One(k in s.mem.sessions);
    }
  }

  lemma {:induction false} CallerKeepsInv(s: State, late: bool)
    requires Inv(s) && Enabled(s, CallerTurn(late))
    ensures Inv(CallerStep(s, late))
  {
    var t := CallerStep(s, late);
    assert !s.caller.HandedOver? ==> Holders(s, s.caller.id) == One(s.caller.id in s.mem.sessions);
    if s.caller.Joining? {
      var id, pc := s.caller.id, s.caller.pc;
      JoinTurnMatches(s.mem, id, pc, late, false);
      if pc.Deleting? {
        FreeKeepsBooks(s.mem, id, pc.result);
        FreeKeepsMatching(s.mem, id, pc.result);
        HoldersAfterFree(s, t, id, pc.result);
      } else {
        HoldersFrame(s, t);
      }
    } else {
      HoldersFrame(s, t);
    }
  }

  lemma {:induction false} ReaperFreesWell(s: State, late: bool)
    requires Inv(s) && s.reaper.Reaping? && s.reaper.pc.Deleting?
    ensures Inv(ReaperStep(s, late))
  {
    var t, id, result := ReaperStep(s, late), s.reaper.id, s.reaper.pc.result;
    assert Holders(s, id) == One(id in s.mem.sessions);
    FreeKeepsBooks(s.mem, id, result);
    FreeKeepsMatching(s.mem, id, result);
    HoldersAfterFree(s, t, id, result);
  }

  lemma {:induction false} ReaperKeepsInv(s: State, late: bool)
    requires Inv(s) && Enabled(s, ReaperTurn(late))
    ensures Inv(ReaperStep(s, late))
  {
    if s.reaper.Reaping? {
      if s.reaper.pc.Deleting? {
        ReaperFreesWell(s, late);
      } else {
        JoinTurnMatches(s.mem, s.reaper.id, s.reaper.pc, late, true);
        HoldersFrame(s, ReaperStep(s, late));
      }
    } else {
      var id := if s.reaper.Resting? then s.slot.id else s.reaper.id;
      assert Holders(s, id) == One(id in s.mem.sessions);
      HoldersFrame(s, ReaperStep(s, late));
    }
  }

  lemma {:induction false} StepKeepsInv(s: State, a: Action)
    requires Inv(s) && Enabled(s, a)
    ensures Inv(Step(s, a))
  {
    match a
    case Start(created) => StartKeepsInv(s, created);
    case OwnerTurn(id, result) => OwnerKeepsInv(s, id, result);
    case CallerTurn(late) => CallerKeepsInv(s, late);
    case ReaperTurn(late) => ReaperKeepsInv(s, late);
  }

  lemma {:induction false} RunKeepsInv(s: State, schedule: seq<Action>)
    requires Inv(s)
    ensures Inv(Run(s, schedule))
    decreases |schedule|
  {
    if schedule != [] {
      if Enabled(s, schedule[0]) {
        StepKeepsInv(s, schedule[0]);
      }
      RunKeepsInv(Next(s, schedule[0]), schedule[1..]);
    }
  }

  lemma {:induction false} BootedInv()
    ensures Inv(BOOTED)
  {
    assert forall id: nat :: Holders(BOOTED, id) == 0;
  }

  /** In every interleaving: no party ever touches a freed session; every session that was started is
      either live with exactly one holder, or freed exactly once; and what its successful join
      returned is the result its owner decided. */
  lemma {:induction false} OwnershipIsSound(schedule: seq<Action>)
    ensures var s := Run(BOOTED, schedule);
      && !s.faulted
      && (forall id: nat :: Holders(s, id) == One(id in s.mem.sessions))
      && (forall id: nat :: id < s.mem.next ==> (id in s.mem.sessions <==> id !in s.mem.freed))
      && (forall i, j :: 0 <= i < j < |s.mem.freed| ==> s.mem.freed[i] != s.mem.freed[j])
      && (forall id :: id in s.mem.freed ==> id in s.mem.joined && id in s.mem.outcomes && s.mem.joined[id] == s.mem.outcomes[id])
  {
    BootedInv();
    RunKeepsInv(BOOTED, schedule);
  }

  lemma {:induction false} CallerFreesOnlyTheDeleted(s: State, late: bool, id: nat)
    requires !s.caller.Idle? && id in s.mem.sessions && id !in CallerStep(s, late).mem.sessions
    ensures CallerStep(s, late).mem.freed == s.mem.freed + [id]
    ensures s.caller.Joining? && s.caller.id == id && s.caller.pc.Deleting?
  {
  }

  lemma {:induction false} ReaperFreesOnlyTheDeleted(s: State, late: bool, id: nat)
    requires Enabled(s, ReaperTurn(late)) && id in s.mem.sessions && id !in ReaperStep(s, late).mem.sessions
    ensures ReaperStep(s, late).mem.freed == s.mem.freed + [id]
    ensures s.reaper.Reaping? && s.reaper.id == id && s.reaper.pc.Deleting?
  {
  }

  lemma {:induction false} OthersFreeNothing(s: State, a: Action, id: nat)
    requires Enabled(s, a) && id in s.mem.sessions && (a.Start? || a.OwnerTurn?)
    ensures id in Step(s, a).mem.sessions
  {
  }

  /** A step frees a session only after its owner published and suspended, and only while that
      session's one holder is the party that frees it. */
  lemma {:induction false} FreedOnlyAfterSuspended(schedule: seq<Action>, a: Action, id: nat)
    requires id in Run(BOOTED, schedule).mem.sessions && id !in Next(Run(BOOTED, schedule), a).mem.sessions
    ensures var s := Run(BOOTED, schedule);
      && id in s.mem.owners && s.mem.owners[id].Suspended? && s.mem.sessions[id].published
      && Next(s, a).mem.freed == s.mem.freed + [id]
      && (if a.CallerTurn? then CallerHolds(s, id) else a.ReaperTurn? && ReaperHolds(s, id))
  {
    BootedInv();
    RunKeepsInv(BOOTED, schedule);
    var s := Run(BOOTED, schedule);
    match a
    case CallerTurn(late) => CallerFreesOnlyTheDeleted(s, late, id);
    case ReaperTurn(late) => ReaperFreesOnlyTheDeleted(s, late, id);
    case _ => OthersFreeNothing(s, a, id);
  }

  // ---------------------------------------------------------------- who is cancelled

  /** A caller's join on the session passes its deadline here: nothing has come, or the owner is not
      suspended. */
  predicate TimesOut(s: State, a: Action, id: nat) {
    && Enabled(s, a) && a == CallerTurn(true) && s.caller.Joining? && s.caller.id == id
    && id in s.mem.sessions && id in s.mem.owners
    && match s.caller.pc
       case WaitingDone => !s.mem.sessions[id].doneBit
       case WaitingSuspended(_) => !s.mem.owners[id].Suspended?
       case _ => false
  }

  ghost predicate TimedOutAt(schedule: seq<Action>, id: nat, k: nat) {
    k < |schedule| && TimesOut(Run(BOOTED, schedule[..k]), schedule[k], id)
  }

  ghost predicate Expired(schedule: seq<Action>, id: nat) { exists k :: TimedOutAt(schedule, id, k) }

  lemma {:induction false} RunSnoc(s: State, schedule: seq<Action>, a: Action)
    ensures Run(s, schedule + [a]) == Next(Run(s, schedule), a)
    decreases |schedule|
  {
    if schedule == [] {
      assert ([] + [a])[1..] == [] && Run(Next(s, a), []) == Next(s, a);
    } else {
      assert (schedule + [a])[1..] == schedule[1..] + [a];
      RunSnoc(Next(s, schedule[0]), schedule[1..], a);
    }
  }

  lemma {:induction false} OneTurnLater(schedule: seq<Action>, a: Action, id: nat)
    ensures Expired(schedule + [a], id) <==> Expired(schedule, id) || TimesOut(Run(BOOTED, schedule), a, id)
  {
    var more := schedule + [a];
    assert forall k :: 0 <= k <= |schedule| ==> more[..k] == schedule[..k];
    assert schedule[..|schedule|] == schedule;
    if TimesOut(Run(BOOTED, schedule), a, id) {
      assert TimedOutAt(more, id, |schedule|);
    }
    if Expired(schedule, id) {
      var k: nat :| TimedOutAt(schedule, id, k);
      assert TimedOutAt(more, id, k);
    }
    if Expired(more, id) {
      var k: nat :| TimedOutAt(more, id, k);
      assert k < |schedule| ==> TimedOutAt(schedule, id, k);
    }
  }

  /** The session is in the caller's second join, being detached, in the queue or with the reaper. */
  predicate PastFirstJoin(s: State, id: nat) {
    || s.caller == Detaching(id) || s.caller == HandedOver(id)
    || (s.caller.Joining? && s.caller.id == id && s.caller.attempt != 1)
    || SlotHolds(s, id) || ReaperHolds(s, id)
  }

  ghost predicate CancelsHold(s: State) { forall id: nat :: PastFirstJoin(s, id) ==> id in s.cancelled }

  lemma {:induction false} StepKeepsCancels(s: State, a: Action)
    requires Inv(s) && CancelsHold(s)
    ensures CancelsHold(Next(s, a))
  {
    var t := Next(s, a);
    forall id: nat | PastFirstJoin(t, id)
      ensures id in t.cancelled
    {
      assert PastFirstJoin(s, id) ==> id in s.cancelled;
      if s.caller.Joining? || s.caller.Detaching? {
        assert PastFirstJoin(s, s.caller.id) ==> s.caller.id in s.cancelled;
      }
      if s.slot.Full? {
        assert SlotHolds(s, s.slot.id);
      }
    }
  }

  lemma {:induction false} RunKeepsCancels(s: State, schedule: seq<Action>)
    requires Inv(s) && CancelsHold(s)
    ensures CancelsHold(Run(s, schedule))
    decreases |schedule|
  {
    if schedule != [] {
      if Enabled(s, schedule[0]) {
        StepKeepsInv(s, schedule[0]);
      }
      StepKeepsCancels(s, schedule[0]);
      RunKeepsCancels(Next(s, schedule[0]), schedule[1..]);
    }
  }

  /** The flag of a session is set, or is the next thing the caller sets. */
  predicate CancelDue(s: State, id: nat) { id in s.cancelled || s.caller == Cancelling(id) }

  lemma {:induction false} StepCancelsIff(s: State, a: Action, id: nat)
    requires Inv(s) && CancelsHold(s)
    ensures CancelDue(Next(s, a), id) <==> CancelDue(s, id) || TimesOut(s, a, id)
  {
    if Enabled(s, a) && s.caller.Joining? && a.CallerTurn? {
      assert Holders(s, s.caller.id) == One(s.caller.id in s.mem.sessions);
      assert PastFirstJoin(s, s.caller.id) ==> s.caller.id in s.cancelled;
    } else if s.caller.Cancelling? {
      assert Holders(s, s.caller.id) == One(s.caller.id in s.mem.sessions);
    }
  }

  /** Which sessions are cancelled: in every run exactly those on which a join of the caller timed out;
      the flag is set at once or is the next thing the caller sets. */
  lemma {:induction false} CancelledIffTimedOut(schedule: seq<Action>, id: nat)
    ensures CancelDue(Run(BOOTED, schedule), id) <==> Expired(schedule, id)
    decreases |schedule|
  {
    if schedule == [] {
      assert Run(BOOTED, schedule) == BOOTED;
    } else {
      var n := |schedule| - 1;
      var shorter, a := schedule[..n], schedule[n];
      assert schedule == shorter + [a];
      CancelledIffTimedOut(shorter, id);
      OneTurnLater(shorter, a, id);
      RunSnoc(BOOTED, shorter, a);
      BootedInv();
      RunKeepsInv(BOOTED, shorter);
      RunKeepsCancels(BOOTED, shorter);
      StepCancelsIff(Run(BOOTED, shorter), a, id);
    }
  }

  /** No playback outlives its caller uncancelled: in every run a session in its second join, being
      detached, in the queue or with the reaper has its cancel flag set; and a join that times out
      waiting for the end of the playback sets it at once. */
  lemma {:induction false} HandedOverIsCancelled(schedule: seq<Action>, id: nat)
    ensures var s := Run(BOOTED, schedule);
      && (PastFirstJoin(s, id) ==> id in s.cancelled)
      && (TimesOut(s, CallerTurn(true), id) && s.caller.pc.WaitingDone? ==> id in Next(s, CallerTurn(true)).cancelled)
  {
    BootedInv();
    RunKeepsCancels(BOOTED, schedule);
  }

  // ---------------------------------------------------------------- how long a session is waited for

  /** How far the caller is with a session: not created, first join, cancelling, second join, done with it. */
  function CallerStage(s: State, id: nat): nat {
    if id >= s.mem.next then 0
    else if s.caller == Cancelling(id) then 2
    else if s.caller.Joining? && s.caller.id == id then if s.caller.attempt == 1 then 1 else 3
    else 4
  }

  lemma {:induction false} StageAdvances(s: State, a: Action, id: nat)
    requires Inv(s)
    ensures CallerStage(Next(s, a), id) >= CallerStage(s, id)
    ensures TimesOut(s, a, id) ==> CallerStage(Next(s, a), id) > CallerStage(s, id) && CallerStage(s, id) in {1, 3}
  {
    if Enabled(s, a) && (s.caller.Joining? || s.caller.Cancelling?) {
      assert Holders(s, s.caller.id) == One(s.caller.id in s.mem.sessions);
    }
  }

  lemma {:induction false} StageAdvancesInRuns(s: State, schedule: seq<Action>, id: nat)
    requires Inv(s)
    ensures CallerStage(Run(s, schedule), id) >= CallerStage(s, id)
    decreases |schedule|
  {
    if schedule != [] {
      StageAdvances(s, schedule[0], id);
      if Enabled(s, schedule[0]) {
        StepKeepsInv(s, schedule[0]);
      }
      StageAdvancesInRuns(Next(s, schedule[0]), schedule[1..], id);
    }
  }

  lemma {:induction false} RunAppend(s: State, a: seq<Action>, b: seq<Action>)
    ensures Run(s, a + b) == Run(Run(s, a), b)
    decreases |a|
  {
    if a == [] {
      assert a + b == b;
    } else {
      assert (a + b)[1..] == a[1..] + b;
      RunAppend(Next(s, a[0]), a[1..], b);
    }
  }

  /** Between two moments of a run at which a session's join expires, the caller moves on with it. */
  lemma {:induction false} StageBetween(schedule: seq<Action>, id: nat, i: nat, j: nat)
    requires TimedOutAt(schedule, id, i) && i < j <= |schedule|
    ensures CallerStage(Run(BOOTED, schedule[..j]), id) > CallerStage(Run(BOOTED, schedule[..i]), id)
    ensures CallerStage(Run(BOOTED, schedule[..i]), id) in {1, 3}
  {
    var s := Run(BOOTED, schedule[..i]);
    BootedInv();
    RunKeepsInv(BOOTED, schedule[..i]);
    StageAdvances(s, schedule[i], id);
    StepKeepsInv(s, schedule[i]);
    assert schedule[..i + 1] == schedule[..i] + [schedule[i]];
    RunSnoc(BOOTED, schedule[..i], schedule[i]);
    assert schedule[..j] == schedule[..i + 1] + schedule[i + 1..j];
    RunAppend(BOOTED, schedule[..i + 1], schedule[i + 1..j]);
    StageAdvancesInRuns(Step(s, schedule[i]), schedule[i + 1..j], id);
  }

  /** The caller waits through at most two deadlines for a session: after the second one it lets go. */
  lemma {:induction false} NoThirdDeadline(schedule: seq<Action>, id: nat, i: nat, j: nat)
    requires i < j && TimedOutAt(schedule, id, i) && TimedOutAt(schedule, id, j)
    ensures forall k :: j < k ==> !TimedOutAt(schedule, id, k)
    ensures !CallerHolds(Run(BOOTED, schedule), id) || Run(BOOTED, schedule).caller == Detaching(id)
  {
    StageBetween(schedule, id, i, j);
    forall k | j < k && TimedOutAt(schedule, id, k)
      ensures false
    {
      StageBetween(schedule, id, j, k);
      StageBetween(schedule, id, k, k + 1);
    }
    StageBetween(schedule, id, j, |schedule|);
    assert schedule[..|schedule|] == schedule;
  }

  /** The reaper has all the time an owner may still stream: it gives up a round only on an owner that
      has published and is slow to suspend. */
  lemma {:induction false} ReaperWaitsForTheEnd(schedule: seq<Action>, late: bool)
    requires var s := Run(BOOTED, schedule); Enabled(s, ReaperTurn(late)) && s.reaper.Reaping?
    ensures var s := Run(BOOTED, schedule);
      var id := s.reaper.id;
      && id in s.mem.sessions && id in s.mem.owners
      && (Next(s, ReaperTurn(late)).reaper == Retrying(id) <==>
            late && s.reaper.pc.WaitingSuspended? && s.mem.owners[id] == Published)
      && (s.mem.owners[id] in {Working, Decided} ==>
            Next(s, ReaperTurn(late)).reaper in {Reaping(id, WaitingDone)})
  {
    BootedInv();
    RunKeepsInv(BOOTED, schedule);
    var s := Run(BOOTED, schedule);
    assert Holders(s, s.reaper.id) == One(s.reaper.id in s.mem.sessions);
    assert OwnerMatches(s.mem, s.reaper.id);
  }

  // ---------------------------------------------------------------- the shared memory

  /** The sessions, the tasks, the queue slot and the two parties' variables, changed in place; one
      method per access. */
  class PlaybackMemory {
    var next: nat
    var sessions: map<nat, Session>
    var owners: map<nat, Owner>
    var caller: Caller
    var reaper: Reaper
    var slot: Slot
    var cancelled: set<nat>
    var restarted: bool
    ghost var outcomes: map<nat, EspErr>
    ghost var joined: map<nat, EspErr>
    ghost var freed: seq<nat>

    ghost function Now(): State
      reads this
    {
      State(Memory(next, sessions, owners, outcomes, joined, freed), cancelled, caller, reaper, slot, restarted, false)
    }

    constructor ()
      ensures Now() == BOOTED
    {
      next, sessions, owners, caller, reaper, slot, restarted := 0, map[], map[], Idle, Resting, Empty, false;
      cancelled, outcomes, joined, freed := {}, map[], map[], [];
    }

    /** `playback_session_start`, which can fail to allocate or to create its task. */
    method StartSession(created: bool) returns (err: EspErr)
      requires Inv(Now()) && Enabled(Now(), Start(created))
      modifies this
      ensures Now() == Step(old(Now()), Start(created)) && (err == OK <==> created)
    {
      if !created {
        return NoMem;
      }
      sessions := sessions[next := Session(false, false, OK)];
      owners := owners[next := Working];
      caller := Joining(next, 1, WaitingDone);
      next := next + 1;
      return OK;
    }

    method RunOwner(id: nat, result: EspErr)
      requires Inv(Now()) && Enabled(Now(), OwnerTurn(id, result))
      modifies this
      ensures Now() == Step(old(Now()), OwnerTurn(id, result))
    {
      var session := sessions[id];
      match owners[id] {
        case Working =>
          sessions := sessions[id := session.(result := result)];
          outcomes := outcomes[id := result];
          owners := owners[id := Decided];
        case Decided =>
          sessions := sessions[id := session.(doneBit := true)];
          owners := owners[id := Signalled];
        case Signalled =>
          sessions := sessions[id := session.(published := true)];
          owners := owners[id := Published];
        case Published =>
          owners := owners[id := Suspended];
      }
    }

    method RequestCancel(id: nat)
      requires id in sessions
      modifies this`cancelled
      ensures cancelled == old(cancelled) + {id}
    {
      cancelled := cancelled + {id};
    }

    method DeleteAndFree(id: nat, result: EspErr)
      requires id in sessions && id in owners
      modifies this`sessions, this`owners, this`joined, this`freed
      ensures Now().mem == Free(old(Now()).mem, id, result)
    {
      owners := owners - {id};
      sessions := sessions - {id};
      joined := joined[id := result];
      freed := freed + [id];
    }

    /** One turn of `playback_session_join`'s loops. */
    method PollJoin(id: nat, pc: JoinPc, late: bool, patient: bool) returns (turn: Turn)
      requires id in sessions && id in owners
      ensures turn == JoinTurn(sessions[id], owners[id], pc, late, patient)
    {
      match pc {
        case WaitingDone =>
          if sessions[id].doneBit {
            return Still(WaitingPublished);
          }
          if !patient && late {
            return TimedOut;
          }
          return Still(pc);
        case WaitingPublished =>
          if !sessions[id].published {
            return Still(pc);
          }
          return Still(WaitingSuspended(sessions[id].result));
        case WaitingSuspended(result) =>
          if owners[id] == Suspended {
            return Still(Deleting(result));
          }
          return if late then TimedOut else Still(pc);
        case Deleting(result) =>
          return Freed(result);
      }
    }

    /** One turn of the conversation task: join, cancel, join again, then hand over. */
    method RunCaller(late: bool)
      requires Inv(Now()) && Enabled(Now(), CallerTurn(late))
      modifies this
      ensures Now() == Step(old(Now()), CallerTurn(late))
    {
      HolderIsLive(Now());
      match caller {
        case HandedOver(_) =>
          caller := Idle;
        case Detaching(id) =>
          if slot.Full? {
            restarted := true;
          } else {
            slot := Full(id);
            caller := HandedOver(id);
          }
        case Cancelling(id) =>
          RequestCancel(id);
          caller := Joining(id, 2, WaitingDone);
        case Joining(id, attempt, pc) =>
          var turn := PollJoin(id, pc, late, false);
          match turn {
            case Still(pc') =>
              caller := Joining(id, attempt, pc');
            case TimedOut =>
              if pc.WaitingDone? {
                RequestCancel(id);
              }
              caller := if attempt == 1 then Cancelling(id) else Detaching(id);
            case Freed(result) =>
              DeleteAndFree(id, result);
              caller := Idle;
          }
      }
    }

    method RunReaper(late: bool)
      requires Inv(Now()) && Enabled(Now(), ReaperTurn(late))
      modifies this
      ensures Now() == Step(old(Now()), ReaperTurn(late))
    {
      match reaper {
        case Resting =>
          reaper := Reaping(slot.id, WaitingDone);
          slot := Empty;
        case Retrying(id) =>
          reaper := Reaping(id, WaitingDone);
        case Reaping(id, pc) =>
          var turn := PollJoin(id, pc, late, true);
          match turn {
            case Still(pc') =>
              reaper := Reaping(id, pc');
            case TimedOut =>
              reaper := Retrying(id);
            case Freed(result) =>
              DeleteAndFree(id, result);
              reaper := Resting;
          }
      }
    }
  }

  lemma {:induction false} HolderIsLive(s: State)
    requires Inv(s)
    ensures !s.caller.Idle? && !s.caller.HandedOver? ==> s.caller.id in s.mem.sessions
  {
    if !s.caller.Idle? && !s.caller.HandedOver? {
      assert Holders(s, s.caller.id) == One(s.caller.id in s.mem.sessions);
    }
  }
}
