/** The conversation controller: a per-event state machine, its whole-run guarantees, and the
    pipeline loop that drives it. */
module Conversation {
  import opened Bytes

  type uint8 = x: int | 0 <= x < 256
  type uint16 = x: int | 0 <= x < 0x1_0000

  const INITIAL_SPEECH_TIMEOUT_MS := 5000
  const FOLLOWUP_START_TIMEOUT_MS := 10000
  const SPEECH_TAIL_MS := 700
  const FINAL_DONE_DELAY_MS := 1000
  const DEFAULT_MAX_TURNS: uint8 := 4
  const GAME_MAX_TURNS: uint8 := 10

  datatype State =
    | Idle | Prompting | Recording | WaitingResult | Playing
    | FollowupCue | FollowupWindow | Reprompt | Ending | Failed

  datatype Event =
    | Begin | PromptDone | SpeechStarted | SpeechTimeout | RecordingDone
    | TurnResult | AsrEmpty | PlaybackDone | TechnicalError | Timer

  datatype Action =
    | None | OpenAndPrompt | StartRecording | SubmitTurn | PlayAnswer | PlayFollowupCue
    | ListenFollowup | PlayReprompt | PlayDone | PlayTechnicalError | Close

  datatype Control = Control(
    state: State,
    turnIndex: uint8,
    followupCount: uint8,
    maxTurns: uint8,
    attemptSerial: uint16,
    repromptUsed: bool,
    doneIssued: bool,
    deadlineMs: int)

  const INITIAL := Control(Idle, 0, 0, DEFAULT_MAX_TURNS, 0, false, false, 0)

  /** The specification of one event: the new controller and the action it asks for. */
  function Next(c: Control, e: Event, now: int): (Control, Action) {
    match (c.state, e)
    case (_, TechnicalError) => (c.(state := Failed, deadlineMs := 0), PlayTechnicalError)
    case (Idle, Begin) => (c.(state := Prompting), OpenAndPrompt)
    case (Prompting, PromptDone) => (Listening(c, now), StartRecording)
    case (Reprompt, PromptDone) => (Listening(c, now), StartRecording)
    case (Recording, RecordingDone) =>
      (c.(state := WaitingResult, deadlineMs := 0, attemptSerial := (c.attemptSerial + 1) % 0x1_0000), SubmitTurn)
    case (Recording, SpeechTimeout) => Unheard(c)
    case (WaitingResult, AsrEmpty) => Unheard(c)
    case (WaitingResult, TurnResult) =>
      (c.(state := Playing,
          followupCount := if c.turnIndex > c.followupCount then c.turnIndex else c.followupCount), PlayAnswer)
    case (Playing, PlaybackDone) =>
      if (c.followupCount + 1) % 256 >= c.maxTurns
      then (c.(state := Ending, deadlineMs := now + FINAL_DONE_DELAY_MS), None)
      else (c.(state := FollowupCue, deadlineMs := 0), PlayFollowupCue)
    case (FollowupCue, PromptDone) =>
      (c.(state := FollowupWindow, deadlineMs := now + FOLLOWUP_START_TIMEOUT_MS), ListenFollowup)
    case (FollowupWindow, SpeechStarted) =>
      (c.(state := Recording, turnIndex := (c.followupCount + 1) % 256, repromptUsed := false,
          deadlineMs := now + SPEECH_TAIL_MS), StartRecording)
    case (FollowupWindow, SpeechTimeout) => (WindingDown(c, now), None)
    case (FollowupWindow, Timer) => if now >= c.deadlineMs then (WindingDown(c, now), None) else (c, None)
    case (Ending, Timer) =>
      if !c.doneIssued && now >= c.deadlineMs then (c.(doneIssued := true), PlayDone) else (c, None)
    case (Ending, PromptDone) => (c.(state := Idle), Close)
    case (Failed, PromptDone) => (c.(state := Idle), Close)
    case _ => (c, None)
  }

  function Listening(c: Control, now: int): Control {
    c.(state := Recording, deadlineMs := now + INITIAL_SPEECH_TIMEOUT_MS)
  }

  function WindingDown(c: Control, now: int): Control {
    c.(state := Ending, doneIssued := false, deadlineMs := now + FINAL_DONE_DELAY_MS)
  }

  function Unheard(c: Control): (Control, Action) {
    if !c.repromptUsed then (c.(repromptUsed := true, state := Reprompt), PlayReprompt)
    else (c.(state := Ending, doneIssued := true), PlayDone)
  }

  function WithMaxTurns(c: Control, m: uint8): Control {
    c.(maxTurns := if m < 1 || m > GAME_MAX_TURNS then DEFAULT_MAX_TURNS else m)
  }

  class ConversationController {
    var state: State
    var turnIndex: uint8
    var followupCount: uint8
    var maxTurns: uint8
    var attemptSerial: uint16
    var repromptUsed: bool
    var doneIssued: bool
    var deadlineMs: int

    function Value(): Control
      reads this
    {
      Control(state, turnIndex, followupCount, maxTurns, attemptSerial, repromptUsed, doneIssued, deadlineMs)
    }

    constructor ()
      ensures Value() == INITIAL
    {
      state, turnIndex, followupCount, maxTurns, attemptSerial := Idle, 0, 0, DEFAULT_MAX_TURNS, 0;
      repromptUsed, doneIssued, deadlineMs := false, false, 0;
    }

    method SetMaxTurns(m: uint8)
      modifies this
      ensures Value() == WithMaxTurns(old(Value()), m) && 1 <= maxTurns <= GAME_MAX_TURNS
      ensures maxTurns == if 1 <= m <= 10 then m else 4
      ensures old(Sound(Value())) ==> Sound(Value())
    {
      if m < 1 || m > GAME_MAX_TURNS {
        maxTurns := DEFAULT_MAX_TURNS;
        return;
      }
      maxTurns := m;
    }

    method Handle(event: Event, nowMs: int) returns (action: Action)
      modifies this
      ensures (Value(), action) == Next(old(Value()), event, nowMs)
    {
      if event == TechnicalError {
        state, deadlineMs := Failed, 0;
        return PlayTechnicalError;
      }
      match state {
        case Idle =>
          if event == Begin {
            state := Prompting;
            return OpenAndPrompt;
          }
        case Prompting | Reprompt =>
          if event == PromptDone {
            state, deadlineMs := Recording, nowMs + INITIAL_SPEECH_TIMEOUT_MS;
            return StartRecording;
          }
        case Recording =>
          if event == RecordingDone {
            state, deadlineMs := WaitingResult, 0;
            attemptSerial := (attemptSerial + 1) % 0x1_0000;
            return SubmitTurn;
          }
          if event == SpeechTimeout {
            action := AskAgainOrEnd();
            return;
          }
        case WaitingResult =>
          if event == TurnResult {
            if turnIndex > followupCount {
              followupCount := turnIndex;
            }
            state := Playing;
            return PlayAnswer;
          }
          if event == AsrEmpty {
            action := AskAgainOrEnd();
            return;
          }
        case Playing =>
          if event == PlaybackDone {
            if (followupCount + 1) % 256 >= maxTurns {
              state, deadlineMs := Ending, nowMs + FINAL_DONE_DELAY_MS;
              return None;
            }
            state, deadlineMs := FollowupCue, 0;
            return PlayFollowupCue;
          }
        case FollowupCue =>
          if event == PromptDone {
            state, deadlineMs := FollowupWindow, nowMs + FOLLOWUP_START_TIMEOUT_MS;
            return ListenFollowup;
          }
        case FollowupWindow =>
          if event == SpeechStarted {
            turnIndex, repromptUsed := (followupCount + 1) % 256, false;
            state, deadlineMs := Recording, nowMs + SPEECH_TAIL_MS;
            return StartRecording;
          }
          if event == SpeechTimeout || (event == Timer && nowMs >= deadlineMs) {
            state, doneIssued, deadlineMs := Ending, false, nowMs + FINAL_DONE_DELAY_MS;
            return None;
          }
        case Ending =>
          if event == Timer && !doneIssued && nowMs >= deadlineMs {
            doneIssued := true;
            return PlayDone;
          }
          if event == PromptDone {
            state := Idle;
            return Close;
          }
        case Failed =>
          if event == PromptDone {
            state := Idle;
            return Close;
          }
      }
      return None;
    }

    method AskAgainOrEnd() returns (action: Action)
      modifies this
      ensures (Value(), action) == Unheard(old(Value()))
    {
      if !repromptUsed {
        repromptUsed, state := true, Reprompt;
        return PlayReprompt;
      }
      state, doneIssued := Ending, true;
      return PlayDone;
    }
  }

  // ---------------------------------------------------------------- the events read by their outcome

  /** Nobody was heard, or nothing was understood. */
  predicate Unanswered(c: Control, e: Event) {
    (c.state == Recording && e == SpeechTimeout) || (c.state == WaitingResult && e == AsrEmpty)
  }

  /** When each action is asked for. */
  lemma WhenAsked(c: Control, e: Event, now: int)
    requires c.followupCount < 255
    ensures var a := Next(c, e, now).1;
            && (a == OpenAndPrompt <==> c.state == Idle && e == Begin)
            && (a == StartRecording <==>
                  || (c.state in {Prompting, Reprompt} && e == PromptDone)
                  || (c.state == FollowupWindow && e == SpeechStarted))
            && (a == SubmitTurn <==> c.state == Recording && e == RecordingDone)
            && (a == PlayAnswer <==> c.state == WaitingResult && e == TurnResult)
            && (a == PlayFollowupCue <==> c.state == Playing && e == PlaybackDone && c.followupCount + 1 < c.maxTurns)
            && (a == ListenFollowup <==> c.state == FollowupCue && e == PromptDone)
            && (a == PlayReprompt <==> Unanswered(c, e) && !c.repromptUsed)
            && (a == PlayDone <==>
                  || (Unanswered(c, e) && c.repromptUsed)
                  || (c.state == Ending && e == Timer && !c.doneIssued && now >= c.deadlineMs))
            && (a == PlayTechnicalError <==> e == TechnicalError)
            && (a == Close <==> c.state in {Ending, Failed} && e == PromptDone)
  {
  }

  /** The conversation winds down without an action yet: no turn is left, or nobody took it up. */
  predicate WindsDown(c: Control, e: Event, now: int) {
    || (c.state == Playing && e == PlaybackDone && c.followupCount + 1 >= c.maxTurns)
    || (c.state == FollowupWindow && (e == SpeechTimeout || (e == Timer && now >= c.deadlineMs)))
  }

  /** The state an action leads to; without one nothing moves unless the conversation winds down. */
  lemma WhereItLeads(c: Control, e: Event, now: int)
    requires c.followupCount < 255
    ensures var (d, a) := Next(c, e, now);
            match a
            case OpenAndPrompt => d.state == Prompting
            case StartRecording => d.state == Recording
            case SubmitTurn => d.state == WaitingResult
            case PlayAnswer => d.state == Playing
            case PlayFollowupCue => d.state == FollowupCue
            case ListenFollowup => d.state == FollowupWindow
            case PlayReprompt => d.state == Reprompt
            case PlayDone => d.state == Ending
            case PlayTechnicalError => d.state == Failed
            case Close => d.state == Idle
            case None => if WindsDown(c, e, now) then d.state == Ending && !(c.state == FollowupWindow && d.doneIssued) else d == c
  {
  }

  /** What an event does to the counters and the flags. */
  lemma WhatItCounts(c: Control, e: Event, now: int)
    requires c.followupCount < 255
    ensures var (d, a) := Next(c, e, now);
            && d.maxTurns == c.maxTurns
            && d.turnIndex == (if a == StartRecording && c.state == FollowupWindow then c.followupCount + 1 else c.turnIndex)
            && d.followupCount == (if a == PlayAnswer && c.turnIndex > c.followupCount then c.turnIndex else c.followupCount)
            && d.attemptSerial == (if a == SubmitTurn then (c.attemptSerial + 1) % 0x1_0000 else c.attemptSerial)
            && d.repromptUsed == (a == PlayReprompt || (c.repromptUsed && !(a == StartRecording && c.state == FollowupWindow)))
            && d.doneIssued == (a == PlayDone || (c.doneIssued && !(WindsDown(c, e, now) && c.state == FollowupWindow)))
  {
  }

  /** The deadlines: five seconds to begin to speak, ten after the cue, one before the closing sound. */
  lemma WhenItExpires(c: Control, e: Event, now: int)
    requires c.followupCount < 255
    ensures var (d, a) := Next(c, e, now);
            d.deadlineMs ==
              if a == StartRecording then now + (if c.state == FollowupWindow then 700 else 5000)
              else if a == ListenFollowup then now + 10000
              else if WindsDown(c, e, now) && a == None then now + 1000
              else if a in {SubmitTurn, PlayFollowupCue, PlayTechnicalError} then 0
              else c.deadlineMs
  {
  }

  // ---------------------------------------------------------------- whole runs

  datatype Input = Happens(e: Event, now: int) | Limit(m: uint8)

  function Apply(c: Control, i: Input): (Control, Action) {
    match i
    case Happens(e, now) => Next(c, e, now)
    case Limit(m) => (WithMaxTurns(c, m), None)
  }

  /** The controller after a list of inputs; a conversation is over once it is idle again. */
  function After(c: Control, ins: seq<Input>): Control
    decreases ins
  {
    if ins == [] || c.state == Idle then c else After(Apply(c, ins[0]).0, ins[1..])
  }

  /** How often a conversation asks for `a`, with the turn index of each request equal to `turn`
      (or of any turn when `turn` is negative). */
  function Requests(c: Control, ins: seq<Input>, a: Action, turn: int): (n: nat)
    decreases ins
  {
    if ins == [] || c.state == Idle then 0
    else
      var (d, b) := Apply(c, ins[0]);
      (if b == a && (turn < 0 || d.turnIndex == turn) then 1 else 0) + Requests(d, ins[1..], a, turn)
  }

  predicate Effective(c: Control, i: Input) {
    i.Happens? && Apply(c, i) != (c, None)
  }

  function EffectiveNonErrors(c: Control, ins: seq<Input>): (n: nat)
    decreases ins
  {
    if ins == [] || c.state == Idle then 0
    else
      (if Effective(c, ins[0]) && ins[0].e != TechnicalError then 1 else 0) +
      EffectiveNonErrors(Apply(c, ins[0]).0, ins[1..])
  }

  /** What every run from `INITIAL` keeps, however many conversations it holds and whatever limits
      are set in between. */
  ghost predicate Sound(c: Control) {
    && 1 <= c.maxTurns <= GAME_MAX_TURNS
    && c.followupCount <= c.turnIndex <= GAME_MAX_TURNS - 1
    && (c.state in {Playing, FollowupCue, FollowupWindow} ==> c.followupCount == c.turnIndex)
    && (c.state in {FollowupCue, FollowupWindow} ==> c.turnIndex <= GAME_MAX_TURNS - 2)
  }

  lemma StepKeepsSound(c: Control, i: Input)
    requires Sound(c)
    ensures Sound(Apply(c, i).0)
  {
  }

  function Rank(c: Control): nat {
    match c.state
    case Idle => 0
    case Failed => 1
    case Ending => if c.doneIssued then 2 else 3
    case FollowupWindow => 4
    case FollowupCue => 5
    case Playing => 6
    case WaitingResult => 7
    case Recording => 8
    case Reprompt => 9
    case Prompting => 9
  }

  /** Turns left, then whether the reprompt is unused, then the rank of the state, as one number. */
  function Measure(c: Control): int {
    if c.state in {Idle, Failed, Ending} then Rank(c)
    else ((9 - c.turnIndex) * 2 + (if c.repromptUsed then 0 else 1)) * 16 + Rank(c)
  }

  lemma StepDecreases(c: Control, i: Input)
    requires Sound(c) && c.state != Idle
    ensures 0 <= Measure(Apply(c, i).0) <= Measure(c)
    ensures Effective(c, i) && i.e != TechnicalError ==> Measure(Apply(c, i).0) < Measure(c)
  {
  }

  /** A conversation cannot go on for ever: between BEGIN and the return to idle, the events that
      have any effect (errors aside) are at most as many as the measure allows. */
  lemma {:induction false} ConversationIsBounded(c: Control, ins: seq<Input>)
    requires Sound(c)
    ensures 0 <= Measure(After(c, ins)) <= Measure(c) - EffectiveNonErrors(c, ins)
    ensures c.state != Idle && EffectiveNonErrors(c, ins) >= Measure(c) ==> After(c, ins).state == Idle
    decreases ins
  {
    if ins != [] && c.state != Idle {
      StepKeepsSound(c, ins[0]);
      StepDecreases(c, ins[0]);
      ConversationIsBounded(Apply(c, ins[0]).0, ins[1..]);
    }
  }

  /** ... and it is never stuck: short of idle, some event that is not an error has an effect. */
  lemma AlwaysAnEffectiveEvent(c: Control)
    requires c.state != Idle
    ensures exists i: Input :: Effective(c, i) && i.e != TechnicalError
  {
    var e := match c.state
      case Recording => RecordingDone
      case WaitingResult => TurnResult
      case Playing => PlaybackDone
      case FollowupWindow => SpeechTimeout
      case _ => PromptDone;
    assert Effective(c, Happens(e, 0));
  }

  /** Every reachable controller is sound, so no turn index passes 9. */
  lemma {:induction false} TurnIndexNeverPassesNine(c: Control, ins: seq<Input>)
    requires Sound(c)
    ensures Sound(After(c, ins)) && After(c, ins).turnIndex <= 9
    decreases ins
  {
    if ins != [] && c.state != Idle {
      StepKeepsSound(c, ins[0]);
      TurnIndexNeverPassesNine(Apply(c, ins[0]).0, ins[1..]);
    }
  }

  ghost predicate WithinLimit(c: Control) {
    && c.followupCount <= c.turnIndex < c.maxTurns <= GAME_MAX_TURNS
    && (c.state in {Playing, FollowupCue, FollowupWindow} ==> c.followupCount == c.turnIndex)
    && (c.state in {FollowupCue, FollowupWindow} ==> c.turnIndex + 1 < c.maxTurns)
  }

  /** A limit that does not change during the run is kept: the turns are those below it. */
  lemma {:induction false} TurnsStayBelowTheLimit(c: Control, ins: seq<Input>)
    requires WithinLimit(c) && forall i :: 0 <= i < |ins| ==> ins[i].Happens?
    ensures After(c, ins).turnIndex < After(c, ins).maxTurns == c.maxTurns
    decreases ins
  {
    if ins != [] && c.state != Idle {
      TurnsStayBelowTheLimit(Apply(c, ins[0]).0, ins[1..]);
    }
  }

  /** One turn that is spoken and answered, with its times. */
  function AttendedTurn(t: int): seq<Input> {
    [Happens(RecordingDone, t), Happens(TurnResult, t), Happens(PlaybackDone, t), Happens(PromptDone, t),
     Happens(SpeechStarted, t)]
  }

  function Attended(n: nat, t: int): seq<Input> {
    if n == 0 then [] else AttendedTurn(t) + Attended(n - 1, t)
  }

  lemma {:induction false} AfterAppends(c: Control, a: seq<Input>, b: seq<Input>)
    ensures After(c, a + b) == After(After(c, a), b)
    decreases a
  {
    if a == [] {
      assert a + b == b;
    } else if c.state != Idle {
      assert (a + b)[1..] == a[1..] + b;
      AfterAppends(Apply(c, a[0]).0, a[1..], b);
    }
  }

  lemma {:induction false} AfterCons(c: Control, i: Input, rest: seq<Input>)
    requires c.state != Idle
    ensures After(c, [i] + rest) == After(Apply(c, i).0, rest)
  {
    assert ([i] + rest)[1..] == rest;
  }

  /** While turns are left, a turn that is answered leads to the next one, with a fresh reprompt. */
  lemma {:induction false} AnsweredTurn(c: Control, t: int)
    requires WithinLimit(c) && c.state == Recording && c.turnIndex + 1 < c.maxTurns
    ensures var d := After(c, AttendedTurn(t));
      WithinLimit(d) && d.state == Recording && d.turnIndex == c.turnIndex + 1 && d.maxTurns == c.maxTurns && !d.repromptUsed
  {
    var c1 := Apply(c, Happens(RecordingDone, t)).0;
    var c2 := Apply(c1, Happens(TurnResult, t)).0;
    var c3 := Apply(c2, Happens(PlaybackDone, t)).0;
    var c4 := Apply(c3, Happens(PromptDone, t)).0;
    var last := [Happens(SpeechStarted, t)] + [];
    assert AttendedTurn(t) == [Happens(RecordingDone, t)] + ([Happens(TurnResult, t)] + ([Happens(PlaybackDone, t)] +
                                ([Happens(PromptDone, t)] + last)));
    AfterCons(c, Happens(RecordingDone, t), [Happens(TurnResult, t)] + ([Happens(PlaybackDone, t)] + ([Happens(PromptDone, t)] + last)));
    AfterCons(c1, Happens(TurnResult, t), [Happens(PlaybackDone, t)] + ([Happens(PromptDone, t)] + last));
    AfterCons(c2, Happens(PlaybackDone, t), [Happens(PromptDone, t)] + last);
    AfterCons(c3, Happens(PromptDone, t), last);
    AfterCons(c4, Happens(SpeechStarted, t), []);
  }

  /** And every turn below the limit can be had: a conversation that is always answered gets to each. */
  lemma {:induction false} EveryTurnCanBeHad(c: Control, n: nat, t: int)
    requires WithinLimit(c) && c.state == Recording && c.turnIndex + n < c.maxTurns
    ensures var d := After(c, Attended(n, t)); d.state == Recording && d.turnIndex == c.turnIndex + n
    decreases n
  {
    if n > 0 {
      AnsweredTurn(c, t);
      AfterAppends(c, AttendedTurn(t), Attended(n - 1, t));
      EveryTurnCanBeHad(After(c, AttendedTurn(t)), n - 1, t);
    }
  }

  /** How many more times turn `t` can be submitted from here. */
  function SubmitsLeft(c: Control, t: int): nat {
    if c.state in {Idle, Failed, Ending} || t < c.turnIndex then 0
    else if t > c.turnIndex then 2
    else match c.state
      case Prompting => if c.repromptUsed then 1 else 2
      case Reprompt => if c.repromptUsed then 1 else 2
      case Recording => if c.repromptUsed then 1 else 2
      case WaitingResult => if c.repromptUsed then 0 else 1
      case _ => 0
  }

  lemma {:induction false} SubmittedAtMostTwice(c: Control, ins: seq<Input>, t: nat)
    requires Sound(c)
    ensures Requests(c, ins, SubmitTurn, t) <= SubmitsLeft(c, t) <= 2
    decreases ins
  {
    if ins != [] && c.state != Idle {
      StepKeepsSound(c, ins[0]);
      var (d, a) := Apply(c, ins[0]);
      SubmittedAtMostTwice(d, ins[1..], t);
    }
  }

  ghost predicate DoneOnlyAtTheEnd(c: Control) {
    c.doneIssued ==> c.state in {Ending, Failed, Idle}
  }

  lemma {:induction false} DonePlayedAtMostOnce(c: Control, ins: seq<Input>)
    requires DoneOnlyAtTheEnd(c)
    ensures Requests(c, ins, PlayDone, -1) <= if c.doneIssued then 0 else 1
    decreases ins
  {
    if ins != [] && c.state != Idle {
      DonePlayedAtMostOnce(Apply(c, ins[0]).0, ins[1..]);
    }
  }

  /** The four guarantees for a conversation begun on a freshly initialised controller. */
  lemma FreshConversation(ins: seq<Input>, begun: int)
    ensures var c := Next(INITIAL, Begin, begun).0;
            && After(c, ins).turnIndex <= 9
            && EffectiveNonErrors(c, ins) <= 313
            && (forall t: nat :: Requests(c, ins, SubmitTurn, t) <= 2)
            && Requests(c, ins, PlayDone, -1) <= 1
  {
    var c := Next(INITIAL, Begin, begun).0;
    TurnIndexNeverPassesNine(c, ins);
    ConversationIsBounded(c, ins);
    DonePlayedAtMostOnce(c, ins);
    forall t: nat ensures Requests(c, ins, SubmitTurn, t) <= 2 {
      SubmittedAtMostTwice(c, ins, t);
    }
  }

  // ---------------------------------------------------------------- the driver

  datatype Heard = Speech | Silence | MicError

  datatype Answer = AsrWasEmpty | Answered(hasUrl: bool, maxTurns: uint8) | NoAnswer(err: EspErr)

  /** Everything outside the loop that decides one round of it: the microphone, the network, the
      player and the clock. */
  datatype Round = Round(
    now: int,
    heard: Heard,
    promptErr: EspErr,
    startErr: EspErr,
    streamErr: EspErr,
    answer: Answer,
    playErr: EspErr,
    completeErr: EspErr)

  /** How a round ends: another round follows, the conversation ended normally, or it failed. */
  datatype Outcome = Again | Finished | Broke(err: EspErr)

  /** Rounds the loop can still make: two per turn left, less a reprompt already spent. */
  function RoundsLeft(c: Control): int {
    (9 - c.turnIndex) * 2 + if c.state != Recording then 0 else if c.repromptUsed then 1 else 2
  }

  ghost predicate AtLoopHead(c: Control) {
    Sound(c) && c.state in {Recording, FollowupWindow} && !c.doneIssued
  }

  ghost predicate RoundMeets(roundsLeft: int, after: Control, outcome: Outcome) {
    && Sound(after)
    && (outcome == Again ==> AtLoopHead(after) && RoundsLeft(after) < roundsLeft)
    && (outcome == Finished ==> after.state == Idle)
    && (outcome.Broke? ==> outcome.err != OK)
  }

  method PlayedPrompt(c: ConversationController, w: Round) returns (outcome: Outcome)
    requires Sound(c.Value()) && c.state in {Reprompt, FollowupCue} && !c.doneIssued
    modifies c
    ensures outcome == (if w.promptErr != OK then Broke(w.promptErr) else Again)
    ensures c.Value() == if outcome == Again then Next(old(c.Value()), PromptDone, w.now).0 else old(c.Value())
  {
    if w.promptErr != OK {
      return Broke(w.promptErr);
    }
    var action := c.Handle(PromptDone, w.now);
    return Again;
  }

  method AfterSilence(c: ConversationController, w: Round) returns (outcome: Outcome)
    requires AtLoopHead(c.Value())
    modifies c
    ensures RoundMeets(RoundsLeft(old(c.Value())), c.Value(), outcome)
  {
    var action := c.Handle(SpeechTimeout, w.now);
    if action == PlayReprompt {
      outcome := PlayedPrompt(c, w);
      return;
    }
    if action != PlayDone {
      var later := if w.now >= c.deadlineMs then w.now else c.deadlineMs;
      action := c.Handle(Timer, later);
      if action != PlayDone {
        return Broke(Timeout);
      }
    }
    action := c.Handle(PromptDone, w.now);
    return Finished;
  }

  method AfterAnswer(c: ConversationController, w: Round) returns (outcome: Outcome)
    requires Sound(c.Value()) && c.state == WaitingResult && !c.doneIssued && w.answer.Answered?
    modifies c
    ensures RoundMeets(RoundsLeft(old(c.Value())) + 1, c.Value(), outcome)
  {
    var action := c.Handle(TurnResult, w.now);
    if action != PlayAnswer || !w.answer.hasUrl {
      return Broke(Fail);
    }
    if w.playErr != OK || w.completeErr != OK {
      return Broke(if w.playErr != OK then w.playErr else w.completeErr);
    }
    c.SetMaxTurns(if w.answer.maxTurns > 0 then w.answer.maxTurns else DEFAULT_MAX_TURNS);
    action := c.Handle(PlaybackDone, w.now);
    if action == PlayFollowupCue {
      outcome := PlayedPrompt(c, w);
      return;
    }
    WindDown(c, w.now);
    return Finished;
  }

  /** The wait for the deadline of an ending conversation, and its last two events. */
  method WindDown(c: ConversationController, now: int)
    requires Sound(c.Value()) && c.state == Ending
    modifies c
    ensures Sound(c.Value()) && c.state == Idle
  {
    var later := if now >= c.deadlineMs then now else c.deadlineMs;
    var action := c.Handle(Timer, later);
    action := c.Handle(PromptDone, later);
  }

  method AfterEmptyAsr(c: ConversationController, w: Round) returns (outcome: Outcome)
    requires Sound(c.Value()) && c.state == WaitingResult && !c.doneIssued
    modifies c
    ensures RoundMeets(RoundsLeft(old(c.Value())) + 2, c.Value(), outcome)
    ensures outcome == Again ==> !old(c.repromptUsed)
  {
    var action := c.Handle(AsrEmpty, w.now);
    if action == PlayReprompt {
      outcome := PlayedPrompt(c, w);
      return;
    }
    action := c.Handle(PromptDone, w.now);
    outcome := Finished;
  }

  method AfterSpeech(c: ConversationController, w: Round) returns (outcome: Outcome, submitted: bool)
    requires AtLoopHead(c.Value())
    modifies c
    ensures RoundMeets(RoundsLeft(old(c.Value())), c.Value(), outcome)
  {
    submitted := false;
    var action;
    if c.state == FollowupWindow {
      action := c.Handle(SpeechStarted, w.now);
    }
    if w.startErr != OK || w.streamErr != OK {
      return Broke(if w.startErr != OK then w.startErr else w.streamErr), submitted;
    }
    action := c.Handle(RecordingDone, w.now);
    submitted := true;
    match w.answer {
      case NoAnswer(err) =>
        outcome := Broke(if err == OK then Fail else err);
      case AsrWasEmpty =>
        outcome := AfterEmptyAsr(c, w);
      case Answered(_, _) =>
        outcome := AfterAnswer(c, w);
    }
  }

  /** `run_v6_conversation`: the loop ends whatever the world does, after at most 20 rounds (so at
      most 20 submitted turns); a cloud conversation that was opened is closed exactly once; and
      success means the controller is back at idle. */
  method RunConversation(
    c: ConversationController, connected: bool, taskCreated: bool, now: int,
    speakErr: EspErr, openErr: EspErr, world: nat -> Round)
    returns (ret: EspErr, closes: nat, rounds: nat, submits: nat)
    requires c.Value() == INITIAL
    modifies c
    ensures closes == if connected && taskCreated && openErr == OK then 1 else 0
    ensures ret == OK ==> c.state == Idle
    ensures ret != OK ==> c.state in {Idle, Prompting, Failed}
    ensures submits <= rounds <= 20
  {
    closes, rounds, submits := 0, 0, 0;
    if !connected {
      return InvalidState, closes, rounds, submits;
    }
    var action := c.Handle(Begin, now);
    if !taskCreated {
      return NoMem, closes, rounds, submits;
    }
    if speakErr != OK || openErr != OK {
      ret := if speakErr != OK then speakErr else openErr;
      if openErr == OK {
        closes := closes + 1;
      }
      return;
    }
    action := c.Handle(PromptDone, now);
    while true
      invariant AtLoopHead(c.Value()) && closes == 0
      invariant submits <= rounds && rounds + RoundsLeft(c.Value()) <= 20
      decreases RoundsLeft(c.Value())
    {
      var w := world(rounds);
      rounds := rounds + 1;
      var outcome, submitted := Broke(Fail), false;
      match w.heard {
        case Silence => outcome := AfterSilence(c, w);
        case MicError =>
        case Speech => outcome, submitted := AfterSpeech(c, w);
      }
      if submitted {
        submits := submits + 1;
      }
      if outcome == Finished {
        return OK, closes + 1, rounds, submits;
      }
      if outcome.Broke? {
        ret := outcome.err;
        break;
      }
    }
    action := c.Handle(TechnicalError, now);
    closes := closes + 1;
  }
}
