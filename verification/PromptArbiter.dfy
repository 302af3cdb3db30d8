/** The prompt arbiter: submitters, waiters and flag setters share an eight-entry table with one owner
    task that plays the most urgent prompt. A step is one critical section, or the notification that a
    submitter or setter gives after it has left its own. */
module PromptArbiter {
  import opened Bytes

  const CAPACITY := 8
  const KEY_BYTES := 64

  datatype PromptId =
    | BootBell | NetworkConnected | ConversationDone | FollowupCue
    | Speak | Reprompt | NetworkRequired | TechnicalError

  /** The enumeration's values, which are also the priorities. */
  function Rank(id: PromptId): nat {
    match id
    case BootBell => 10
    case NetworkConnected => 20
    case ConversationDone => 30
    case FollowupCue => 35
    case Speak => 40
    case Reprompt => 45
    case NetworkRequired => 50
    case TechnicalError => 60
  }

  predicate IsNetwork(id: PromptId) { id.NetworkRequired? || id.NetworkConnected? }

  predicate Relevant(id: PromptId, connected: bool) {
    (id.NetworkRequired? ==> !connected) && (id.NetworkConnected? ==> connected)
  }

  /** The stored key is cut to what fits a 64-byte buffer with its terminator. */
  datatype Slot = Unused | Used(id: PromptId, key: string)

  function Stored(key: string): string { key[..Min(|key|, KEY_BYTES - 1)] }

  /** What `strncmp` over 64 bytes looks at. */
  function Compared(s: string): string { (s + "\0")[..Min(|s| + 1, KEY_BYTES)] }

  /** Comparing a stored key with any key that way is comparing for equality: a key that would be cut
      equals no stored key. */
  lemma {:induction false} ComparisonIsEquality(stored: string, key: string)
    requires |stored| < KEY_BYTES && '\0' !in key
    ensures Compared(stored) == Compared(key) <==> stored == key
  {
    if |key| < KEY_BYTES {
      assert stored == Compared(stored)[..|stored|];
      assert key == Compared(key)[..|key|];
    } else {
      assert Compared(stored)[|stored|] == '\0';
      assert Compared(key)[KEY_BYTES - 1] == key[KEY_BYTES - 1];
      assert key[KEY_BYTES - 1] in key;
    }
  }

  /** The table and what the owner is busy with; `playingKey` counts only while `playing`. */
  datatype Desk = Desk(entries: seq<Slot>, playing: bool, playingKey: string)

  datatype Owner = Blocked | Taking | Rechecking(entry: Slot) | Playing(entry: Slot)

  datatype Last = NoResult | Result(key: string, err: EspErr)

  /** A prompt that began to play, with the flags its recheck saw. */
  datatype Begun = Begun(entry: Slot, connected: bool, active: bool)

  /** `owed` counts the callers that have left their critical section and not yet given the owner its
      notification. `begun` and `finished` are histories. */
  datatype State = State(
    desk: Desk, active: bool, connected: bool, owed: nat, notified: bool, owner: Owner, last: Last,
    begun: seq<Begun>, finished: seq<(Slot, EspErr)>)

  const EMPTY: seq<Slot> := [Unused, Unused, Unused, Unused, Unused, Unused, Unused, Unused]
  const STARTED := State(Desk(EMPTY, false, ""), false, false, 0, false, Blocked, NoResult, [], [])

  // ---------------------------------------------------------------- the critical sections

  predicate HasKey(slot: Slot, key: string) { slot.Used? && slot.key == key }

  /** The first unused slot, or the length of the table. */
  function FirstFree(entries: seq<Slot>): (i: nat)
    ensures i <= |entries|
    ensures i < |entries| ==> entries[i].Unused?
    ensures forall j :: 0 <= j < i ==> entries[j].Used?
  {
    if entries == [] || entries[0].Unused? then 0 else 1 + FirstFree(entries[1..])
  }

  function Insert(entries: seq<Slot>, entry: Slot): seq<Slot> {
    var i := FirstFree(entries);
    if i < |entries| then entries[i := entry] else entries
  }

  predicate InTable(entries: seq<Slot>, key: string) {
    exists i :: 0 <= i < |entries| && HasKey(entries[i], key)
  }

  predicate Pending(desk: Desk, key: string) {
    (desk.playing && desk.playingKey == key) || InTable(desk.entries, key)
  }

  predicate Dropped(slot: Slot, connected: bool) { slot.Used? && !Relevant(slot.id, connected) }

  function DropIrrelevant(entries: seq<Slot>, connected: bool): (r: seq<Slot>)
    ensures |r| == |entries|
  {
    seq(|entries|, i requires 0 <= i < |entries| => if Dropped(entries[i], connected) then Unused else entries[i])
  }

  predicate Playable(slot: Slot, active: bool) { slot.Used? && !(active && IsNetwork(slot.id)) }

  /** The slot to play next among the first `n`: highest rank, lowest index; -1 if there is none. */
  function Best(entries: seq<Slot>, active: bool, n: nat): (b: int)
    requires n <= |entries|
    ensures -1 <= b < n
    ensures b >= 0 ==> Playable(entries[b], active)
  {
    if n == 0 then -1
    else
      var b := Best(entries, active, n - 1);
      if Playable(entries[n - 1], active) && (b < 0 || Rank(entries[n - 1].id) > Rank(entries[b].id)) then n - 1 else b
  }

  lemma {:induction false} BestIsMostUrgent(entries: seq<Slot>, active: bool, n: nat)
    requires n <= |entries|
    ensures var b := Best(entries, active, n);
      && (b < 0 ==> forall i :: 0 <= i < n ==> !Playable(entries[i], active))
      && (b >= 0 ==> forall i :: 0 <= i < n && Playable(entries[i], active) ==>
            Rank(entries[i].id) <= Rank(entries[b].id) && (Rank(entries[i].id) == Rank(entries[b].id) ==> b <= i))
  {
    if n > 0 {
      BestIsMostUrgent(entries, active, n - 1);
    }
  }

  /** So a technical error goes before everything, then the prompts of a conversation in this order, and
      the bell only when nothing else can be played. */
  lemma {:induction false} UrgencyOrder(entries: seq<Slot>, active: bool, i: nat)
    requires i < |entries| && Playable(entries[i], active)
    ensures var b := Best(entries, active, |entries|);
      && b >= 0 && entries[b].Used?
      && (entries[i].id.TechnicalError? ==> entries[b].id.TechnicalError?)
      && (entries[i].id.NetworkRequired? ==> entries[b].id in {NetworkRequired, TechnicalError})
      && (entries[i].id.Reprompt? ==> entries[b].id in {Reprompt, NetworkRequired, TechnicalError})
      && (entries[i].id.Speak? ==> entries[b].id in {Speak, Reprompt, NetworkRequired, TechnicalError})
      && (entries[i].id.FollowupCue? ==> entries[b].id in {FollowupCue, Speak, Reprompt, NetworkRequired, TechnicalError})
      && (entries[b].id.ConversationDone? ==> entries[i].id in {ConversationDone, NetworkConnected, BootBell})
      && (entries[b].id.NetworkConnected? ==> entries[i].id in {NetworkConnected, BootBell})
      && (entries[b].id.BootBell? ==> entries[i].id.BootBell?)
  {
    BestIsMostUrgent(entries, active, |entries|);
  }

  datatype Action =
    | Submit(id: PromptId, key: string)
    | SetActive(active: bool)
    | SetConnected(connected: bool)
    | Notify
    | WakeUp
    | TakeNext
    | Recheck
    | Finish(err: EspErr)

  predicate Enabled(s: State, a: Action) {
    match a
    case Submit(_, key) => key != ""
    case SetActive(_) => true
    case SetConnected(_) => true
    case Notify => s.owed > 0
    case WakeUp => s.owner.Blocked? && s.notified
    case TakeNext => s.owner.Taking?
    case Recheck => s.owner.Rechecking?
    case Finish(_) => s.owner.Playing?
  }

  /** Taken by a submission: it is a duplicate, or the table is full, or it goes in. */
  function Submitted(desk: Desk, id: PromptId, key: string): Desk {
    if Pending(desk, key) then desk else desk.(entries := Insert(desk.entries, Used(id, Stored(key))))
  }

  predicate Full(entries: seq<Slot>) { FirstFree(entries) == |entries| }

  function SubmitResult(desk: Desk, key: string): EspErr {
    if Pending(desk, key) then OK else if Full(desk.entries) then NoMem else OK
  }

  function Taken(desk: Desk, i: nat): Desk
    requires i < |desk.entries| && desk.entries[i].Used?
  {
    Desk(desk.entries[i := Unused], true, desk.entries[i].key)
  }

  predicate Deferred(entry: Slot, active: bool)
    requires entry.Used?
  {
    active && IsNetwork(entry.id)
  }

  /** The recheck puts a deferred prompt back, and lets go of one that will not play. */
  function Rechecked(desk: Desk, entry: Slot, active: bool, connected: bool): Desk
    requires entry.Used?
  {
    var d := if Deferred(entry, active) then desk.(entries := Insert(desk.entries, entry)) else desk;
    if !Relevant(entry.id, connected) || Deferred(entry, active) then d.(playing := false, playingKey := "") else d
  }

  /** The actions after which the caller owes the owner a notification. */
  predicate Rouses(s: State, a: Action) {
    || (a.Submit? && a.key != "" && !Pending(s.desk, a.key) && !Full(s.desk.entries))
    || a == SetActive(false)
    || a.SetConnected?
  }

  function Step(s: State, a: Action): State
    requires Enabled(s, a) && OwnerHoldsEntry(s.owner)
  {
    match a
    case Submit(id, key) =>
      s.(desk := Submitted(s.desk, id, key), owed := if Rouses(s, a) then s.owed + 1 else s.owed)
    case SetActive(active) => s.(active := active, owed := if active then s.owed else s.owed + 1)
    case SetConnected(connected) => s.(connected := connected, owed := s.owed + 1)
    case Notify => s.(owed := s.owed - 1, notified := true)
    case WakeUp => s.(notified := false, owner := Taking)
    case TakeNext =>
      var entries := DropIrrelevant(s.desk.entries, s.connected);
      var b := Best(entries, s.active, |entries|);
      if b < 0 then s.(desk := s.desk.(entries := entries), owner := Blocked)
      else s.(desk := Taken(s.desk.(entries := entries), b), owner := Rechecking(entries[b]))
    case Recheck =>
      var entry := s.owner.entry;
      var t := s.(desk := Rechecked(s.desk, entry, s.active, s.connected));
      if !Relevant(entry.id, s.connected) then t.(owner := Taking)
      else if Deferred(entry, s.active) then t.(owner := Blocked)
      else t.(owner := Playing(entry), begun := s.begun + [Begun(entry, s.connected, s.active)])
    case Finish(err) =>
      s.(desk := s.desk.(playing := false, playingKey := ""), owner := Taking,
         last := Result(s.owner.entry.key, err), finished := s.finished + [(s.owner.entry, err)])
  }

  predicate OwnerHoldsEntry(o: Owner) { o.Rechecking? || o.Playing? ==> o.entry.Used? }

  /** What a poll of `prompt_arbiter_wait_key` returns, unless it still has to wait. */
  function WaitResult(s: State, key: string): EspErr {
    if s.last.Result? && s.last.key == key then s.last.err else OK
  }

  // ---------------------------------------------------------------- invariants

  /** No two queued entries, and no queued entry and the playing prompt, share a key. */
  ghost predicate UniqueKeys(d: Desk) {
    && (forall i, j :: 0 <= i < j < |d.entries| && d.entries[i].Used? && d.entries[j].Used? ==>
          d.entries[i].key != d.entries[j].key)
    && (d.playing ==> !InTable(d.entries, d.playingKey))
  }

  ghost predicate ShortKeys(d: Desk) {
    && (forall i :: 0 <= i < |d.entries| && d.entries[i].Used? ==> |d.entries[i].key| < KEY_BYTES)
    && (d.playing ==> |d.playingKey| < KEY_BYTES)
  }

  ghost predicate OwnerMatches(s: State) {
    && OwnerHoldsEntry(s.owner)
    && (s.desk.playing <==> s.owner.Rechecking? || s.owner.Playing?)
    && (s.desk.playing ==> s.desk.playingKey == s.owner.entry.key)
  }

  lemma {:induction false} InsertAddsOne(entries: seq<Slot>, entry: Slot, key: string)
    requires entry.Used?
    ensures InTable(Insert(entries, entry), key) <==> InTable(entries, key) || (!Full(entries) && entry.key == key)
  {
    var i, more := FirstFree(entries), Insert(entries, entry);
    if i < |entries| {
      assert more[i] == entry && forall j :: 0 <= j < |entries| && j != i ==> more[j] == entries[j];
      if InTable(entries, key) {
        var j :| 0 <= j < |entries| && HasKey(entries[j], key);
        assert HasKey(more[j], key);
      }
      if entry.key == key {
        assert HasKey(more[i], key);
      }
    }
  }

  lemma {:induction false} InsertKeepsUnique(d: Desk, entry: Slot)
    requires UniqueKeys(d) && entry.Used? && !Pending(d, entry.key)
    ensures UniqueKeys(d.(entries := Insert(d.entries, entry)))
  {
    InsertAddsOne(d.entries, entry, d.playingKey);
    assert forall j :: 0 <= j < |d.entries| && d.entries[j].Used? ==> !HasKey(d.entries[j], entry.key);
  }

  /** When a submission keeps the keys apart: exactly when the key is not cut, or its cut form is new,
      or there is no room for it. */
  lemma {:induction false} SubmitKeepsUniqueIff(d: Desk, id: PromptId, key: string)
    requires UniqueKeys(d) && ShortKeys(d)
    ensures UniqueKeys(Submitted(d, id, key)) <==> |key| < KEY_BYTES || !Pending(d, Stored(key)) || Full(d.entries)
    ensures ShortKeys(Submitted(d, id, key))
  {
    if |key| < KEY_BYTES {
      assert Stored(key) == key;
    } else {
      assert !Pending(d, key);
    }
    if !Pending(d, Stored(key)) {
      InsertKeepsUnique(d, Used(id, Stored(key)));
    } else if !Pending(d, key) && !Full(d.entries) {
      var i, more := FirstFree(d.entries), Submitted(d, id, key);
      assert more.entries[i] == Used(id, Stored(key));
      if InTable(d.entries, Stored(key)) {
        var j :| 0 <= j < |d.entries| && HasKey(d.entries[j], Stored(key));
        assert HasKey(more.entries[j], Stored(key)) && j != i;
      } else {
        assert HasKey(more.entries[i], d.playingKey);
      }
    }
  }

  lemma {:induction false} DropKeepsUnique(d: Desk, connected: bool)
    requires UniqueKeys(d)
    ensures UniqueKeys(d.(entries := DropIrrelevant(d.entries, connected)))
  {
    var fewer := DropIrrelevant(d.entries, connected);
    assert forall i :: 0 <= i < |fewer| && fewer[i].Used? ==> fewer[i] == d.entries[i];
    if InTable(fewer, d.playingKey) {
      var i :| 0 <= i < |fewer| && HasKey(fewer[i], d.playingKey);
      assert HasKey(d.entries[i], d.playingKey);
    }
  }

  lemma {:induction false} TakeKeepsUnique(d: Desk, i: nat)
    requires UniqueKeys(d) && i < |d.entries| && d.entries[i].Used?
    ensures UniqueKeys(Taken(d, i))
  {
    var t := Taken(d, i);
    assert forall j :: 0 <= j < |d.entries| && j != i ==> t.entries[j] == d.entries[j];
  }

  lemma {:induction false} RecheckKeepsUnique(d: Desk, entry: Slot, active: bool, connected: bool)
    requires UniqueKeys(d) && entry.Used? && d.playing && d.playingKey == entry.key
    ensures UniqueKeys(Rechecked(d, entry, active, connected))
  {
    if Deferred(entry, active) {
      var idle := d.(playing := false, playingKey := "");
      InsertKeepsUnique(idle, entry);
    }
  }

  ghost predicate Inv(s: State) {
    |s.desk.entries| == CAPACITY && OwnerMatches(s) && ShortKeys(s.desk)
  }

  lemma {:induction false} StepKeepsOwner(s: State, a: Action)
    requires OwnerMatches(s) && Enabled(s, a)
    ensures OwnerMatches(Step(s, a))
  {
  }

  lemma {:induction false} StepKeepsInv(s: State, a: Action)
    requires Inv(s) && Enabled(s, a)
    ensures Inv(Step(s, a))
  {
    StepKeepsOwner(s, a);
  }

  lemma {:induction false} StepKeepsUnique(s: State, a: Action)
    requires Inv(s) && UniqueKeys(s.desk) && Enabled(s, a)
    requires a.Submit? ==> |a.key| < KEY_BYTES
    ensures UniqueKeys(Step(s, a).desk)
  {
    match a
    case Submit(id, key) => SubmitKeepsUniqueIff(s.desk, id, key);
    case TakeNext =>
      DropKeepsUnique(s.desk, s.connected);
      var d := s.desk.(entries := DropIrrelevant(s.desk.entries, s.connected));
      var b := Best(d.entries, s.active, |d.entries|);
      if b >= 0 {
        TakeKeepsUnique(d, b);
      }
    case Recheck => RecheckKeepsUnique(s.desk, s.owner.entry, s.active, s.connected);
    case _ =>
  }

  function Next(s: State, a: Action): State
    requires OwnerHoldsEntry(s.owner)
    ensures OwnerHoldsEntry(Next(s, a).owner)
  {
    if Enabled(s, a) then Step(s, a) else s
  }

  function Run(s: State, schedule: seq<Action>): State
    requires OwnerHoldsEntry(s.owner)
    ensures OwnerHoldsEntry(Run(s, schedule).owner)
    decreases |schedule|
  {
    if schedule == [] then s else Run(Next(s, schedule[0]), schedule[1..])
  }

  ghost predicate KeysFit(schedule: seq<Action>) {
    forall i :: 0 <= i < |schedule| && schedule[i].Submit? ==> |schedule[i].key| < KEY_BYTES
  }

  lemma {:induction false} RunKeepsInv(s: State, schedule: seq<Action>)
    requires Inv(s)
    ensures Inv(Run(s, schedule))
    decreases |schedule|
  {
    if schedule != [] {
      if Enabled(s, schedule[0]) {
        StepKeepsInv(s, schedule[0]);
      }
      RunKeepsInv(Next(s, schedule[0]), schedule[1..]);
    }
  }

  lemma {:induction false} RunKeepsUnique(s: State, schedule: seq<Action>)
    requires Inv(s) && UniqueKeys(s.desk) && KeysFit(schedule)
    ensures UniqueKeys(Run(s, schedule).desk)
    decreases |schedule|
  {
    if schedule != [] {
      var a, rest := schedule[0], schedule[1..];
      assert forall i :: 0 <= i < |rest| ==> rest[i] == schedule[i + 1];
      if Enabled(s, a) {
        StepKeepsInv(s, a);
        StepKeepsUnique(s, a);
      }
      RunKeepsUnique(Next(s, a), rest);
    }
  }

  /** In every interleaving, queued entries and the playing prompt never share a key, as long as the
      submitted keys fit the buffer. */
  lemma {:induction false} KeysStayUnique(schedule: seq<Action>)
    requires KeysFit(schedule)
    ensures UniqueKeys(Run(STARTED, schedule).desk)
  {
    RunKeepsUnique(STARTED, schedule);
  }

  /** A key that does not fit is never recognised: submitted twice, it is queued twice. */
  lemma {:induction false} LongKeysAreNotDeduplicated(id: PromptId, key: string)
    requires |key| >= KEY_BYTES
    ensures var d := Submitted(Submitted(STARTED.desk, id, key), id, key);
      d.entries[0] == d.entries[1] == Used(id, Stored(key))
  {
    var once := Submitted(STARTED.desk, id, key);
    assert FirstFree(EMPTY) == 0;
    assert once.entries[0] == Used(id, Stored(key)) && once.entries[1].Unused?;
    assert once.entries[1..][0].Unused?;
    assert !Pending(once, key);
  }

  // ---------------------------------------------------------------- nothing accepted is dropped

  /** The prompt is queued, or the owner has it in hand. */
  predicate Present(s: State, e: Slot) {
    e in s.desk.entries || ((s.owner.Rechecking? || s.owner.Playing?) && s.owner.entry == e)
  }

  lemma {:induction false} PresentIsPending(s: State, e: Slot)
    requires OwnerMatches(s) && e.Used? && Present(s, e)
    ensures Pending(s.desk, e.key)
  {
    if e in s.desk.entries {
      var i :| 0 <= i < |s.desk.entries| && s.desk.entries[i] == e;
      assert HasKey(s.desk.entries[i], e.key);
    }
  }

  lemma {:induction false} InsertKeepsOthers(entries: seq<Slot>, entry: Slot, e: Slot)
    requires e in entries && e.Used?
    ensures e in Insert(entries, entry)
  {
    var i :| 0 <= i < |entries| && entries[i] == e;
    assert Insert(entries, entry)[i] == e;
  }

  lemma {:induction false} TakeKeepsOthers(s: State, e: Slot)
    requires Inv(s) && e in s.desk.entries && e.Used? && !IsNetwork(e.id) && s.owner.Taking?
    ensures Present(Step(s, TakeNext), e)
  {
    var entries := DropIrrelevant(s.desk.entries, s.connected);
    var i :| 0 <= i < |s.desk.entries| && s.desk.entries[i] == e;
    assert entries[i] == e;
    var b := Best(entries, s.active, |entries|);
    assert b >= 0 && b != i ==> entries[b := Unused][i] == e;
  }

  lemma {:induction false} StepKeepsPresent(s: State, a: Action, e: Slot)
    requires Inv(s) && Enabled(s, a) && e.Used? && !IsNetwork(e.id) && Present(s, e)
    ensures Present(Step(s, a), e) || (a.Finish? && Step(s, a).finished == s.finished + [(e, a.err)])
  {
    match a
    case Submit(id, key) =>
      if e in s.desk.entries {
        InsertKeepsOthers(s.desk.entries, Used(id, Stored(key)), e);
      }
    case TakeNext => TakeKeepsOthers(s, e);
    case Recheck =>
      if e in s.desk.entries {
        InsertKeepsOthers(s.desk.entries, s.owner.entry, e);
      }
    case _ =>
  }

  lemma {:induction false} FinishedGrows(s: State, schedule: seq<Action>)
    requires OwnerHoldsEntry(s.owner)
    ensures s.finished <= Run(s, schedule).finished
    decreases |schedule|
  {
    if schedule != [] {
      FinishedGrows(Next(s, schedule[0]), schedule[1..]);
    }
  }

  ghost predicate FinishedSince(t: State, from: nat, e: Slot) {
    exists j :: from <= j < |t.finished| && t.finished[j].0 == e
  }

  /** A prompt that got into the table, and is not a network prompt, is never dropped: whatever
      happens, it has been played to its end, or it is still pending, so a waiter keeps waiting. */
  lemma {:induction false} AcceptedPromptIsPlayed(s: State, schedule: seq<Action>, e: Slot)
    requires Inv(s) && e.Used? && !IsNetwork(e.id) && Present(s, e)
    ensures var t := Run(s, schedule);
      FinishedSince(t, |s.finished|, e) || (Present(t, e) && Pending(t.desk, e.key))
    decreases |schedule|
  {
    if schedule == [] {
      PresentIsPending(s, e);
    } else {
      var a, rest := schedule[0], schedule[1..];
      var u := Next(s, a);
      if Enabled(s, a) {
        StepKeepsInv(s, a);
        StepKeepsPresent(s, a, e);
      }
      FinishedGrows(u, rest);
      if Present(u, e) {
        AcceptedPromptIsPlayed(u, rest, e);
        StepFinishes(s, a);
      } else {
        var t := Run(u, rest);
        assert t.finished[|s.finished|].0 == e;
      }
    }
  }

  lemma {:induction false} StepFinishes(s: State, a: Action)
    requires OwnerHoldsEntry(s.owner)
    ensures |Next(s, a).finished| >= |s.finished|
  {
  }

  /** A submission that returns OK without finding a duplicate puts the prompt into the table, and the
      submitter will notify the owner. */
  lemma {:induction false} SubmissionIsPresent(s: State, id: PromptId, key: string)
    requires Inv(s) && key != "" && !Pending(s.desk, key) && SubmitResult(s.desk, key) == OK
    ensures var t := Step(s, Submit(id, key)); Present(t, Used(id, Stored(key))) && t.owed == s.owed + 1
  {
    var entries := s.desk.entries;
    assert Insert(entries, Used(id, Stored(key)))[FirstFree(entries)] == Used(id, Stored(key));
  }

  // ---------------------------------------------------------------- submissions that find a duplicate

  predicate Lasting(e: Slot) { e.Used? && !IsNetwork(e.id) }

  predicate IsSpoken(e: Slot, key: string) { Lasting(e) && HasKey(e, key) }

  /** A prompt under the key that is no network prompt has ended since `from` prompts had. */
  ghost predicate SpokenSince(t: State, from: nat, key: string) {
    exists j :: from <= j < |t.finished| && IsSpoken(t.finished[j].0, key)
  }

  /** A waiter for the key that comes back without a timeout comes back after that play. */
  ghost predicate Kept(t: State, from: nat, key: string) {
    SpokenSince(t, from, key) || Pending(t.desk, key)
  }

  ghost predicate AlwaysKept(s: State, from: nat, key: string)
    requires OwnerHoldsEntry(s.owner)
  {
    forall schedule :: Kept(Run(s, schedule), from, key)
  }

  /** A network prompt is pending under the key, queued or in the owner's hand. */
  ghost predicate NetworkUnder(s: State, key: string) {
    exists e :: Present(s, e) && HasKey(e, key) && IsNetwork(e.id)
  }

  lemma {:induction false} PendingIsPresent(s: State, key: string) returns (e: Slot)
    requires OwnerMatches(s) && Pending(s.desk, key)
    ensures Present(s, e) && HasKey(e, key)
  {
    if s.desk.playing && s.desk.playingKey == key {
      e := s.owner.entry;
    } else {
      var i :| 0 <= i < |s.desk.entries| && HasKey(s.desk.entries[i], key);
      e := s.desk.entries[i];
    }
  }

  lemma {:induction false} SpokenIsKept(s: State, e: Slot, key: string, schedule: seq<Action>)
    requires Inv(s) && Present(s, e) && IsSpoken(e, key)
    ensures Kept(Run(s, schedule), |s.finished|, key)
  {
    AcceptedPromptIsPlayed(s, schedule, e);
    var t := Run(s, schedule);
    if FinishedSince(t, |s.finished|, e) {
      var j :| |s.finished| <= j < |t.finished| && t.finished[j].0 == e;
      assert IsSpoken(t.finished[j].0, key);
    }
  }

  /** Whatever is pending under the key is a network prompt that the connection has overtaken. */
  ghost predicate Doomed(s: State, key: string) {
    && (forall i :: 0 <= i < |s.desk.entries| && HasKey(s.desk.entries[i], key) ==> Dropped(s.desk.entries[i], s.connected))
    && (s.owner.Rechecking? && HasKey(s.owner.entry, key) ==> !Relevant(s.owner.entry.id, s.connected))
    && (s.owner.Playing? ==> !HasKey(s.owner.entry, key))
  }

  /** What brings the owner to its next choice. */
  function OwnerTurn(s: State): Action {
    match s.owner
    case Blocked => if s.notified then WakeUp else Notify
    case Taking => TakeNext
    case Rechecking(_) => Recheck
    case Playing(_) => Finish(OK)
  }

  function OwnerRank(s: State): nat {
    match s.owner
    case Blocked => if s.notified then 1 else 2
    case Taking => 0
    case Rechecking(_) => 4
    case Playing(_) => 3
  }

  lemma {:induction false} DoomedTurn(s: State, key: string, from: nat)
    requires Inv(s) && Doomed(s, key) && !SpokenSince(s, from, key)
    requires !s.owner.Taking? && (s.notified || s.owed > 0)
    ensures Enabled(s, OwnerTurn(s))
    ensures var t := Step(s, OwnerTurn(s));
      && Doomed(t, key) && !SpokenSince(t, from, key)
      && OwnerRank(t) < OwnerRank(s) && (t.notified || t.owed > 0 || t.owner.Taking?)
  {
    var t := Step(s, OwnerTurn(s));
    forall j | from <= j < |t.finished|
      ensures !IsSpoken(t.finished[j].0, key)
    {
      if j < |s.finished| {
        assert t.finished[j] == s.finished[j];
      }
    }
  }

  lemma {:induction false} DoomedIsDropped(s: State, key: string)
    requires Inv(s) && Doomed(s, key) && s.owner.Taking?
    ensures !Pending(Step(s, TakeNext).desk, key) && Step(s, TakeNext).finished == s.finished
  {
    var entries := DropIrrelevant(s.desk.entries, s.connected);
    assert forall i :: 0 <= i < |entries| ==> entries[i].Unused? || entries[i] == s.desk.entries[i];
    assert forall i :: 0 <= i < |entries| ==> !HasKey(entries[i], key);
  }

  lemma {:induction false} DoomedIsLost(s: State, key: string, from: nat) returns (schedule: seq<Action>)
    requires Inv(s) && Doomed(s, key) && !SpokenSince(s, from, key) && (s.notified || s.owed > 0 || s.owner.Taking?)
    ensures !Kept(Run(s, schedule), from, key)
    decreases OwnerRank(s)
  {
    var a, rest := OwnerTurn(s), [];
    if s.owner.Taking? {
      DoomedIsDropped(s, key);
    } else {
      DoomedTurn(s, key, from);
      StepKeepsInv(s, a);
      rest := DoomedIsLost(Step(s, a), key, from);
    }
    RunCons(s, a, rest);
    schedule := [a] + rest;
  }

  /** A network prompt can always go without its play, or its play ends without being the one asked for. */
  lemma {:induction false} NetworkPromptCanGo(s: State, key: string) returns (schedule: seq<Action>)
    requires Inv(s) && UniqueKeys(s.desk) && NetworkUnder(s, key)
    ensures !Kept(Run(s, schedule), |s.finished|, key)
  {
    var e :| Present(s, e) && HasKey(e, key) && IsNetwork(e.id);
    if s.owner == Playing(e) {
      RunCons(s, Finish(OK), []);
      schedule := [Finish(OK)] + [];
    } else {
      var a := SetConnected(e.id.NetworkRequired?);
      var t := Step(s, a);
      StepKeepsInv(s, a);
      UnderOneKey(s, e, key);
      var rest := DoomedIsLost(t, key, |s.finished|);
      RunCons(s, a, rest);
      schedule := [a] + rest;
    }
  }

  /** With unique keys a pending entry is the only one under its key. */
  lemma {:induction false} UnderOneKey(s: State, e: Slot, key: string)
    requires Inv(s) && UniqueKeys(s.desk) && Present(s, e) && HasKey(e, key)
    ensures forall i :: 0 <= i < |s.desk.entries| && HasKey(s.desk.entries[i], key) ==> s.desk.entries[i] == e
    ensures (s.owner.Rechecking? || s.owner.Playing?) && HasKey(s.owner.entry, key) ==> s.owner.entry == e
  {
    if e in s.desk.entries {
      var i :| 0 <= i < |s.desk.entries| && s.desk.entries[i] == e;
      assert HasKey(s.desk.entries[i], key);
    }
  }

  lemma {:induction false} SafeSubmissionIsKept(s: State, id: PromptId, key: string, schedule: seq<Action>)
    requires Inv(s) && key != "" && |key| < KEY_BYTES && !IsNetwork(id)
    requires SubmitResult(s.desk, key) == OK && !NetworkUnder(s, key)
    ensures Kept(Run(Step(s, Submit(id, key)), schedule), |s.finished|, key)
  {
    var e := Used(id, key);
    if Pending(s.desk, key) {
      e := PendingIsPresent(s, key);
    } else {
      SubmissionIsPresent(s, id, key);
      assert Stored(key) == key;
    }
    StepKeepsInv(s, Submit(id, key));
    SpokenIsKept(Step(s, Submit(id, key)), e, key, schedule);
  }

  lemma {:induction false} UnsafeSubmissionChangesNothing(s: State, id: PromptId, key: string)
    requires Inv(s) && key != "" && NetworkUnder(s, key)
    ensures Step(s, Submit(id, key)) == s
  {
    var e :| Present(s, e) && HasKey(e, key) && IsNetwork(e.id);
    PresentIsPending(s, e);
  }

  /** When an accepted submission of a prompt that is no network prompt is safe in every interleaving:
      exactly when no network prompt is pending under its key. A submission under the key of one is
      taken for a duplicate, whatever its own prompt is, and is lost with it. */
  lemma {:induction false} AcceptedIsKeptIff(before: seq<Action>, id: PromptId, key: string)
    requires KeysFit(before) && key != "" && |key| < KEY_BYTES && !IsNetwork(id)
    requires SubmitResult(Run(STARTED, before).desk, key) == OK
    ensures var s := Run(STARTED, before);
      AlwaysKept(Step(s, Submit(id, key)), |s.finished|, key) <==> !NetworkUnder(s, key)
  {
    var s := Run(STARTED, before);
    RunKeepsInv(STARTED, before);
    RunKeepsUnique(STARTED, before);
    var t := Step(s, Submit(id, key));
    if NetworkUnder(s, key) {
      UnsafeSubmissionChangesNothing(s, id, key);
      var schedule := NetworkPromptCanGo(s, key);
      assert !Kept(Run(t, schedule), |s.finished|, key);
    } else {
      forall schedule: seq<Action>
        ensures Kept(Run(t, schedule), |s.finished|, key)
      {
        SafeSubmissionIsKept(s, id, key, schedule);
      }
    }
  }

  // The submitted prompt itself: a duplicate is only as good as the prompt it duplicates.

  /** A waiter for the entry's key that comes back without a timeout comes back after that very entry
      was played. */
  ghost predicate KeptItself(t: State, from: nat, e: Slot)
    requires e.Used?
  {
    FinishedSince(t, from, e) || Pending(t.desk, e.key)
  }

  ghost predicate AlwaysKeptItself(s: State, from: nat, e: Slot)
    requires OwnerHoldsEntry(s.owner) && e.Used?
  {
    forall schedule :: KeptItself(Run(s, schedule), from, e)
  }

  /** Another prompt is pending under the key. */
  ghost predicate OtherUnder(s: State, id: PromptId, key: string) {
    exists x :: Present(s, x) && HasKey(x, key) && x.id != id
  }

  ghost predicate Absent(s: State, e: Slot, from: nat) {
    !Present(s, e) && !FinishedSince(s, from, e)
  }

  function Queued(entries: seq<Slot>): set<nat> { set i: nat | i < |entries| && entries[i].Used? }

  /** Outside a conversation the owner's turns bring the table nearer to empty, and add nothing to it. */
  lemma {:induction false} TurnDrains(s: State, e: Slot, from: nat)
    requires Inv(s) && !s.active && e.Used? && Absent(s, e, from)
    requires !s.owner.Taking? && (s.owner.Blocked? ==> s.notified || s.owed > 0)
    ensures Enabled(s, OwnerTurn(s))
    ensures var t := Step(s, OwnerTurn(s));
      && !t.active && Absent(t, e, from) && t.desk.entries == s.desk.entries
      && OwnerRank(t) < OwnerRank(s) && (t.owner.Blocked? ==> t.notified || t.owed > 0)
  {
    var t := Step(s, OwnerTurn(s));
    forall j | from <= j < |t.finished|
      ensures t.finished[j].0 != e
    {
      if j < |s.finished| {
        assert t.finished[j] == s.finished[j];
      }
    }
  }

  lemma {:induction false} TakeDrains(s: State, e: Slot, from: nat)
    requires Inv(s) && !s.active && e.Used? && Absent(s, e, from) && s.owner.Taking?
    ensures var t := Step(s, TakeNext);
      && !t.active && Absent(t, e, from)
      && if t.owner.Blocked? then !Pending(t.desk, e.key) else Queued(t.desk.entries) < Queued(s.desk.entries)
  {
    var entries := DropIrrelevant(s.desk.entries, s.connected);
    assert forall i :: 0 <= i < |entries| ==> entries[i].Unused? || entries[i] == s.desk.entries[i];
    var b := Best(entries, s.active, |entries|);
    BestIsMostUrgent(entries, s.active, |entries|);
    if b >= 0 {
      assert b in Queued(s.desk.entries) && b !in Queued(entries[b := Unused]);
      assert s.desk.entries[b] in s.desk.entries;
    } else {
      assert forall i :: 0 <= i < |entries| ==> !Playable(entries[i], s.active);
    }
  }

  lemma {:induction false} OthersDrain(s: State, e: Slot, from: nat) returns (schedule: seq<Action>)
    requires Inv(s) && !s.active && e.Used? && Absent(s, e, from)
    requires s.owner.Blocked? ==> s.notified || s.owed > 0
    ensures !KeptItself(Run(s, schedule), from, e)
    decreases Queued(s.desk.entries), OwnerRank(s)
  {
    var a, rest := OwnerTurn(s), [];
    if s.owner.Taking? {
      TakeDrains(s, e, from);
    } else {
      TurnDrains(s, e, from);
    }
    var t := Step(s, a);
    StepKeepsInv(s, a);
    if !(s.owner.Taking? && t.owner.Blocked?) {
      rest := OthersDrain(t, e, from);
    }
    RunCons(s, a, rest);
    schedule := [a] + rest;
  }

  /** When an accepted submission guarantees the play of the very prompt submitted (one that is no
      network prompt): exactly when no other prompt is pending under its key. */
  lemma {:induction false} SubmittedIsPlayedIff(before: seq<Action>, id: PromptId, key: string)
    requires KeysFit(before) && key != "" && |key| < KEY_BYTES && !IsNetwork(id)
    requires SubmitResult(Run(STARTED, before).desk, key) == OK
    ensures var s := Run(STARTED, before);
      AlwaysKeptItself(Step(s, Submit(id, key)), |s.finished|, Used(id, key)) <==> !OtherUnder(s, id, key)
  {
    var s, e := Run(STARTED, before), Used(id, key);
    RunKeepsInv(STARTED, before);
    RunKeepsUnique(STARTED, before);
    if OtherUnder(s, id, key) {
      var schedule := DuplicateCanGoUnplayed(s, id, key);
      assert !KeptItself(Run(Step(s, Submit(id, key)), schedule), |s.finished|, e);
    } else {
      forall schedule: seq<Action>
        ensures KeptItself(Run(Step(s, Submit(id, key)), schedule), |s.finished|, e)
      {
        OwnSubmissionIsKept(s, id, key, schedule);
      }
    }
  }

  lemma {:induction false} DuplicateCanGoUnplayed(s: State, id: PromptId, key: string) returns (schedule: seq<Action>)
    requires Inv(s) && UniqueKeys(s.desk) && key != "" && OtherUnder(s, id, key)
    ensures !KeptItself(Run(Step(s, Submit(id, key)), schedule), |s.finished|, Used(id, key))
  {
    var x :| Present(s, x) && HasKey(x, key) && x.id != id;
    PresentIsPending(s, x);
    UnderOneKey(s, x, key);
    var t := Step(s, SetActive(false));
    StepKeepsInv(s, SetActive(false));
    var rest := OthersDrain(t, Used(id, key), |s.finished|);
    RunCons(s, SetActive(false), rest);
    schedule := [SetActive(false)] + rest;
  }

  lemma {:induction false} OwnSubmissionIsKept(s: State, id: PromptId, key: string, schedule: seq<Action>)
    requires Inv(s) && key != "" && |key| < KEY_BYTES && !IsNetwork(id)
    requires SubmitResult(s.desk, key) == OK && !OtherUnder(s, id, key)
    ensures KeptItself(Run(Step(s, Submit(id, key)), schedule), |s.finished|, Used(id, key))
  {
    var e, t := Used(id, key), Step(s, Submit(id, key));
    if Pending(s.desk, key) {
      var x := PendingIsPresent(s, key);
      assert x == e;
    } else {
      SubmissionIsPresent(s, id, key);
      assert Stored(key) == key;
    }
    StepKeepsInv(s, Submit(id, key));
    AcceptedPromptIsPlayed(t, schedule, e);
  }

  const ONE_QUEUED: seq<Slot> :=
    [Used(NetworkRequired, "k"), Unused, Unused, Unused, Unused, Unused, Unused, Unused]

  const ONE_WAITING := STARTED.(desk := Desk(ONE_QUEUED, false, ""), owed := 1)

  /** Such a run begins: the second prompt is accepted under the key of the first, and nothing changes. */
  lemma {:induction false} DuplicateOfNetworkPromptIsAccepted()
    ensures Next(STARTED, Submit(NetworkRequired, "k")) == ONE_WAITING
    ensures SubmitResult(ONE_WAITING.desk, "k") == OK && Next(ONE_WAITING, Submit(BootBell, "k")) == ONE_WAITING
  {
    assert FirstFree(EMPTY) == 0 && Stored("k") == "k" && EMPTY[0 := Used(NetworkRequired, "k")] == ONE_QUEUED;
    assert Submitted(STARTED.desk, NetworkRequired, "k") == ONE_WAITING.desk;
    assert HasKey(ONE_QUEUED[0], "k");
  }

  /** And so it ends: the connection comes, neither is ever played, and a waiter for the key hears OK. */
  lemma {:induction false} DuplicateOfNetworkPromptIsLost()
    ensures var s := Run(ONE_WAITING, [SetConnected(true), Notify, WakeUp, TakeNext]);
      s.begun == [] && s.finished == [] && !Pending(s.desk, "k") && WaitResult(s, "k") == OK
  {
    var s := ONE_WAITING.(connected := true, owed := 1, notified := false, owner := Taking);
    RunFour(ONE_WAITING, SetConnected(true), Notify, WakeUp, TakeNext);
    assert Next(Next(Next(ONE_WAITING, SetConnected(true)), Notify), WakeUp) == s;
    DoomedIsDropped(s, "k");
  }

  lemma {:induction false} RunCons(s: State, a: Action, rest: seq<Action>)
    requires OwnerHoldsEntry(s.owner)
    ensures Run(s, [a] + rest) == Run(Next(s, a), rest)
  {
    assert ([a] + rest)[1..] == rest;
  }

  lemma {:induction false} RunFour(s: State, a: Action, b: Action, c: Action, d: Action)
    requires OwnerHoldsEntry(s.owner)
    ensures Run(s, [a, b, c, d]) == Next(Next(Next(Next(s, a), b), c), d)
  {
    assert [a, b, c, d] == [a] + ([b] + ([c] + ([d] + [])));
    RunCons(s, a, [b] + ([c] + ([d] + [])));
    RunCons(Next(s, a), b, [c] + ([d] + []));
    RunCons(Next(Next(s, a), b), c, [d] + []);
    RunCons(Next(Next(Next(s, a), b), c), d, []);
  }

  // ---------------------------------------------------------------- how any prompt leaves

  /** Here the prompt leaves the arbiter: its play ends; the connection has overtaken it; or it is put
      back for a conversation while the table is full. */
  ghost predicate LeavesAt(s: State, a: Action, e: Slot)
    requires OwnerMatches(s) && e.Used?
  {
    match a
    case Finish(_) => s.owner == Playing(e) && e !in s.desk.entries
    case TakeNext =>
      s.owner.Taking? && ((e.id.NetworkRequired? && s.connected) || (e.id.NetworkConnected? && !s.connected))
    case Recheck =>
      && s.owner == Rechecking(e) && e !in s.desk.entries
      && (if s.active && IsNetwork(e.id) then Full(s.desk.entries)
          else (e.id.NetworkRequired? && s.connected) || (e.id.NetworkConnected? && !s.connected))
    case _ => false
  }

  /** And in no other way, whatever prompt it is. */
  lemma {:induction false} PromptLeavesIff(s: State, a: Action, e: Slot)
    requires Inv(s) && Enabled(s, a) && e.Used? && Present(s, e)
    ensures !Present(Step(s, a), e) <==> LeavesAt(s, a, e)
  {
    match a
    case Submit(id, key) =>
      if e in s.desk.entries {
        InsertKeepsOthers(s.desk.entries, Used(id, Stored(key)), e);
      }
    case TakeNext => TakeLeavesIff(s, e);
    case Recheck =>
      if e in s.desk.entries {
        InsertKeepsOthers(s.desk.entries, s.owner.entry, e);
      } else {
        RecheckLeavesIff(s, e);
      }
    case _ =>
  }

  lemma {:induction false} TakeLeavesIff(s: State, e: Slot)
    requires Inv(s) && e.Used? && Present(s, e) && s.owner.Taking?
    ensures !Present(Step(s, TakeNext), e) <==> LeavesAt(s, TakeNext, e)
  {
    var entries := DropIrrelevant(s.desk.entries, s.connected);
    var b := Best(entries, s.active, |entries|);
    var i :| 0 <= i < |s.desk.entries| && s.desk.entries[i] == e;
    if Relevant(e.id, s.connected) {
      assert entries[i] == e;
      assert b >= 0 && b != i ==> entries[b := Unused][i] == e;
    }
  }

  lemma {:induction false} RecheckLeavesIff(s: State, e: Slot)
    requires Inv(s) && e.Used? && Present(s, e) && s.owner.Rechecking? && e !in s.desk.entries
    ensures !Present(Step(s, Recheck), e) <==> LeavesAt(s, Recheck, e)
  {
    var i := FirstFree(s.desk.entries);
    assert i < |s.desk.entries| ==> Insert(s.desk.entries, e)[i] == e;
  }

  function Unlike(slot: Slot, i: nat): char {
    if slot.Used? && i < |slot.key| && slot.key[i] == 'a' then 'b' else 'a'
  }

  /** A key that differs from the i-th one in its i-th letter. */
  function NewKey(d: Desk): (key: string)
    requires |d.entries| == CAPACITY
    ensures 0 < |key| < KEY_BYTES && !Pending(d, key)
  {
    var all := d.entries + [Used(BootBell, d.playingKey)];
    var key := seq(CAPACITY + 1, i requires 0 <= i <= CAPACITY => Unlike(all[i], i));
    assert forall i :: 0 <= i < |all| && HasKey(all[i], key) ==> key[i] == Unlike(all[i], i);
    assert all[CAPACITY] == Used(BootBell, d.playingKey) && key[CAPACITY] == Unlike(all[CAPACITY], CAPACITY);
    assert forall i :: 0 <= i < |d.entries| ==> all[i] == d.entries[i];
    key
  }

  lemma {:induction false} FreeAfterInsert(entries: seq<Slot>, e: Slot)
    requires e.Used? && !Full(entries)
    ensures Free(Insert(entries, e)) < Free(entries)
  {
    var more := Insert(entries, e);
    assert forall i :: 0 <= i < |entries| && i != FirstFree(entries) ==> more[i] == entries[i];
    assert FirstFree(entries) in Free(entries) && FirstFree(entries) !in Free(more);
  }

  function Free(entries: seq<Slot>): set<nat> { set i: nat | i < |entries| && entries[i].Unused? }

  /** Submissions fill the table while the owner is on its way to the recheck. */
  lemma {:induction false} FillsUp(s: State, e: Slot) returns (schedule: seq<Action>)
    requires Inv(s) && s.owner == Rechecking(e) && e !in s.desk.entries
    ensures var t := Run(s, schedule);
      && Inv(t) && t.owner == s.owner && Full(t.desk.entries) && e !in t.desk.entries
      && t.connected == s.connected && t.finished == s.finished && t.active == s.active
    decreases Free(s.desk.entries)
  {
    if Full(s.desk.entries) {
      schedule := [];
    } else {
      var key := NewKey(s.desk);
      var a := Submit(BootBell, key);
      var t := Step(s, a);
      StepKeepsInv(s, a);
      FreeAfterInsert(s.desk.entries, Used(BootBell, key));
      assert Stored(key) == key && e.key != key;
      var rest := FillsUp(t, e);
      RunCons(s, a, rest);
      schedule := [a] + rest;
    }
  }

  /** So a network prompt that has been chosen can be lost at its recheck although the connection still
      asks for it, and although its submission was accepted. */
  lemma {:induction false} DeferredCanBeLost(s: State, e: Slot) returns (schedule: seq<Action>)
    requires Inv(s) && UniqueKeys(s.desk) && s.owner == Rechecking(e)
    requires (e.id.NetworkRequired? && !s.connected) || (e.id.NetworkConnected? && s.connected)
    ensures var t := Run(s, schedule);
      !Present(t, e) && t.finished == s.finished && t.connected == s.connected
  {
    assert !InTable(s.desk.entries, e.key);
    assert forall i :: 0 <= i < |s.desk.entries| ==> !HasKey(s.desk.entries[i], e.key);
    var before := FillsUp(s, e);
    var t := Run(s, before);
    var t1, t2 := Next(t, SetActive(true)), Next(Next(t, SetActive(true)), Recheck);
    StepKeepsInv(t, SetActive(true));
    PromptLeavesIff(t1, Recheck, e);
    RunSnoc(s, before, SetActive(true));
    RunSnoc(s, before + [SetActive(true)], Recheck);
    schedule := before + [SetActive(true)] + [Recheck];
  }

  // ---------------------------------------------------------------- what plays, and what a waiter is told

  ghost predicate Logged(s: State) {
    && (forall i :: 0 <= i < |s.begun| ==>
          && s.begun[i].entry.Used?
          && (IsNetwork(s.begun[i].entry.id) ==>
                !s.begun[i].active && Relevant(s.begun[i].entry.id, s.begun[i].connected)))
    && |s.begun| == |s.finished| + (if s.owner.Playing? then 1 else 0)
    && (forall i :: 0 <= i < |s.finished| ==> s.finished[i].0 == s.begun[i].entry)
    && (s.owner.Playing? ==> s.begun[|s.begun| - 1].entry == s.owner.entry)
    && s.last == (if s.finished == [] then NoResult
                  else var f := s.finished[|s.finished| - 1]; Result(KeyOf(f.0), f.1))
  }

  function KeyOf(slot: Slot): string { if slot.Used? then slot.key else "" }

  lemma {:induction false} QuietStepsKeepLog(s: State, a: Action)
    requires OwnerHoldsEntry(s.owner) && Enabled(s, a) && !a.Recheck? && !a.Finish?
    ensures var t := Step(s, a);
      && t.begun == s.begun && t.finished == s.finished && t.last == s.last
      && t.owner.Playing? == s.owner.Playing? && (s.owner.Playing? ==> t.owner == s.owner)
  {
  }

  lemma {:induction false} StepKeepsLog(s: State, a: Action)
    requires OwnerHoldsEntry(s.owner) && Logged(s) && Enabled(s, a)
    ensures Logged(Step(s, a))
  {
    if a.Finish? {
      FinishKeepsLog(s, a.err);
    } else if !a.Recheck? {
      QuietStepsKeepLog(s, a);
    }
  }

  lemma {:induction false} FinishKeepsLog(s: State, err: EspErr)
    requires OwnerHoldsEntry(s.owner) && Logged(s) && s.owner.Playing?
    ensures Logged(Step(s, Finish(err)))
  {
  }

  lemma {:induction false} RunKeepsLog(s: State, schedule: seq<Action>)
    requires OwnerHoldsEntry(s.owner) && Logged(s)
    ensures Logged(Run(s, schedule))
    decreases |schedule|
  {
    if schedule != [] {
      if Enabled(s, schedule[0]) {
        StepKeepsLog(s, schedule[0]);
      }
      RunKeepsLog(Next(s, schedule[0]), schedule[1..]);
    }
  }

  /** A network prompt begins only if the recheck saw the matching connection flag and no
      conversation; prompts end in the order they began, one at a time. */
  lemma {:induction false} NetworkPromptsAreRechecked(schedule: seq<Action>)
    ensures var s := Run(STARTED, schedule);
      && (forall i :: 0 <= i < |s.begun| ==> s.begun[i].entry.Used?)
      && (forall i :: 0 <= i < |s.begun| && s.begun[i].entry.id.NetworkRequired? ==>
            !s.begun[i].active && !s.begun[i].connected)
      && (forall i :: 0 <= i < |s.begun| && s.begun[i].entry.id.NetworkConnected? ==>
            !s.begun[i].active && s.begun[i].connected)
      && |s.finished| <= |s.begun| <= |s.finished| + 1
      && (forall i :: 0 <= i < |s.finished| ==> s.finished[i].0 == s.begun[i].entry)
  {
    RunKeepsLog(STARTED, schedule);
  }

  /** What a waiter is told about a prompt that was played: its result if it was the last to end;
      otherwise OK, even if it failed. */
  lemma {:induction false} WaiterHearsOnlyTheLast(schedule: seq<Action>, j: nat)
    requires j < |Run(STARTED, schedule).finished| && Run(STARTED, schedule).finished[j].0.Used?
    ensures var s := Run(STARTED, schedule);
      var key := s.finished[j].0.key;
      WaitResult(s, key) ==
        if KeyOf(s.finished[|s.finished| - 1].0) == key then s.finished[|s.finished| - 1].1 else OK
  {
    RunKeepsLog(STARTED, schedule);
  }

  // ---------------------------------------------------------------- wake-ups

  ghost predicate NothingPlayable(s: State) {
    forall i :: 0 <= i < |s.desk.entries| ==>
      !Playable(s.desk.entries[i], s.active) || Dropped(s.desk.entries[i], s.connected)
  }

  /** A blocked owner with no notification, given or owed, has nothing to play. */
  ghost predicate Awake(s: State) {
    s.owner.Blocked? && !s.notified && s.owed == 0 ==> NothingPlayable(s)
  }

  /** A conversation begins between the owner's choice of a network prompt and its recheck. */
  predicate Interrupts(s: State, a: Action)
    requires OwnerHoldsEntry(s.owner)
  {
    a == SetActive(true) && s.owner.Rechecking? && IsNetwork(s.owner.entry.id)
  }

  ghost predicate Calm(s: State) {
    && Inv(s) && Awake(s)
    && (s.owner.Rechecking? ==> !Deferred(s.owner.entry, s.active))
  }

  lemma {:induction false} StepKeepsCalm(s: State, a: Action)
    requires Calm(s) && Enabled(s, a) && !Interrupts(s, a)
    ensures Calm(Step(s, a))
  {
    StepKeepsInv(s, a);
    if a.TakeNext? {
      var entries := DropIrrelevant(s.desk.entries, s.connected);
      BestIsMostUrgent(entries, s.active, |entries|);
    }
  }

  ghost predicate Uninterrupted(s: State, schedule: seq<Action>)
    requires OwnerHoldsEntry(s.owner)
    decreases |schedule|
  {
    schedule != [] ==> !Interrupts(s, schedule[0]) && Uninterrupted(Next(s, schedule[0]), schedule[1..])
  }

  lemma {:induction false} RunKeepsCalm(s: State, schedule: seq<Action>)
    requires Calm(s) && Uninterrupted(s, schedule)
    ensures Calm(Run(s, schedule))
    decreases |schedule|
  {
    if schedule != [] {
      if Enabled(s, schedule[0]) {
        StepKeepsCalm(s, schedule[0]);
      }
      RunKeepsCalm(Next(s, schedule[0]), schedule[1..]);
    }
  }

  /** No wake-up is lost, unless a conversation begins just before a network prompt is rechecked. */
  lemma {:induction false} NoWakeUpIsLost(schedule: seq<Action>)
    requires Uninterrupted(STARTED, schedule)
    ensures Awake(Run(STARTED, schedule))
  {
    RunKeepsCalm(STARTED, schedule);
  }

  // When one is lost, exactly.

  /** The owner blocks on a network prompt that it puts back for a conversation, with no notification
      given or owed, while another entry could be played. */
  ghost predicate Strands(s: State, a: Action) {
    && a.Recheck? && s.owner.Rechecking? && OwnerHoldsEntry(s.owner)
    && Relevant(s.owner.entry.id, s.connected) && Deferred(s.owner.entry, s.active)
    && !s.notified && s.owed == 0 && !NothingPlayable(s)
  }

  lemma {:induction false} RecheckStrandsIff(s: State)
    requires Inv(s) && s.owner.Rechecking?
    ensures !Awake(Step(s, Recheck)) <==> Strands(s, Recheck)
  {
    var t := Step(s, Recheck);
    var i := FirstFree(s.desk.entries);
    if Deferred(s.owner.entry, s.active) {
      assert forall j :: 0 <= j < |s.desk.entries| && j != i ==> t.desk.entries[j] == s.desk.entries[j];
      assert i < |s.desk.entries| ==> !Playable(t.desk.entries[i], t.active);
    }
  }

  /** Only a recheck puts the owner to sleep over something playable, and only what owes the owner a
      notification makes up for it. */
  lemma {:induction false} StepAwakeIff(s: State, a: Action)
    requires Inv(s) && Enabled(s, a) && (Awake(s) || s.active)
    ensures Awake(Step(s, a)) <==> if Awake(s) then !Strands(s, a) else Rouses(s, a)
    ensures Awake(Step(s, a)) || Step(s, a).active
  {
    match a
    case Recheck => RecheckStrandsIff(s);
    case TakeNext =>
      var entries := DropIrrelevant(s.desk.entries, s.connected);
      BestIsMostUrgent(entries, s.active, |entries|);
    case _ =>
  }

  /** Action k puts the owner to sleep, and no later one makes up for it. */
  ghost predicate LostAt(schedule: seq<Action>, k: nat)
    requires k < |schedule|
  {
    && Strands(Run(STARTED, schedule[..k]), schedule[k])
    && forall j :: k < j < |schedule| ==> !Rouses(Run(STARTED, schedule[..j]), schedule[j])
  }

  lemma {:induction false} RunSnoc(s: State, schedule: seq<Action>, a: Action)
    requires OwnerHoldsEntry(s.owner)
    ensures Run(s, schedule + [a]) == Next(Run(s, schedule), a)
    decreases |schedule|
  {
    if schedule == [] {
      RunCons(s, a, []);
      assert [] + [a] == [a] + [];
    } else {
      assert (schedule + [a])[1..] == schedule[1..] + [a];
      RunSnoc(Next(s, schedule[0]), schedule[1..], a);
    }
  }

  lemma {:induction false} LostAtSnoc(schedule: seq<Action>, a: Action, k: nat)
    requires k < |schedule|
    ensures LostAt(schedule + [a], k) <==> LostAt(schedule, k) && !Rouses(Run(STARTED, schedule), a)
  {
    var more := schedule + [a];
    assert more[..|schedule|] == schedule && more[|schedule|] == a;
    assert forall j :: 0 <= j < |schedule| ==> more[..j] == schedule[..j] && more[j] == schedule[j];
  }

  lemma {:induction false} LostAtLast(schedule: seq<Action>, a: Action)
    ensures LostAt(schedule + [a], |schedule|) <==> Strands(Run(STARTED, schedule), a)
  {
    assert (schedule + [a])[..|schedule|] == schedule;
  }

  /** In every interleaving: the owner sleeps over something playable exactly when a recheck put it to
      sleep so and nothing has owed it a notification since. */
  lemma {:induction false} WakeUpIsLostIff(schedule: seq<Action>)
    ensures !Awake(Run(STARTED, schedule)) <==> exists k :: 0 <= k < |schedule| && LostAt(schedule, k)
    ensures Awake(Run(STARTED, schedule)) || Run(STARTED, schedule).active
    decreases |schedule|
  {
    if schedule != [] {
      var n := |schedule| - 1;
      var shorter, a := schedule[..n], schedule[n];
      var s := Run(STARTED, shorter);
      assert schedule == shorter + [a];
      WakeUpIsLostIff(shorter);
      RunKeepsInv(STARTED, shorter);
      RunSnoc(STARTED, shorter, a);
      LostAtLast(shorter, a);
      forall k | 0 <= k < n
        ensures LostAt(schedule, k) <==> LostAt(shorter, k) && !Rouses(s, a)
      {
        LostAtSnoc(shorter, a, k);
      }
      LastDecides(s, a);
    }
  }

  lemma {:induction false} LastDecides(s: State, a: Action)
    requires Inv(s) && (Awake(s) || s.active)
    ensures !Awake(Next(s, a)) <==> Strands(s, a) || (!Awake(s) && !Rouses(s, a))
    ensures Awake(Next(s, a)) || Next(s, a).active
  {
    if Enabled(s, a) {
      StepAwakeIff(s, a);
    }
  }

  /** So an interruption strands another entry exactly when its recheck still finds the prompt relevant,
      nobody has notified the owner or is about to, and a prompt that is no network prompt is queued. */
  lemma {:induction false} InterruptionStrandsIff(s: State)
    requires Calm(s) && s.owner.Rechecking? && IsNetwork(s.owner.entry.id)
    ensures var t := Step(s, SetActive(true));
      !Awake(Step(t, Recheck)) <==>
        && Relevant(s.owner.entry.id, s.connected) && !s.notified && s.owed == 0
        && exists i :: 0 <= i < |s.desk.entries| && Lasting(s.desk.entries[i])
  {
    var t := Step(s, SetActive(true));
    RecheckStrandsIff(t);
    assert forall i :: 0 <= i < |t.desk.entries| ==>
      (Lasting(t.desk.entries[i]) <==>
         Playable(t.desk.entries[i], true) && !Dropped(t.desk.entries[i], t.connected));
  }

  const QUEUE_TWO: seq<Action> := [Submit(NetworkRequired, "n"), Notify, Submit(BootBell, "b"), Notify]
  const INTERRUPTED: seq<Action> := [WakeUp, TakeNext, SetActive(true), Recheck]

  const STRANDED: seq<Slot> :=
    [Used(NetworkRequired, "n"), Used(BootBell, "b"), Unused, Unused, Unused, Unused, Unused, Unused]

  const BOTH_QUEUED := STARTED.(desk := Desk(STRANDED, false, ""), notified := true)

  const ONE_STORED: seq<Slot> :=
    [Used(NetworkRequired, "n"), Unused, Unused, Unused, Unused, Unused, Unused, Unused]

  const FIRST_QUEUED := STARTED.(desk := Desk(ONE_STORED, false, ""), notified := true)

  lemma {:induction false} OneIsQueued()
    ensures Next(Next(STARTED, QUEUE_TWO[0]), Notify) == FIRST_QUEUED
  {
    assert FirstFree(EMPTY) == 0 && Stored("n") == "n" && EMPTY[0 := Used(NetworkRequired, "n")] == ONE_STORED;
    assert Submitted(STARTED.desk, NetworkRequired, "n") == FIRST_QUEUED.desk;
  }

  lemma {:induction false} BothAreQueued()
    ensures Run(STARTED, QUEUE_TWO) == BOTH_QUEUED
  {
    RunFour(STARTED, QUEUE_TWO[0], Notify, QUEUE_TWO[2], Notify);
    OneIsQueued();
    assert ONE_STORED[1..][0].Unused? && FirstFree(ONE_STORED) == 1;
    assert Stored("b") == "b" && ONE_STORED[1 := Used(BootBell, "b")] == STRANDED;
    assert !InTable(ONE_STORED, "b");
    assert Submitted(FIRST_QUEUED.desk, BootBell, "b") == BOTH_QUEUED.desk;
  }

  const LEFT_BEHIND := BOTH_QUEUED.(active := true, notified := false)

  lemma {:induction false} RecheckDefers()
    ensures Next(Next(Next(Next(BOTH_QUEUED, WakeUp), TakeNext), SetActive(true)), Recheck) == LEFT_BEHIND
  {
    var s3 := BOTH_QUEUED.(notified := false, owner := Taking);
    StrandedTake(s3);
    var rest: seq<Slot> := STRANDED[0 := Unused];
    var s5 := s3.(desk := Desk(rest, true, "n"), owner := Rechecking(STRANDED[0]), active := true);
    assert FirstFree(rest) == 0 && rest[0 := STRANDED[0]] == STRANDED;
    assert Next(s5, Recheck) == LEFT_BEHIND;
  }

  /** And that happens: the owner blocks on the deferred prompt while another could play. */
  lemma {:induction false} InterruptionStrandsAPrompt()
    ensures var s := Run(STARTED, QUEUE_TWO + INTERRUPTED);
      && s.owner.Blocked? && !s.notified && s.owed == 0 && !Awake(s)
      && s.desk.entries == STRANDED && Playable(s.desk.entries[1], s.active)
  {
    RunAppend(STARTED, QUEUE_TWO, INTERRUPTED);
    BothAreQueued();
    RunFour(BOTH_QUEUED, WakeUp, TakeNext, SetActive(true), Recheck);
    RecheckDefers();
    assert !NothingPlayable(LEFT_BEHIND) by {
      assert Playable(LEFT_BEHIND.desk.entries[1], true) && !Dropped(LEFT_BEHIND.desk.entries[1], false);
    }
  }

  lemma {:induction false} RunAppend(s: State, a: seq<Action>, b: seq<Action>)
    requires OwnerHoldsEntry(s.owner)
    ensures Run(s, a + b) == Run(Run(s, a), b)
    decreases |a|
  {
    if a == [] {
      assert a + b == b;
    } else {
      assert (a + b)[1..] == a[1..] + b;
      RunAppend(Next(s, a[0]), a[1..], b);
    }
  }

  lemma {:induction false} StrandedTake(s: State)
    requires s.owner.Taking? && s.desk.entries == STRANDED && !s.active && !s.connected
    ensures Next(s, TakeNext)
              == s.(desk := Desk(STRANDED[0 := Unused], true, "n"), owner := Rechecking(STRANDED[0]))
  {
    assert DropIrrelevant(STRANDED, false) == STRANDED;
    BestIsMostUrgent(STRANDED, false, 8);
    assert Playable(STRANDED[0], false);
  }

  // ---------------------------------------------------------------- the shared object

  lemma {:induction false} FirstFreeIs(entries: seq<Slot>, i: nat)
    requires i <= |entries| && (i < |entries| ==> entries[i].Unused?)
    requires forall j :: 0 <= j < i ==> entries[j].Used?
    ensures FirstFree(entries) == i
  {
    if i > 0 {
      FirstFreeIs(entries[1..], i - 1);
    }
  }

  /** The arbiter's static variables. */
  class Arbiter {
    const entries: array<Slot>
    var playing: bool
    var playingKey: string
    var active: bool
    var connected: bool
    ghost var owed: nat
    var notified: bool
    var owner: Owner
    var last: Last
    ghost var begun: seq<Begun>
    ghost var finished: seq<(Slot, EspErr)>

    ghost function Now(): State
      reads this, entries
    {
      State(Desk(entries[..], playing, playingKey), active, connected, owed, notified, owner, last, begun, finished)
    }

    constructor ()
      ensures Now() == STARTED && fresh(entries)
    {
      entries := new Slot[CAPACITY](_ => Unused);
      playing, playingKey, active, connected, owed, notified := false, "", false, false, 0, false;
      owner, last := Blocked, NoResult;
      begun, finished := [], [];
      new;
      assert entries[..] == EMPTY;
    }

    /** The scan of a submission: is the key known, and where is there room. */
    method Look(key: string) returns (known: bool, free: nat)
      ensures known <==> Pending(Now().desk, key)
      ensures !known ==> free == FirstFree(entries[..])
    {
      if playing && playingKey == key {
        return true, 0;
      }
      free := entries.Length;
      for index := 0 to entries.Length
        invariant forall j :: 0 <= j < index ==> !HasKey(entries[j], key)
        invariant if free < entries.Length then free < index && entries[free].Unused? else free == entries.Length
        invariant forall j :: 0 <= j < index && j < free ==> entries[j].Used?
      {
        if entries[index].Used? && entries[index].key == key {
          assert HasKey(entries[..][index], key);
          return true, 0;
        }
        if entries[index].Unused? && free == entries.Length {
          free := index;
        }
      }
      FirstFreeIs(entries[..], free);
      return false, free;
    }

    /** The critical section of a submission. */
    method EnterPrompt(id: PromptId, key: string) returns (err: EspErr, entered: bool)
      requires OwnerHoldsEntry(owner) && key != ""
      modifies this, entries
      ensures err == SubmitResult(old(Now()).desk, key) && Now() == Step(old(Now()), Submit(id, key))
      ensures entered == old(Rouses(Now(), Submit(id, key)))
    {
      var known, free := Look(key);
      if known {
        return OK, false;
      }
      if free == entries.Length {
        return NoMem, false;
      }
      entries[free] := Used(id, key[..Min(|key|, KEY_BYTES - 1)]);
      assert entries[..] == Insert(old(entries[..]), Used(id, Stored(key)));
      owed := owed + 1;
      return OK, true;
    }

    method NotifyOwner()
      requires OwnerHoldsEntry(owner) && owed > 0
      modifies this
      ensures Now() == Step(old(Now()), Notify)
    {
      owed := owed - 1;
      notified := true;
    }

    method SubmitPrompt(id: PromptId, key: string) returns (err: EspErr)
      requires OwnerHoldsEntry(owner)
      modifies this, entries
      ensures key == "" ==> err == InvalidState && Now() == old(Now())
      ensures key != "" ==> err == SubmitResult(old(Now()).desk, key)
      ensures key != "" ==> Now() == var s := old(Now()); var t := Step(s, Submit(id, key));
                if Rouses(s, Submit(id, key)) then Step(t, Notify) else t
    {
      if |key| == 0 {
        return InvalidState;
      }
      var entered;
      err, entered := EnterPrompt(id, key);
      if entered {
        NotifyOwner();
      }
    }

    /** The scan of `prompt_arbiter_take_next`: drops what is no longer relevant, selects the rest. */
    method SelectNext() returns (selected: int)
      modifies entries
      ensures entries[..] == DropIrrelevant(old(entries[..]), connected)
      ensures selected == Best(entries[..], active, entries.Length)
    {
      selected := -1;
      ghost var was := entries[..];
      ghost var kept := DropIrrelevant(was, connected);
      for index := 0 to entries.Length
        invariant forall j :: 0 <= j < index ==> entries[j] == kept[j]
        invariant forall j :: index <= j < entries.Length ==> entries[j] == was[j]
        invariant selected == Best(kept, active, index)
      {
        if entries[index].Unused? {
          continue;
        }
        if !Relevant(entries[index].id, connected) {
          entries[index] := Unused;
          continue;
        }
        if active && IsNetwork(entries[index].id) {
          continue;
        }
        if selected < 0 || Rank(entries[index].id) > Rank(entries[selected].id) {
          selected := index;
        }
      }
      assert entries[..] == kept;
    }

    method TakeNextPrompt()
      requires owner.Taking?
      modifies this, entries
      ensures Now() == Step(old(Now()), TakeNext)
    {
      var selected := SelectNext();
      if selected < 0 {
        owner := Blocked;
        return;
      }
      var entry := entries[selected];
      ghost var kept := entries[..];
      entries[selected] := Unused;
      assert entries[..] == kept[selected := Unused];
      playing, playingKey := true, entry.key;
      owner := Rechecking(entry);
    }

    method PutBack(entry: Slot)
      requires entry.Used?
      modifies entries
      ensures entries[..] == Insert(old(entries[..]), entry)
    {
      for index := 0 to entries.Length
        invariant forall j :: 0 <= j < index ==> entries[j].Used?
        invariant entries[..] == old(entries[..])
      {
        if entries[index].Unused? {
          FirstFreeIs(entries[..], index);
          entries[index] := entry;
          assert entries[..] == old(entries[..])[index := entry];
          return;
        }
      }
      FirstFreeIs(entries[..], entries.Length);
    }

    method RecheckPrompt()
      requires owner.Rechecking? && owner.entry.Used?
      modifies this, entries
      ensures Now() == Step(old(Now()), Recheck)
    {
      var entry := owner.entry;
      var relevant := Relevant(entry.id, connected);
      var deferred := active && IsNetwork(entry.id);
      if deferred {
        PutBack(entry);
      }
      if !relevant || deferred {
        playing, playingKey := false, "";
      }
      if !relevant {
        owner := Taking;
      } else if deferred {
        owner := Blocked;
      } else {
        owner := Playing(entry);
        begun := begun + [Begun(entry, connected, active)];
      }
    }

    method FinishPrompt(err: EspErr)
      requires owner.Playing? && owner.entry.Used?
      modifies this
      ensures Now() == Step(old(Now()), Finish(err))
    {
      last := Result(owner.entry.key, err);
      finished := finished + [(owner.entry, err)];
      playing, playingKey := false, "";
      owner := Taking;
    }

    /** One poll of `prompt_arbiter_wait_key`. */
    method PollKey(key: string) returns (done: bool, err: EspErr)
      ensures done <==> !Pending(Now().desk, key)
      ensures done ==> err == WaitResult(Now(), key)
    {
      var known, _ := Look(key);
      done := !known;
      err := if last.Result? && last.key == key then last.err else OK;
    }

    /** The critical sections of the two setters; the notification follows. */
    method SetConversationActive(on: bool)
      requires OwnerHoldsEntry(owner)
      modifies this
      ensures Now() == Step(old(Now()), SetActive(on))
    {
      active := on;
      if !on {
        owed := owed + 1;
      }
    }

    method SetNetworkConnected(on: bool)
      requires OwnerHoldsEntry(owner)
      modifies this
      ensures Now() == Step(old(Now()), SetConnected(on))
    {
      connected := on;
      owed := owed + 1;
    }
  }
}
