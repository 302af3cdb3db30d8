/** Over-the-air updates with rollback: the write-ahead record, the boot switch, the validation of a
    new image and its watchdog, across reboots and power cuts. Built with boot switching and rollback
    validation on. A step is one flash write, one decision of a task or one outside event; a power
    cut can come between any two. */
module Ota {
  import opened Bytes

  /** The two application slots. */
  datatype Slot = Ota0 | Ota1

  function Other(p: Slot): Slot { if p.Ota0? then Ota1 else Ota0 }

  type Digest = seq<byte>

  /** The hash is SHA-256 (FIPS 180-4), left uninterpreted. */
  type Hash = seq<byte> -> Digest

  datatype Manifest = Manifest(size: nat, sha256: Digest, release: string, version: string)

  /** The keys of the pending record in the order they are written. */
  datatype Key = KPending | KRelease | KVersion | KLabel | KAddress | KSha256 | KLastStage

  const KEYS: seq<Key> := [KPending, KRelease, KVersion, KLabel, KAddress, KSha256, KLastStage]

  datatype Value = One | Text(text: string) | Place(slot: Slot) | Sum(digest: Digest)

  type Nvs = map<Key, Value>

  /** The bootloader's view of the selected image: just selected, on trial, or trusted. */
  datatype Trust = Fresh | OnTrial | Trusted

  /** `fallback` is the slot the bootloader returns to when an image on trial reboots. */
  datatype Flash = Flash(image0: seq<byte>, image1: seq<byte>, boot: Slot, trust: Trust, fallback: Slot, nvs: Nvs)

  function Image(f: Flash, p: Slot): seq<byte> { if p.Ota0? then f.image0 else f.image1 }

  function WithImage(f: Flash, p: Slot, image: seq<byte>): Flash {
    if p.Ota0? then f.(image0 := image) else f.(image1 := image)
  }

  datatype Phase = Booting | Starting | NetworkUp | Ready | Halted

  datatype Updater =
    | NoUpdate
    | Writing(m: Manifest, received: seq<byte>)
    | Verified(m: Manifest)
    | Storing(m: Manifest, k: nat)
    | Stored(m: Manifest)
    | Switched(m: Manifest)
    | Undoing

  datatype Confirmer = NotStarted | Loading | Reporting(ok: bool) | Erasing | Gone

  datatype Validator = Idle | Marking | ErasingFirst | ReportingResult(marked: bool) | ErasingAgain

  /** `noted` remembers that network, migration and audio were seen ready together. */
  datatype Ram = Ram(
    running: Slot, phase: Phase, connected: bool, migrationReady: bool, audioReady: bool,
    validationPending: bool, timeoutArmed: bool, businessReady: bool, noted: bool,
    updater: Updater, confirmer: Confirmer, validator: Validator)

  /** Histories: every move of the boot pointer, and every time an image was marked valid. */
  datatype Move = Move(to: Slot, running: Slot, image: seq<byte>, m: Manifest, nvs: Nvs)

  datatype Mark = Mark(slot: Slot, ready: bool)

  datatype Log = Log(moves: seq<Move>, marks: seq<Mark>)

  datatype State = State(flash: Flash, ram: Ram, log: Log)

  datatype Action =
    | PowerCut
    | Prepare(readable: bool, taskOk: bool)
    | NetworkStarts(ok: bool)
    | StartConfirm(taskOk: bool)
    | AudioStarts(ok: bool)
    | SetConnected(on: bool)
    | NoteReady(taskOk: bool)
    | MarkValid(ok: bool)
    | ReportValid(ok: bool)
    | TimeoutFires
    | ConfirmLoads(readable: bool)
    | ConfirmReports(ok: bool)
    | BeginWrite(m: Manifest, ok: bool)
    | WriteChunk(chunk: seq<byte>, ok: bool)
    | EndStream(ok: bool)
    | BeginStore
    | StoreKey(ok: bool)
    | SetBoot(moved: bool)
    | Restart
    | EraseKey(key: Key)
    | EraseEnds(who: Eraser)
    | StoreStage(stage: string)

  datatype Eraser = ByUpdater | ByConfirmer | ByValidator

  // ---------------------------------------------------------------- the pieces

  /** What reset does: the bootloader starts a fresh image on trial, abandons one that rebooted on
      trial, and keeps a trusted one. */
  function Bootloader(f: Flash): Flash {
    match f.trust
    case Fresh => f.(trust := OnTrial)
    case OnTrial => f.(boot := f.fallback, trust := Trusted)
    case Trusted => f
  }

  function ColdRam(running: Slot): Ram {
    Ram(running, Booting, false, false, false, false, false, false, false, NoUpdate, NotStarted, Idle)
  }

  function Reboot(s: State): State {
    var f := Bootloader(s.flash);
    s.(flash := f, ram := ColdRam(f.boot))
  }

  datatype Loaded = Missing | Pending(named: Slot, address: Slot)

  /** `app_ota_p3c_load_pending`: every key but the last stage has to be there. */
  function Load(nvs: Nvs): Loaded {
    if KPending in nvs && KRelease in nvs && KVersion in nvs && KSha256 in nvs
       && KLabel in nvs && nvs[KLabel].Place? && KAddress in nvs && nvs[KAddress].Place?
    then Pending(nvs[KLabel].slot, nvs[KAddress].slot)
    else Missing
  }

  predicate Names(l: Loaded, p: Slot) { l == Pending(p, p) }

  function ValueOf(m: Manifest, p: Slot, key: Key): Value {
    match key
    case KPending => One
    case KRelease => Text(m.release)
    case KVersion => Text(m.version)
    case KLabel => Place(p)
    case KAddress => Place(p)
    case KSha256 => Sum(m.sha256)
    case KLastStage => Text("boot_switch_pending")
  }

  /** The first `k` keys of the record are those of this update. */
  predicate StoredUpTo(nvs: Nvs, m: Manifest, p: Slot, k: nat) {
    k <= |KEYS| && forall i :: 0 <= i < k && i < 6 ==> KEYS[i] in nvs && nvs[KEYS[i]] == ValueOf(m, p, KEYS[i])
  }

  predicate Matches(hash: Hash, image: seq<byte>, m: Manifest) {
    |image| == m.size && hash(image) == m.sha256
  }

  predicate Ready3(r: Ram) { r.connected && r.migrationReady && r.audioReady }

  /** `esp_ota_begin` refuses while the running image is on trial. */
  predicate OnTrialNow(s: State) { s.flash.trust.OnTrial? && s.ram.running == s.flash.boot }

  predicate MayUpdate(s: State) { s.ram.phase.Ready? && s.ram.updater.NoUpdate? && !OnTrialNow(s) }

  predicate Erases(r: Ram, who: Eraser) {
    match who
    case ByUpdater => r.updater.Undoing?
    case ByConfirmer => r.confirmer.Erasing?
    case ByValidator => r.validator.ErasingFirst? || r.validator.ErasingAgain?
  }

  predicate Enabled(s: State, a: Action) {
    var r := s.ram;
    match a
    case PowerCut => true
    case Prepare(_, _) => r.phase.Booting?
    case NetworkStarts(_) => r.phase.Starting?
    case StartConfirm(_) => r.phase.NetworkUp? && r.confirmer.NotStarted?
    case AudioStarts(_) => r.phase.NetworkUp? && !r.confirmer.NotStarted?
    case SetConnected(_) => true
    case NoteReady(_) => r.phase.Ready? && r.validationPending && !r.businessReady && r.validator.Idle? && Ready3(r)
    case MarkValid(_) => r.validator.Marking?
    case ReportValid(_) => r.validator.ReportingResult?
    case TimeoutFires => r.timeoutArmed
    case ConfirmLoads(_) => r.confirmer.Loading?
    case ConfirmReports(_) => r.confirmer.Reporting?
    case BeginWrite(_, _) => MayUpdate(s)
    case WriteChunk(chunk, _) => r.updater.Writing? && chunk != []
    case EndStream(_) => r.updater.Writing?
    case BeginStore => r.updater.Verified?
    case StoreKey(_) => r.updater.Storing? && r.updater.k < |KEYS|
    case SetBoot(_) => r.updater.Stored?
    case Restart => r.updater.Switched?
    case EraseKey(_) => Erases(r, ByUpdater) || Erases(r, ByConfirmer) || Erases(r, ByValidator)
    case EraseEnds(who) => Erases(r, who)
    case StoreStage(_) => true
  }

  function WithNvs(s: State, nvs: Nvs): State { s.(flash := s.flash.(nvs := nvs)) }

  function PrepareStep(s: State, readable: bool, taskOk: bool): State {
    if !readable then Reboot(s)
    else if Names(Load(s.flash.nvs), s.ram.running) then
      if taskOk then s.(ram := s.ram.(phase := Starting, validationPending := true, timeoutArmed := true))
      else Reboot(s)
    else s.(ram := s.ram.(phase := Starting))
  }

  function MarkStep(s: State, ok: bool): State {
    if !ok then s.(ram := s.ram.(validator := ReportingResult(false)))
    else
      State(if OnTrialNow(s) then s.flash.(trust := Trusted) else s.flash,
            s.ram.(validator := ErasingFirst, validationPending := false),
            s.log.(marks := s.log.marks + [Mark(s.ram.running, s.ram.noted)]))
  }

  function WriteStep(s: State, chunk: seq<byte>, ok: bool): State
    requires s.ram.updater.Writing?
  {
    var u := s.ram.updater;
    var p := Other(s.ram.running);
    if |u.received| + |chunk| > u.m.size || !ok then s.(ram := s.ram.(updater := NoUpdate))
    else
      s.(flash := WithImage(s.flash, p, Image(s.flash, p) + chunk),
         ram := s.ram.(updater := Writing(u.m, u.received + chunk)))
  }

  function StoreStep(s: State, ok: bool): State
    requires s.ram.updater.Storing? && s.ram.updater.k < |KEYS|
  {
    if !ok then s.(ram := s.ram.(updater := NoUpdate))
    else
      var k, m := s.ram.updater.k, s.ram.updater.m;
      WithNvs(s, s.flash.nvs[KEYS[k] := ValueOf(m, Other(s.ram.running), KEYS[k])])
        .(ram := s.ram.(updater := if k + 1 == |KEYS| then Stored(m) else Storing(m, k + 1)))
  }

  function SetBootStep(s: State, moved: bool): State
    requires s.ram.updater.Stored?
  {
    var p := Other(s.ram.running);
    if !moved then s.(ram := s.ram.(updater := Undoing))
    else
      State(s.flash.(boot := p, trust := Fresh, fallback := s.ram.running),
            s.ram.(updater := Switched(s.ram.updater.m)),
            s.log.(moves := s.log.moves + [Move(p, s.ram.running, Image(s.flash, p), s.ram.updater.m, s.flash.nvs)]))
  }

  function EraseEndsStep(r: Ram, who: Eraser): Ram {
    match who
    case ByUpdater => r.(updater := NoUpdate)
    case ByConfirmer => r.(confirmer := Gone)
    case ByValidator =>
      if r.validator.ErasingFirst? then r.(validator := ReportingResult(true))
      else r.(validator := Idle, businessReady := false)
  }

  function Step(hash: Hash, s: State, a: Action): State
    requires Enabled(s, a)
  {
    var r := s.ram;
    match a
    case PowerCut => Reboot(s)
    case Prepare(readable, taskOk) => PrepareStep(s, readable, taskOk)
    case NetworkStarts(ok) => s.(ram := if ok then r.(phase := NetworkUp, migrationReady := true) else r.(phase := Halted))
    case StartConfirm(taskOk) => s.(ram := r.(confirmer := if taskOk then Loading else Gone))
    case AudioStarts(ok) => s.(ram := if ok then r.(phase := Ready, audioReady := true) else r.(phase := Halted))
    case SetConnected(on) => s.(ram := r.(connected := on))
    case NoteReady(taskOk) =>
      s.(ram := if taskOk then r.(businessReady := true, noted := true, validator := Marking) else r)
    case MarkValid(ok) => MarkStep(s, ok)
    case ReportValid(ok) =>
      s.(ram := if r.validator.marked && ok then r.(validator := ErasingAgain)
                else r.(validator := Idle, businessReady := false))
    case TimeoutFires => if r.validationPending then Reboot(s) else s.(ram := r.(timeoutArmed := false))
    case ConfirmLoads(readable) =>
      s.(ram := r.(confirmer := if !readable || Load(s.flash.nvs).Missing? then Gone
                                else Reporting(Names(Load(s.flash.nvs), r.running))))
    case ConfirmReports(ok) => s.(ram := r.(confirmer := if ok && !r.confirmer.ok then Erasing else Gone))
    case BeginWrite(m, ok) =>
      if !ok then s
      else State(WithImage(s.flash, Other(r.running), []), r.(updater := Writing(m, [])), s.log)
    case WriteChunk(chunk, ok) => WriteStep(s, chunk, ok)
    case EndStream(ok) =>
      s.(ram := r.(updater := if ok && Matches(hash, r.updater.received, r.updater.m) then Verified(r.updater.m)
                              else NoUpdate))
    case BeginStore => s.(ram := r.(updater := Storing(r.updater.m, 0)))
    case StoreKey(ok) => StoreStep(s, ok)
    case SetBoot(moved) => SetBootStep(s, moved)
    case Restart => Reboot(s)
    case EraseKey(key) => WithNvs(s, s.flash.nvs - {key})
    case EraseEnds(who) => s.(ram := EraseEndsStep(r, who))
    case StoreStage(stage) =>
      if KPending in s.flash.nvs then WithNvs(s, s.flash.nvs[KLastStage := Text(stage)]) else s
  }

  // ---------------------------------------------------------------- runs

  /** A factory-fresh or long-settled device with any leftover record and any images. */
  predicate Settled(s: State) {
    s.flash.trust.Trusted? && s.ram == ColdRam(s.flash.boot) && s.log == Log([], [])
  }

  /** No task in flight will clear the record, and none that would can start: the confirm task is gone
      or only reports a success, the validation task is not there or only reports a failed marking. */
  predicate Harmless(r: Ram) {
    && (r.confirmer.Gone? || r.confirmer == Reporting(true))
    && (r.validator.Idle? || r.validator == ReportingResult(false))
    && !r.validationPending
  }

  function Next(hash: Hash, s: State, a: Action): State {
    if Enabled(s, a) then Step(hash, s, a) else s
  }

  function Run(hash: Hash, s: State, schedule: seq<Action>): State
    decreases |schedule|
  {
    if schedule == [] then s else Run(hash, Next(hash, s, schedule[0]), schedule[1..])
  }

  /** The record of a new update is begun only in a harmless moment. */
  ghost predicate Careful(hash: Hash, s: State, schedule: seq<Action>)
    decreases |schedule|
  {
    schedule != [] ==>
      && (schedule[0].BeginStore? ==> Harmless(s.ram))
      && Careful(hash, Next(hash, s, schedule[0]), schedule[1..])
  }

  // ---------------------------------------------------------------- what holds whenever a record is begun

  ghost predicate UpdaterHolds(hash: Hash, f: Flash, r: Ram) {
    var image := Image(f, Other(r.running));
    match r.updater
    case NoUpdate => !f.trust.Fresh?
    case Writing(m, received) => f.trust.Trusted? && image == received && |received| <= m.size
    case Verified(m) => f.trust.Trusted? && Matches(hash, image, m)
    case Storing(m, k) => f.trust.Trusted? && Matches(hash, image, m) && k < |KEYS|
    case Stored(m) => f.trust.Trusted? && Matches(hash, image, m)
    case Switched(m) =>
      f.trust.Fresh? && f.boot == Other(r.running) && f.fallback == r.running && Matches(hash, image, m)
    case Undoing => f.trust.Trusted?
  }

  ghost predicate RunningHolds(f: Flash, r: Ram) {
    && (!f.trust.Fresh? ==> r.running == f.boot)
    && (f.trust.OnTrial? ==> f.fallback != f.boot)
  }

  /** What this boot has got to. */
  ghost predicate ProgressHolds(r: Ram) {
    && (r.phase.Booting? ==> r.(connected := false) == ColdRam(r.running))
    && (r.phase.NetworkUp? || r.phase.Ready? ==> r.migrationReady)
    && (r.phase.Ready? ==> r.audioReady && !r.confirmer.NotStarted?)
    && (!r.updater.NoUpdate? ==> r.phase.Ready?)
    && (r.businessReady ==> !r.validator.Idle?)
    && (r.validator.Marking? ==> r.noted)
    && (r.noted ==> r.migrationReady && r.audioReady)
  }

  ghost predicate MoveIsSafe(hash: Hash, v: Move) { v.to != v.running && Matches(hash, v.image, v.m) }

  ghost predicate LogHolds(hash: Hash, log: Log) {
    && (forall i :: 0 <= i < |log.moves| ==> MoveIsSafe(hash, log.moves[i]))
    && (forall i :: 0 <= i < |log.marks| ==> log.marks[i].ready)
  }

  /** An image that is not trusted yet is the one the last move verified. */
  ghost predicate UntrustedIsVerified(f: Flash, log: Log) {
    !f.trust.Trusted? ==>
      log.moves != [] && var v := log.moves[|log.moves| - 1]; v.to == f.boot && v.image == Image(f, f.boot)
  }

  ghost predicate Base(hash: Hash, s: State) {
    && UpdaterHolds(hash, s.flash, s.ram) && RunningHolds(s.flash, s.ram) && ProgressHolds(s.ram)
    && LogHolds(hash, s.log) && UntrustedIsVerified(s.flash, s.log)
  }

  lemma {:induction false} RebootKeepsBase(hash: Hash, s: State)
    requires Base(hash, s)
    ensures Base(hash, Reboot(s))
  {
  }

  /** The start-up touches only the flags of this boot. */
  lemma {:induction false} StartUpKeepsBase(hash: Hash, s: State, a: Action)
    requires Base(hash, s) && Enabled(s, a)
    requires a.Prepare? || a.NetworkStarts? || a.StartConfirm? || a.AudioStarts? || a.SetConnected?
    ensures Base(hash, Step(hash, s, a))
  {
    if a.Prepare? {
      RebootKeepsBase(hash, s);
    } else if a.SetConnected? {
      ConnectingKeepsProgress(s.ram, a.on);
    } else {
      StartUpKeepsProgress(hash, s, a);
    }
  }

  lemma {:induction false} StartUpKeepsProgress(hash: Hash, s: State, a: Action)
    requires Enabled(s, a) && ProgressHolds(s.ram)
    requires a.NetworkStarts? || a.StartConfirm? || a.AudioStarts?
    ensures var q, r := Step(hash, s, a).ram, s.ram;
      && Step(hash, s, a) == s.(ram := q) && q.running == r.running && q.updater == r.updater
      && ProgressHolds(q)
  {
    assert !s.ram.phase.Booting?;
  }

  lemma {:induction false} ConnectingKeepsProgress(r: Ram, on: bool)
    requires ProgressHolds(r)
    ensures ProgressHolds(r.(connected := on))
  {
    assert r.(connected := on).(connected := false) == r.(connected := false);
  }

  lemma {:induction false} ConfirmKeepsBase(hash: Hash, s: State, a: Action)
    requires Base(hash, s) && Enabled(s, a) && (a.ConfirmLoads? || a.ConfirmReports?)
    ensures Base(hash, Step(hash, s, a))
  {
  }

  lemma {:induction false} NoteReadyKeepsBase(hash: Hash, s: State, taskOk: bool)
    requires Base(hash, s) && Enabled(s, NoteReady(taskOk))
    ensures Base(hash, Step(hash, s, NoteReady(taskOk)))
  {
    assert ProgressHolds(Step(hash, s, NoteReady(taskOk)).ram);
  }

  lemma {:induction false} ReportKeepsBase(hash: Hash, s: State, ok: bool)
    requires Base(hash, s) && s.ram.validator.ReportingResult?
    ensures Base(hash, Step(hash, s, ReportValid(ok)))
  {
    assert ProgressHolds(Step(hash, s, ReportValid(ok)).ram);
  }

  lemma {:induction false} MarkKeepsBase(hash: Hash, s: State, ok: bool)
    requires Base(hash, s) && s.ram.validator.Marking?
    ensures Base(hash, MarkStep(s, ok))
  {
  }

  lemma {:induction false} WritingKeepsBase(hash: Hash, s: State, a: Action)
    requires Base(hash, s) && Enabled(s, a) && (a.BeginWrite? || a.WriteChunk? || a.EndStream?)
    ensures Base(hash, Step(hash, s, a))
  {
  }

  lemma {:induction false} StoreKeepsBase(hash: Hash, s: State, a: Action)
    requires Base(hash, s) && Enabled(s, a) && (a.BeginStore? || a.StoreKey?)
    ensures Base(hash, Step(hash, s, a))
  {
  }

  /** Nothing of this is about the record's contents. */
  lemma {:induction false} NvsKeepsBase(hash: Hash, s: State, nvs: Nvs)
    requires Base(hash, s)
    ensures Base(hash, WithNvs(s, nvs))
  {
  }

  lemma {:induction false} EraseEndsKeepsBase(hash: Hash, s: State, who: Eraser)
    requires Base(hash, s) && Erases(s.ram, who)
    ensures Base(hash, s.(ram := EraseEndsStep(s.ram, who)))
  {
  }

  lemma {:induction false} SetBootKeepsBase(hash: Hash, s: State, moved: bool)
    requires Base(hash, s) && Enabled(s, SetBoot(moved))
    ensures Base(hash, Step(hash, s, SetBoot(moved)))
  {
  }

  lemma {:induction false} StepKeepsBase(hash: Hash, s: State, a: Action)
    requires Base(hash, s) && Enabled(s, a)
    ensures Base(hash, Step(hash, s, a))
  {
    match a
    case PowerCut => RebootKeepsBase(hash, s);
    case Restart => RebootKeepsBase(hash, s);
    case TimeoutFires => RebootKeepsBase(hash, s);
    case Prepare(_, _) => StartUpKeepsBase(hash, s, a);
    case NetworkStarts(_) => StartUpKeepsBase(hash, s, a);
    case StartConfirm(_) => StartUpKeepsBase(hash, s, a);
    case AudioStarts(_) => StartUpKeepsBase(hash, s, a);
    case SetConnected(_) => StartUpKeepsBase(hash, s, a);
    case BeginWrite(_, _) => WritingKeepsBase(hash, s, a);
    case WriteChunk(_, _) => WritingKeepsBase(hash, s, a);
    case EndStream(_) => WritingKeepsBase(hash, s, a);
    case BeginStore => StoreKeepsBase(hash, s, a);
    case StoreKey(_) => StoreKeepsBase(hash, s, a);
    case EraseKey(key) => NvsKeepsBase(hash, s, s.flash.nvs - {key});
    case StoreStage(stage) => NvsKeepsBase(hash, s, s.flash.nvs[KLastStage := Text(stage)]);
    case EraseEnds(who) => EraseEndsKeepsBase(hash, s, who);
    case SetBoot(moved) => SetBootKeepsBase(hash, s, moved);
    case MarkValid(ok) => MarkKeepsBase(hash, s, ok);
    case ConfirmLoads(_) => ConfirmKeepsBase(hash, s, a);
    case ConfirmReports(_) => ConfirmKeepsBase(hash, s, a);
    case NoteReady(taskOk) => NoteReadyKeepsBase(hash, s, taskOk);
    case ReportValid(ok) => ReportKeepsBase(hash, s, ok);
  }

  lemma {:induction false} RunKeepsBase(hash: Hash, s: State, schedule: seq<Action>)
    requires Base(hash, s)
    ensures Base(hash, Run(hash, s, schedule))
    decreases |schedule|
  {
    if schedule != [] {
      if Enabled(s, schedule[0]) {
        StepKeepsBase(hash, s, schedule[0]);
      }
      RunKeepsBase(hash, Next(hash, s, schedule[0]), schedule[1..]);
    }
  }

  // ---------------------------------------------------------------- what a record begun in time protects

  /** The record of an update under way is as complete as it should be, and nobody will clear it. */
  ghost predicate RecordHolds(f: Flash, r: Ram) {
    match r.updater
    case Storing(m, k) => Harmless(r) && StoredUpTo(f.nvs, m, Other(r.running), k)
    case Stored(m) => Harmless(r) && StoredUpTo(f.nvs, m, Other(r.running), |KEYS|)
    case Switched(m) => Harmless(r) && StoredUpTo(f.nvs, m, Other(r.running), |KEYS|)
    case Undoing => Harmless(r)
    case _ => true
  }

  /** An image on trial has its record, no task that would clear it, and, once prepared, its watchdog. */
  ghost predicate TrialHolds(f: Flash, r: Ram) {
    f.trust.OnTrial? ==>
      && Names(Load(f.nvs), f.boot)
      && !r.confirmer.Erasing? && r.confirmer != Reporting(false)
      && !r.validator.ErasingFirst? && !r.validator.ErasingAgain? && r.validator != ReportingResult(true)
      && (!r.phase.Booting? ==> r.validationPending && r.timeoutArmed)
  }

  ghost predicate Guarded(s: State) { RecordHolds(s.flash, s.ram) && TrialHolds(s.flash, s.ram) }

  /** A record of the update `m` into slot `p`, key by key. */
  ghost predicate RecordOf(nvs: Nvs, m: Manifest, p: Slot) {
    && KPending in nvs && nvs[KPending] == One
    && KRelease in nvs && nvs[KRelease] == Text(m.release)
    && KVersion in nvs && nvs[KVersion] == Text(m.version)
    && KLabel in nvs && nvs[KLabel] == Place(p)
    && KAddress in nvs && nvs[KAddress] == Place(p)
    && KSha256 in nvs && nvs[KSha256] == Sum(m.sha256)
  }

  /** A record with every key that is needed names slot `p`, by label and by address. */
  predicate RecordNames(nvs: Nvs, p: Slot) {
    && {KPending, KRelease, KVersion, KLabel, KAddress, KSha256} <= nvs.Keys
    && nvs[KLabel] == Place(p) && nvs[KAddress] == Place(p)
  }

  /** The complete record was in flash when the pointer moved. */
  ghost predicate MoveIsRecorded(v: Move) { RecordOf(v.nvs, v.m, v.to) && Names(Load(v.nvs), v.to) }

  ghost predicate MovesAreRecorded(log: Log) {
    forall i :: 0 <= i < |log.moves| ==> MoveIsRecorded(log.moves[i])
  }

  ghost predicate Inv(hash: Hash, s: State) { Base(hash, s) && Guarded(s) && MovesAreRecorded(s.log) }

  /** A complete record is found, names its slot, and holds in each key what that key is for. */
  lemma {:induction false} StoredIsLoaded(nvs: Nvs, m: Manifest, p: Slot)
    requires StoredUpTo(nvs, m, p, |KEYS|)
    ensures Names(Load(nvs), p) && RecordOf(nvs, m, p)
  {
    assert KEYS[0] == KPending && KEYS[1] == KRelease && KEYS[2] == KVersion;
    assert KEYS[3] == KLabel && KEYS[4] == KAddress && KEYS[5] == KSha256;
  }

  lemma {:induction false} RebootKeepsGuard(hash: Hash, s: State)
    requires Base(hash, s) && Guarded(s)
    ensures Guarded(Reboot(s))
  {
    if s.flash.trust.Fresh? {
      StoredIsLoaded(s.flash.nvs, s.ram.updater.m, s.flash.boot);
    }
  }

  lemma {:induction false} StartUpKeepsGuard(hash: Hash, s: State, a: Action)
    requires Base(hash, s) && Guarded(s) && Enabled(s, a)
    requires a.Prepare? || a.NetworkStarts? || a.StartConfirm? || a.AudioStarts? || a.SetConnected?
    ensures Guarded(Step(hash, s, a))
  {
    if a.Prepare? {
      RebootKeepsGuard(hash, s);
    }
  }

  lemma {:induction false} TasksKeepGuard(hash: Hash, s: State, a: Action)
    requires Base(hash, s) && Guarded(s) && Enabled(s, a)
    requires a.NoteReady? || a.MarkValid? || a.ReportValid? || a.ConfirmLoads? || a.ConfirmReports?
    ensures Guarded(Step(hash, s, a))
  {
  }

  lemma {:induction false} WritingKeepsGuard(hash: Hash, s: State, a: Action)
    requires Base(hash, s) && Guarded(s) && Enabled(s, a) && (a.BeginWrite? || a.WriteChunk? || a.EndStream?)
    ensures Guarded(Step(hash, s, a))
  {
  }

  lemma {:induction false} OneKeyMore(nvs: Nvs, m: Manifest, p: Slot, k: nat)
    requires k < |KEYS| && StoredUpTo(nvs, m, p, k)
    ensures StoredUpTo(nvs[KEYS[k] := ValueOf(m, p, KEYS[k])], m, p, k + 1)
  {
    assert forall i, j :: 0 <= i < j < |KEYS| ==> KEYS[i] != KEYS[j];
  }

  lemma {:induction false} StoreKeepsGuard(hash: Hash, s: State, a: Action)
    requires Base(hash, s) && Guarded(s) && Enabled(s, a)
    requires a.BeginStore? || a.StoreKey? || a.SetBoot?
    requires a.BeginStore? ==> Harmless(s.ram)
    ensures Guarded(Step(hash, s, a))
  {
    if a.StoreKey? {
      OneKeyMore(s.flash.nvs, s.ram.updater.m, Other(s.ram.running), s.ram.updater.k);
    }
  }

  /** Keys are erased only while the selected image is trusted, and no new record is under way. */
  lemma {:induction false} EraseKeepsGuard(hash: Hash, s: State, a: Action)
    requires Base(hash, s) && Guarded(s) && Enabled(s, a) && (a.EraseKey? || a.EraseEnds?)
    ensures Guarded(Step(hash, s, a))
  {
    if a.EraseKey? {
      assert s.flash.trust.Trusted? && !s.ram.updater.Storing? && !s.ram.updater.Stored?;
    }
  }

  lemma {:induction false} StageKeepsGuard(hash: Hash, s: State, stage: string)
    requires Base(hash, s) && Guarded(s)
    ensures Guarded(Step(hash, s, StoreStage(stage)))
  {
    var nvs := Step(hash, s, StoreStage(stage)).flash.nvs;
    assert forall i :: 0 <= i < 6 ==> KEYS[i] != KLastStage;
    assert Load(nvs) == Load(s.flash.nvs);
  }

  lemma {:induction false} StepKeepsGuard(hash: Hash, s: State, a: Action)
    requires Base(hash, s) && Guarded(s) && Enabled(s, a)
    requires a.BeginStore? ==> Harmless(s.ram)
    ensures Guarded(Step(hash, s, a))
  {
    match a
    case PowerCut => RebootKeepsGuard(hash, s);
    case Restart => RebootKeepsGuard(hash, s);
    case TimeoutFires => RebootKeepsGuard(hash, s);
    case Prepare(_, _) => StartUpKeepsGuard(hash, s, a);
    case NetworkStarts(_) => StartUpKeepsGuard(hash, s, a);
    case StartConfirm(_) => StartUpKeepsGuard(hash, s, a);
    case AudioStarts(_) => StartUpKeepsGuard(hash, s, a);
    case SetConnected(_) => StartUpKeepsGuard(hash, s, a);
    case BeginWrite(_, _) => WritingKeepsGuard(hash, s, a);
    case WriteChunk(_, _) => WritingKeepsGuard(hash, s, a);
    case EndStream(_) => WritingKeepsGuard(hash, s, a);
    case BeginStore => StoreKeepsGuard(hash, s, a);
    case StoreKey(_) => StoreKeepsGuard(hash, s, a);
    case SetBoot(_) => StoreKeepsGuard(hash, s, a);
    case EraseKey(_) => EraseKeepsGuard(hash, s, a);
    case EraseEnds(_) => EraseKeepsGuard(hash, s, a);
    case StoreStage(stage) => StageKeepsGuard(hash, s, stage);
    case _ => TasksKeepGuard(hash, s, a);
  }

  lemma {:induction false} RunKeepsGuard(hash: Hash, s: State, schedule: seq<Action>)
    requires Base(hash, s) && Guarded(s) && Careful(hash, s, schedule)
    ensures Base(hash, Run(hash, s, schedule)) && Guarded(Run(hash, s, schedule))
    decreases |schedule|
  {
    if schedule != [] {
      if Enabled(s, schedule[0]) {
        StepKeepsBase(hash, s, schedule[0]);
        StepKeepsGuard(hash, s, schedule[0]);
      }
      RunKeepsGuard(hash, Next(hash, s, schedule[0]), schedule[1..]);
    }
  }

  /** Only the move of the pointer is logged as one. */
  lemma {:induction false} OnlySetBootMoves(hash: Hash, s: State, a: Action)
    requires Enabled(s, a)
    ensures Step(hash, s, a).log.moves == s.log.moves || (a == SetBoot(true) && s.ram.updater.Stored?)
  {
  }

  lemma {:induction false} StepKeepsInv(hash: Hash, s: State, a: Action)
    requires Inv(hash, s) && Enabled(s, a)
    requires a.BeginStore? ==> Harmless(s.ram)
    ensures Inv(hash, Step(hash, s, a))
  {
    StepKeepsBase(hash, s, a);
    StepKeepsGuard(hash, s, a);
    OnlySetBootMoves(hash, s, a);
    if a == SetBoot(true) {
      StoredIsLoaded(s.flash.nvs, s.ram.updater.m, Other(s.ram.running));
    }
  }

  lemma {:induction false} RunKeepsInv(hash: Hash, s: State, schedule: seq<Action>)
    requires Inv(hash, s) && Careful(hash, s, schedule)
    ensures Inv(hash, Run(hash, s, schedule))
    decreases |schedule|
  {
    if schedule != [] {
      if Enabled(s, schedule[0]) {
        StepKeepsInv(hash, s, schedule[0]);
      }
      RunKeepsInv(hash, Next(hash, s, schedule[0]), schedule[1..]);
    }
  }

  /** Over any reboots and power cuts, whenever records are begun: the boot pointer moved only to a slot
      that was not running, whose whole image had the manifest's size and hash, and an image was marked
      valid only after network, migration and audio had been ready together. If every record was begun
      in a harmless moment, the complete record was in flash at every move. */
  lemma {:induction false} BootMovesAreSafe(hash: Hash, start: State, schedule: seq<Action>)
    requires Settled(start)
    ensures var s := Run(hash, start, schedule);
      && (forall i :: 0 <= i < |s.log.moves| ==>
            var v := s.log.moves[i]; v.to != v.running && |v.image| == v.m.size && hash(v.image) == v.m.sha256)
      && (forall i :: 0 <= i < |s.log.marks| ==> s.log.marks[i].ready)
      && (Careful(hash, start, schedule) ==> forall i :: 0 <= i < |s.log.moves| ==> MoveIsRecorded(s.log.moves[i]))
  {
    RunKeepsBase(hash, start, schedule);
    assert forall i :: 0 <= i < |Run(hash, start, schedule).log.moves| ==>
      MoveIsSafe(hash, Run(hash, start, schedule).log.moves[i]);
    if Careful(hash, start, schedule) {
      RunKeepsInv(hash, start, schedule);
    }
  }

  /** An image whose length or hash is not the manifest's is never verified, gets no record, and never
      gets the boot pointer. */
  lemma {:induction false} MismatchIsRefused(hash: Hash, start: State, schedule: seq<Action>, m: Manifest)
    requires Settled(start)
    ensures var s := Run(hash, start, schedule);
      && (forall i :: 0 <= i < |s.log.moves| && s.log.moves[i].m == m ==>
            |s.log.moves[i].image| == m.size && hash(s.log.moves[i].image) == m.sha256)
      && var image := Image(s.flash, Other(s.ram.running));
         (|image| != m.size || hash(image) != m.sha256) ==>
           var u := s.ram.updater;
           u != Verified(m) && !(u.Storing? && u.m == m) && u != Stored(m) && u != Switched(m)
  {
    RunKeepsBase(hash, start, schedule);
    BootMovesAreSafe(hash, start, schedule);
  }

  /** The validation of the running image begins here, with network, migration and audio all ready. */
  ghost predicate ReadyAt(hash: Hash, start: State, schedule: seq<Action>, k: nat, slot: Slot) {
    && k < |schedule| && schedule[k] == NoteReady(true)
    && var r := Run(hash, start, schedule[..k]).ram;
       r.phase.Ready? && r.connected && r.migrationReady && r.audioReady && r.validationPending && r.running == slot
  }

  ghost predicate WasReady(hash: Hash, start: State, schedule: seq<Action>, slot: Slot) {
    exists k: nat :: ReadyAt(hash, start, schedule, k, slot)
  }

  lemma {:induction false} ReadyStays(hash: Hash, start: State, schedule: seq<Action>, a: Action, slot: Slot)
    ensures WasReady(hash, start, schedule, slot) ==> WasReady(hash, start, schedule + [a], slot)
    ensures var s := Run(hash, start, schedule);
      a == NoteReady(true) && Enabled(s, a) && s.ram.running == slot ==> WasReady(hash, start, schedule + [a], slot)
  {
    var more := schedule + [a];
    assert forall k :: 0 <= k <= |schedule| ==> more[..k] == schedule[..k];
    assert schedule[..|schedule|] == schedule;
    if WasReady(hash, start, schedule, slot) {
      var k: nat :| ReadyAt(hash, start, schedule, k, slot);
      assert ReadyAt(hash, start, more, k, slot);
    }
    if a == NoteReady(true) && Enabled(Run(hash, start, schedule), a) && Run(hash, start, schedule).ram.running == slot {
      assert ReadyAt(hash, start, more, |schedule|, slot);
    }
  }

  /** A step into the marking of an image. */
  predicate MarkingBegins(before: Ram, a: Action, after: Ram) {
    after.validator.Marking? ==> after.running == before.running && (before.validator.Marking? || a == NoteReady(true))
  }

  lemma {:induction false} RebootsMarkNothing(hash: Hash, s: State, a: Action)
    requires Enabled(s, a) && (a.PowerCut? || a.Restart? || a.TimeoutFires? || a.Prepare?)
    ensures MarkingBegins(s.ram, a, Step(hash, s, a).ram)
  {
  }

  lemma {:induction false} StartUpMarksNothing(hash: Hash, s: State, a: Action)
    requires Enabled(s, a) && (a.NetworkStarts? || a.StartConfirm? || a.AudioStarts? || a.SetConnected?)
    ensures MarkingBegins(s.ram, a, Step(hash, s, a).ram)
  {
  }

  lemma {:induction false} TasksMarkNothing(hash: Hash, s: State, a: Action)
    requires Enabled(s, a) && (a.ConfirmLoads? || a.ConfirmReports? || a.EraseEnds?)
    ensures MarkingBegins(s.ram, a, Step(hash, s, a).ram)
  {
  }

  lemma {:induction false} ValidationMarks(hash: Hash, s: State, a: Action)
    requires Enabled(s, a) && (a.NoteReady? || a.MarkValid? || a.ReportValid?)
    ensures MarkingBegins(s.ram, a, Step(hash, s, a).ram)
  {
  }

  lemma {:induction false} WritingMarksNothing(hash: Hash, s: State, a: Action)
    requires Enabled(s, a) && (a.BeginWrite? || a.WriteChunk? || a.EndStream?)
    ensures MarkingBegins(s.ram, a, Step(hash, s, a).ram)
  {
  }

  lemma {:induction false} StoringMarksNothing(hash: Hash, s: State, a: Action)
    requires Enabled(s, a) && (a.BeginStore? || a.StoreKey?)
    ensures MarkingBegins(s.ram, a, Step(hash, s, a).ram)
  {
  }

  lemma {:induction false} FlashMarksNothing(hash: Hash, s: State, a: Action)
    requires Enabled(s, a) && (a.SetBoot? || a.EraseKey? || a.StoreStage?)
    ensures MarkingBegins(s.ram, a, Step(hash, s, a).ram)
  {
  }

  /** When the marking of an image is begun, and when it is done. */
  lemma {:induction false} StepMarking(hash: Hash, s: State, a: Action)
    requires Next(hash, s, a).ram.validator.Marking?
    ensures Next(hash, s, a).ram.running == s.ram.running
    ensures s.ram.validator.Marking? || (a == NoteReady(true) && Enabled(s, a))
  {
    if Enabled(s, a) {
      if a.PowerCut? || a.Restart? || a.TimeoutFires? || a.Prepare? {
        RebootsMarkNothing(hash, s, a);
      } else if a.NetworkStarts? || a.StartConfirm? || a.AudioStarts? || a.SetConnected? {
        StartUpMarksNothing(hash, s, a);
      } else if a.ConfirmLoads? || a.ConfirmReports? || a.EraseEnds? {
        TasksMarkNothing(hash, s, a);
      } else if a.NoteReady? || a.MarkValid? || a.ReportValid? {
        ValidationMarks(hash, s, a);
      } else if a.BeginWrite? || a.WriteChunk? || a.EndStream? {
        WritingMarksNothing(hash, s, a);
      } else if a.BeginStore? || a.StoreKey? {
        StoringMarksNothing(hash, s, a);
      } else {
        FlashMarksNothing(hash, s, a);
      }
    }
  }

  lemma {:induction false} StepMarks(hash: Hash, s: State, a: Action)
    ensures var t := Next(hash, s, a);
      if a == MarkValid(true) && Enabled(s, a) then t.log.marks == s.log.marks + [Mark(s.ram.running, s.ram.noted)]
      else t.log.marks == s.log.marks
  {
  }

  /** Every image that was marked valid had been ready: while it ran, its validation was pending and the
      device was connected, with migration and audio done. */
  lemma {:induction false} MarkedAfterReady(hash: Hash, start: State, schedule: seq<Action>)
    requires Settled(start)
    ensures var s := Run(hash, start, schedule);
      && (forall i :: 0 <= i < |s.log.marks| ==> WasReady(hash, start, schedule, s.log.marks[i].slot))
      && (s.ram.validator.Marking? ==> WasReady(hash, start, schedule, s.ram.running))
    decreases |schedule|
  {
    if schedule != [] {
      var n := |schedule| - 1;
      var shorter, a := schedule[..n], schedule[n];
      assert schedule == shorter + [a];
      MarkedAfterReady(hash, start, shorter);
      RunSnoc(hash, start, shorter, a);
      var s := Run(hash, start, shorter);
      StepMarks(hash, s, a);
      if Next(hash, s, a).ram.validator.Marking? {
        StepMarking(hash, s, a);
      }
      ReadyStays(hash, start, shorter, a, Ota0);
      ReadyStays(hash, start, shorter, a, Ota1);
      assert forall slot :: WasReady(hash, start, shorter, slot) ==> WasReady(hash, start, schedule, slot) by {
        forall slot ensures WasReady(hash, start, shorter, slot) ==> WasReady(hash, start, schedule, slot) {
          assert slot == Ota0 || slot == Ota1;
        }
      }
    }
  }

  /** The confirm task clears a record only after it has reported, with success, that the named image did
      not come up; and it reports that only of a record that names another slot. */
  lemma {:induction false} ConfirmClearsReported(hash: Hash, s: State, a: Action)
    requires Enabled(s, a) && (a.ConfirmLoads? || a.ConfirmReports?)
    ensures var q, r := Step(hash, s, a).ram.confirmer, s.ram.confirmer;
      && (q.Erasing? <==> a == ConfirmReports(true) && r == Reporting(false))
      && (q == Reporting(false) <==>
            a == ConfirmLoads(true) && Load(s.flash.nvs).Pending? && !RecordNames(s.flash.nvs, s.ram.running))
  {
  }

  /** An image on trial is always the one that was verified. If every record was begun in a harmless
      moment, its record is found at every moment, and from the end of the preparation on its watchdog
      is armed. */
  lemma {:induction false} TrialIsWatched(hash: Hash, start: State, schedule: seq<Action>)
    requires Settled(start)
    ensures var s := Run(hash, start, schedule);
      s.flash.trust.OnTrial? ==>
        && s.ram.running == s.flash.boot
        && s.log.moves != []
        && (var v, image := s.log.moves[|s.log.moves| - 1], Image(s.flash, s.ram.running);
            v.image == image && |image| == v.m.size && hash(image) == v.m.sha256)
        && (Careful(hash, start, schedule) ==>
              && Names(Load(s.flash.nvs), s.ram.running)
              && (!s.ram.phase.Booting? ==> s.ram.timeoutArmed && s.ram.validationPending))
  {
    RunKeepsBase(hash, start, schedule);
    if Careful(hash, start, schedule) {
      RunKeepsGuard(hash, start, schedule);
    }
  }

  /** A power cut on an image on trial brings back the slot that ran before; so does the watchdog when it
      fires, if every record was begun in a harmless moment. */
  lemma {:induction false} UnvalidatedImageIsAbandoned(hash: Hash, start: State, schedule: seq<Action>, a: Action)
    requires Settled(start)
    requires a.PowerCut? || (a.TimeoutFires? && Careful(hash, start, schedule))
    ensures var s := Run(hash, start, schedule);
      s.flash.trust.OnTrial? && !s.ram.phase.Booting? ==>
        var t := Next(hash, s, a);
        t.ram.running == Other(s.ram.running) && t.flash.trust.Trusted? && t.ram.phase.Booting?
  {
    RunKeepsBase(hash, start, schedule);
    if Careful(hash, start, schedule) {
      RunKeepsGuard(hash, start, schedule);
    }
  }

  // ---------------------------------------------------------------- when beginning a record can lose it

  lemma {:induction false} RunCons(hash: Hash, s: State, a: Action, rest: seq<Action>)
    ensures Run(hash, s, [a] + rest) == Run(hash, Next(hash, s, a), rest)
    ensures Careful(hash, s, [a] + rest) <==>
              (a.BeginStore? ==> Harmless(s.ram)) && Careful(hash, Next(hash, s, a), rest)
  {
    assert ([a] + rest)[1..] == rest;
  }

  /** A new image runs on trial with its preparation behind it and no watchdog. */
  predicate Unwatched(s: State) {
    s.flash.trust.OnTrial? && s.ram.running == s.flash.boot && !s.ram.phase.Booting? && !s.ram.timeoutArmed
  }

  /** A run that gets there although every later record is begun in a harmless moment. */
  ghost predicate Loses(hash: Hash, s: State, schedule: seq<Action>) {
    Careful(hash, s, schedule) && Unwatched(Run(hash, s, schedule))
  }

  ghost predicate CanLose(hash: Hash, s: State) { exists schedule :: Loses(hash, s, schedule) }

  lemma {:induction false} LosesNow(hash: Hash, s: State)
    requires Unwatched(s)
    ensures CanLose(hash, s)
  {
    assert Loses(hash, s, []);
  }

  lemma {:induction false} LosesLater(hash: Hash, s: State, a: Action)
    requires CanLose(hash, Next(hash, s, a)) && !a.BeginStore?
    ensures CanLose(hash, s)
  {
    var rest :| Loses(hash, Next(hash, s, a), rest);
    RunCons(hash, s, a, rest);
    assert Loses(hash, s, [a] + rest);
  }

  const ERASE_THEN_CUT: seq<Action> := [EraseKey(KPending)] + ([PowerCut] + ([Prepare(true, true)] + []))

  /** Whenever a task that still has a record to clear is in flight after the switch, it can clear the
      new one; the new image then boots on trial without record and without watchdog. */
  lemma {:induction false} InFlightEraseLosesTheRecord(hash: Hash, s: State)
    requires s.flash.trust.Fresh? && s.ram.updater.Switched?
    requires Erases(s.ram, ByConfirmer) || Erases(s.ram, ByValidator)
    ensures var t := Run(hash, s, ERASE_THEN_CUT);
      && t.flash.trust.OnTrial? && t.ram.running == s.flash.boot
      && t.ram.phase.Starting? && !t.ram.timeoutArmed && !t.ram.validationPending
    ensures CanLose(hash, s)
  {
    var s1 := Next(hash, s, EraseKey(KPending));
    var s2 := Next(hash, s1, PowerCut);
    RunCons(hash, s, EraseKey(KPending), [PowerCut] + ([Prepare(true, true)] + []));
    RunCons(hash, s1, PowerCut, [Prepare(true, true)] + []);
    RunCons(hash, s2, Prepare(true, true), []);
    assert Load(s2.flash.nvs).Missing?;
    assert Loses(hash, s, ERASE_THEN_CUT);
  }

  /** A confirm task that has not loaded the record yet finds the new one, takes the running slot for the
      result of a rollback, and goes on to clear it. */
  lemma {:induction false} LateLoadLosesTheRecord(hash: Hash, s: State)
    requires Base(hash, s) && s.ram.updater.Switched? && s.ram.confirmer.Loading?
    requires StoredUpTo(s.flash.nvs, s.ram.updater.m, Other(s.ram.running), |KEYS|)
    ensures CanLose(hash, s)
  {
    StoredIsLoaded(s.flash.nvs, s.ram.updater.m, Other(s.ram.running));
    var s1 := Next(hash, s, ConfirmLoads(true));
    var s2 := Next(hash, s1, ConfirmReports(true));
    assert s1.ram.confirmer == Reporting(false) && s2.ram.confirmer.Erasing?;
    InFlightEraseLosesTheRecord(hash, s2);
    LosesLater(hash, s1, ConfirmReports(true));
    LosesLater(hash, s, ConfirmLoads(true));
  }

  /** A task is clearing the record, or the confirm task has yet to load it. */
  predicate WillClear(r: Ram) {
    r.confirmer.Loading? || Erases(r, ByConfirmer) || Erases(r, ByValidator)
  }

  /** The record is completed and the pointer moved while such a task is in flight. */
  lemma {:induction false} StoresIntoLoss(hash: Hash, s: State)
    requires Base(hash, s) && WillClear(s.ram)
    requires match s.ram.updater
      case Storing(m, k) => StoredUpTo(s.flash.nvs, m, Other(s.ram.running), k)
      case Stored(m) => StoredUpTo(s.flash.nvs, m, Other(s.ram.running), |KEYS|)
      case _ => false
    ensures CanLose(hash, s)
    decreases if s.ram.updater.Storing? then |KEYS| - s.ram.updater.k else 0
  {
    if s.ram.updater.Storing? {
      var a := StoreKey(true);
      OneKeyMore(s.flash.nvs, s.ram.updater.m, Other(s.ram.running), s.ram.updater.k);
      StepKeepsBase(hash, s, a);
      StoresIntoLoss(hash, Step(hash, s, a));
      LosesLater(hash, s, a);
    } else {
      var a := SetBoot(true);
      var t := Step(hash, s, a);
      StepKeepsBase(hash, s, a);
      if t.ram.confirmer.Loading? {
        LateLoadLosesTheRecord(hash, t);
      } else {
        InFlightEraseLosesTheRecord(hash, t);
      }
      LosesLater(hash, s, a);
    }
  }

  /** What brings a task to its erase. */
  function ToErase(r: Ram): Action {
    if r.confirmer == Reporting(false) then ConfirmReports(true)
    else if r.validator.Marking? then MarkValid(true)
    else if r.validator.ReportingResult? then ReportValid(true)
    else if !r.connected then SetConnected(true)
    else NoteReady(true)
  }

  function EraseRank(r: Ram): nat {
    if r.confirmer == Reporting(false) || r.validator.Marking? || r.validator == ReportingResult(true) then 0
    else if r.validator.ReportingResult? then 3
    else if !r.connected then 2
    else 1
  }

  /** One step towards it, which leaves the update alone. */
  lemma {:induction false} ComesToErase(hash: Hash, s: State)
    requires Base(hash, s) && !Harmless(s.ram) && !WillClear(s.ram)
    requires s.ram.updater.Storing? && s.ram.updater.k == 0
    ensures Enabled(s, ToErase(s.ram)) && !ToErase(s.ram).BeginStore?
    ensures var t := Step(hash, s, ToErase(s.ram));
      && t.ram.updater == s.ram.updater && !Harmless(t.ram)
      && (WillClear(t.ram) || EraseRank(t.ram) < EraseRank(s.ram))
  {
  }

  /** A record begun in a harmful moment can be lost. */
  lemma {:induction false} HarmfulCanLose(hash: Hash, s: State)
    requires Base(hash, s) && !Harmless(s.ram)
    requires s.ram.updater.Storing? && s.ram.updater.k == 0
    ensures CanLose(hash, s)
    decreases EraseRank(s.ram)
  {
    if WillClear(s.ram) {
      StoresIntoLoss(hash, s);
    } else {
      var a := ToErase(s.ram);
      ComesToErase(hash, s);
      StepKeepsBase(hash, s, a);
      var t := Step(hash, s, a);
      if WillClear(t.ram) {
        StoresIntoLoss(hash, t);
      } else {
        HarmfulCanLose(hash, t);
      }
      LosesLater(hash, s, a);
    }
  }

  /** In every run, whenever an update has been verified: beginning its record can lose it, and with it
      the watchdog, exactly if the moment is not harmless. */
  lemma {:induction false} RecordCanBeLostIff(hash: Hash, start: State, before: seq<Action>)
    requires Settled(start) && Run(hash, start, before).ram.updater.Verified?
    ensures var s := Run(hash, start, before);
      CanLose(hash, Step(hash, s, BeginStore)) <==> !Harmless(s.ram)
  {
    var s := Run(hash, start, before);
    var t := Step(hash, s, BeginStore);
    RunKeepsBase(hash, start, before);
    StepKeepsBase(hash, s, BeginStore);
    if !Harmless(s.ram) {
      HarmfulCanLose(hash, t);
    } else if CanLose(hash, t) {
      var schedule :| Loses(hash, t, schedule);
      RunKeepsGuard(hash, t, schedule);
      assert false;
    }
  }

  lemma {:induction false} RunSnoc(hash: Hash, s: State, schedule: seq<Action>, a: Action)
    ensures Run(hash, s, schedule + [a]) == Next(hash, Run(hash, s, schedule), a)
    decreases |schedule|
  {
    if schedule == [] {
      RunCons(hash, s, a, []);
      assert [] + [a] == [a] + [];
    } else {
      assert (schedule + [a])[1..] == schedule[1..] + [a];
      RunSnoc(hash, Next(hash, s, schedule[0]), schedule[1..], a);
    }
  }

  lemma {:induction false} OneStep(hash: Hash, s: State, a: Action)
    ensures Run(hash, s, [a]) == Next(hash, s, a)
  {
    assert [a][1..] == [];
    assert Run(hash, Next(hash, s, a), []) == Next(hash, s, a);
  }

  // Single steps of the update task at the end of a run.

  /** The device with the update task at `u` and the inactive slot holding `image`; the running slot,
      pointer, record and the rest of the memory are as they were. */
  function Updating(s: State, image: seq<byte>, u: Updater): State {
    State(WithImage(s.flash, Other(s.ram.running), image), s.ram.(updater := u), s.log)
  }

  lemma {:induction false} WriteUpdates(s: State, m: Manifest, received: seq<byte>, chunk: seq<byte>, ok: bool)
    ensures WriteStep(Updating(s, received, Writing(m, received)), chunk, ok) ==
      if |received| + |chunk| > m.size || !ok then Updating(s, received, NoUpdate)
      else Updating(s, received + chunk, Writing(m, received + chunk))
  {
  }

  lemma {:induction false} RunBegins(hash: Hash, s: State, m: Manifest)
    requires MayUpdate(s)
    ensures Run(hash, s, [BeginWrite(m, true)]) == Updating(s, [], Writing(m, []))
  {
    OneStep(hash, s, BeginWrite(m, true));
  }

  lemma {:induction false} RunWrites(hash: Hash, s: State, before: seq<Action>, chunk: seq<byte>, ok: bool)
    requires Run(hash, s, before).ram.updater.Writing? && chunk != []
    ensures Run(hash, s, before + [WriteChunk(chunk, ok)]) == WriteStep(Run(hash, s, before), chunk, ok)
  {
    RunSnoc(hash, s, before, WriteChunk(chunk, ok));
  }

  function EndedStream(hash: Hash, u: Updater, ok: bool): Updater
    requires u.Writing?
  {
    if ok && Matches(hash, u.received, u.m) then Verified(u.m) else NoUpdate
  }

  lemma {:induction false} RunEndsStream(hash: Hash, s: State, before: seq<Action>, ok: bool)
    requires Run(hash, s, before).ram.updater.Writing?
    ensures var t := Run(hash, s, before);
      Run(hash, s, before + [EndStream(ok)]) == t.(ram := t.ram.(updater := EndedStream(hash, t.ram.updater, ok)))
  {
    RunSnoc(hash, s, before, EndStream(ok));
  }

  lemma {:induction false} RunBeginsStore(hash: Hash, s: State)
    requires s.ram.updater.Verified?
    ensures Run(hash, s, [BeginStore]) == s.(ram := s.ram.(updater := Storing(s.ram.updater.m, 0)))
  {
    OneStep(hash, s, BeginStore);
  }

  lemma {:induction false} RunStores(hash: Hash, s: State, before: seq<Action>, ok: bool)
    requires Enabled(Run(hash, s, before), StoreKey(ok))
    ensures Run(hash, s, before + [StoreKey(ok)]) == StoreStep(Run(hash, s, before), ok)
  {
    RunSnoc(hash, s, before, StoreKey(ok));
  }

  lemma {:induction false} RunSwitches(hash: Hash, s: State, before: seq<Action>, moved: bool)
    requires Run(hash, s, before).ram.updater.Stored?
    ensures Run(hash, s, before + [SetBoot(moved)]) == SetBootStep(Run(hash, s, before), moved)
  {
    RunSnoc(hash, s, before, SetBoot(moved));
  }

  lemma {:induction false} RunAppend(hash: Hash, s: State, a: seq<Action>, b: seq<Action>)
    ensures Run(hash, s, a + b) == Run(hash, Run(hash, s, a), b)
    decreases |a|
  {
    if a == [] {
      assert a + b == b;
    } else {
      assert (a + b)[1..] == a[1..] + b;
      RunAppend(hash, Next(hash, s, a[0]), a[1..], b);
    }
  }

  /** A record of the running slot's or the other slot's update, complete but for the last stage. */
  function LeftRecord(first: Manifest, p: Slot): Nvs {
    map[KPending := One, KRelease := Text(first.release), KVersion := Text(first.version),
        KLabel := Place(p), KAddress := Place(p), KSha256 := Sum(first.sha256)]
  }

  /** Slot 0 runs, trusted, with a record left over: of slot 1 after a rollback, of slot 0 if the power
      was cut between the marking of that image and the clearing of its record. */
  function LeftOver(first: Manifest, p: Slot): State {
    State(Flash([], [], Ota0, Trusted, Ota1, LeftRecord(first, p)), ColdRam(Ota0), Log([], []))
  }

  const UNTIL_ERASING: seq<Action> :=
    [Prepare(true, true), NetworkStarts(true), StartConfirm(true), AudioStarts(true), ConfirmLoads(true), ConfirmReports(true)]

  /** After a rollback the confirm task reaches its erase, and can stay there. */
  lemma {:induction false} ConfirmReachesErase(hash: Hash, first: Manifest) returns (schedule: seq<Action>)
    ensures var start := LeftOver(first, Ota1); var s := Run(hash, start, schedule);
      && s.ram.phase.Ready? && s.ram.updater.NoUpdate? && s.ram.running == Ota0 && s.flash == start.flash
      && Erases(s.ram, ByConfirmer)
  {
    var start := LeftOver(first, Ota1);
    var s := start;
    schedule := [];
    for k := 0 to |UNTIL_ERASING|
      invariant s == Run(hash, start, schedule) && s.flash == start.flash && s.log == start.log
      invariant s.ram == ErasingLeg(k)
    {
      RunSnoc(hash, start, schedule, UNTIL_ERASING[k]);
      schedule := schedule + [UNTIL_ERASING[k]];
      s := Next(hash, s, UNTIL_ERASING[k]);
    }
  }

  /** The memory of that boot after `k` of those actions. */
  function ErasingLeg(k: nat): Ram {
    var r0 := ColdRam(Ota0);
    if k == 0 then r0
    else if k == 1 then r0.(phase := Starting)
    else if k == 2 then r0.(phase := NetworkUp, migrationReady := true)
    else if k == 3 then r0.(phase := NetworkUp, migrationReady := true, confirmer := Loading)
    else
      r0.(phase := Ready, migrationReady := true, audioReady := true,
          confirmer := if k == 4 then Loading else if k == 5 then Reporting(false) else Erasing)
  }

  const UNTIL_CLEARING: seq<Action> :=
    [Prepare(true, true), NetworkStarts(true), StartConfirm(false), AudioStarts(true), SetConnected(true),
     NoteReady(true), MarkValid(true)]

  /** With the record of the running slot left over, the validation task reaches its erase. */
  lemma {:induction false} ValidationReachesErase(hash: Hash, first: Manifest) returns (schedule: seq<Action>)
    ensures var start := LeftOver(first, Ota0); var s := Run(hash, start, schedule);
      && s.ram.phase.Ready? && s.ram.updater.NoUpdate? && s.ram.running == Ota0 && s.flash == start.flash
      && Erases(s.ram, ByValidator)
  {
    var start := LeftOver(first, Ota0);
    var s := start;
    schedule := [];
    for k := 0 to |UNTIL_CLEARING|
      invariant s == Run(hash, start, schedule) && s.flash == start.flash
      invariant s.ram == ClearingLeg(k)
    {
      RunSnoc(hash, start, schedule, UNTIL_CLEARING[k]);
      schedule := schedule + [UNTIL_CLEARING[k]];
      s := Next(hash, s, UNTIL_CLEARING[k]);
    }
  }

  function ClearingLeg(k: nat): Ram {
    var r0 := ColdRam(Ota0);
    var r1 := r0.(phase := Starting, validationPending := true, timeoutArmed := true);
    var r2 := r1.(phase := NetworkUp, migrationReady := true);
    var r4 := r2.(phase := Ready, audioReady := true, confirmer := Gone);
    if k == 0 then r0
    else if k == 1 then r1
    else if k == 2 then r2
    else if k == 3 then r2.(confirmer := Gone)
    else if k == 4 then r4
    else if k == 5 then r4.(connected := true)
    else if k == 6 then r4.(connected := true, businessReady := true, noted := true, validator := Marking)
    else r4.(connected := true, businessReady := true, noted := true, validator := ErasingFirst, validationPending := false)
  }

  /** An update that arrives at a ready device is written and verified, whatever the other tasks do. */
  lemma {:induction false} UpdateIsVerified(hash: Hash, start: State, before: seq<Action>, m: Manifest, image: seq<byte>)
    returns (schedule: seq<Action>)
    requires image != [] && Matches(hash, image, m) && MayUpdate(Run(hash, start, before))
    ensures var s, t := Run(hash, start, before), Run(hash, start, schedule);
      t == Updating(s, image, Verified(m))
  {
    var s := Run(hash, start, before);
    assert [] + image == image;
    schedule := before + [BeginWrite(m, true)];
    RunSnoc(hash, start, before, BeginWrite(m, true));
    OneStep(hash, s, BeginWrite(m, true));
    RunBegins(hash, s, m);
    WriteUpdates(s, m, [], image, true);
    RunWrites(hash, start, schedule, image, true);
    schedule := schedule + [WriteChunk(image, true)];
    RunEndsStream(hash, start, schedule, true);
    schedule := schedule + [EndStream(true)];
  }

  /** So the race is real, with either task as the eraser: an update can be verified while an old record
      is still being cleared, and beginning its record then can lose it. */
  lemma {:induction false} RaceIsReachable(hash: Hash, first: Manifest, m: Manifest, image: seq<byte>, byConfirmer: bool)
    returns (schedule: seq<Action>)
    requires image != [] && Matches(hash, image, m)
    ensures var start := LeftOver(first, if byConfirmer then Ota1 else Ota0);
      var s := Run(hash, start, schedule);
      && Settled(start) && s.ram.updater == Verified(m)
      && Erases(s.ram, if byConfirmer then ByConfirmer else ByValidator)
      && CanLose(hash, Step(hash, s, BeginStore))
  {
    var start := LeftOver(first, if byConfirmer then Ota1 else Ota0);
    var before: seq<Action>;
    if byConfirmer {
      before := ConfirmReachesErase(hash, first);
    } else {
      before := ValidationReachesErase(hash, first);
    }
    schedule := UpdateIsVerified(hash, start, before, m, image);
    RecordCanBeLostIff(hash, start, schedule);
  }

  // ---------------------------------------------------------------- the device

  /** The flash, the flags of this boot and the tasks' progress, changed in place. */
  class OtaDevice {
    const hash: Hash
    var flash: Flash
    var ram: Ram
    ghost var log: Log

    ghost function Now(): State
      reads this
    {
      State(flash, ram, log)
    }

    ghost predicate Sound()
      reads this
    {
      Inv(hash, Now())
    }

    constructor (hash: Hash, flash: Flash)
      ensures this.hash == hash && Now() == State(flash, ColdRam(flash.boot), Log([], []))
    {
      this.hash := hash;
      this.flash := flash;
      ram := ColdRam(flash.boot);
      log := Log([], []);
    }

    method LoadPending() returns (found: Loaded)
      ensures found == Load(flash.nvs)
      ensures found.Pending? <==>
                && {KPending, KRelease, KVersion, KLabel, KAddress, KSha256} <= flash.nvs.Keys
                && flash.nvs[KLabel].Place? && flash.nvs[KAddress].Place?
      ensures found.Pending? ==> flash.nvs[KLabel] == Place(found.named) && flash.nvs[KAddress] == Place(found.address)
    {
      if KPending !in flash.nvs || KRelease !in flash.nvs || KVersion !in flash.nvs {
        return Missing;
      }
      if KLabel !in flash.nvs || KAddress !in flash.nvs || KSha256 !in flash.nvs {
        return Missing;
      }
      var named, address := flash.nvs[KLabel], flash.nvs[KAddress];
      if !named.Place? || !address.Place? {
        return Missing;
      }
      return Pending(named.slot, address.slot);
    }

    method Reset()
      modifies this
      ensures Now() == Reboot(old(Now()))
    {
      if flash.trust.Fresh? {
        flash := flash.(trust := OnTrial);
      } else if flash.trust.OnTrial? {
        flash := flash.(boot := flash.fallback, trust := Trusted);
      }
      ram := ColdRam(flash.boot);
    }

    /** `app_ota_rollback_prepare_before_network`. */
    method PrepareBeforeNetwork(readable: bool, taskOk: bool)
      requires ram.phase.Booting?
      modifies this
      ensures Now() == PrepareStep(old(Now()), readable, taskOk)
      ensures ram.phase.Starting? <==> readable && (taskOk || !old(RecordNames(flash.nvs, ram.running)))
      ensures ram.phase.Starting? ==>
                && flash == old(flash)
                && ram == if old(RecordNames(flash.nvs, ram.running))
                          then old(ram).(phase := Starting, validationPending := true, timeoutArmed := true)
                          else old(ram).(phase := Starting)
      ensures !ram.phase.Starting? ==> ram == ColdRam(flash.boot)
    {
      if !readable {
        Reset();
        return;
      }
      var found := LoadPending();
      if found.Pending? && found.named == ram.running && found.address == ram.running {
        if !taskOk {
          Reset();
          return;
        }
        ram := ram.(validationPending := true, timeoutArmed := true);
      }
      ram := ram.(phase := Starting);
    }

    /** One read of the download: it is hashed and counted, and written unless it is too much. */
    method TakeChunk(chunk: seq<byte>, accepted: bool) returns (ok: bool)
      requires ram.updater.Writing? && chunk != []
      modifies this
      ensures Now() == WriteStep(old(Now()), chunk, accepted)
      ensures ok <==> ram.updater.Writing?
    {
      var m, received := ram.updater.m, ram.updater.received + chunk;
      if |received| > m.size || !accepted {
        ram := ram.(updater := NoUpdate);
        return false;
      }
      var p := Other(ram.running);
      flash := WithImage(flash, p, Image(flash, p) + chunk);
      ram := ram.(updater := Writing(m, received));
      return true;
    }

    method BeginDownload(m: Manifest)
      modifies this
      ensures Now() == Updating(old(Now()), [], Writing(m, []))
    {
      flash := WithImage(flash, Other(ram.running), []);
      ram := ram.(updater := Writing(m, []));
    }

    /** The checks behind the loop: length and hash. */
    method EndDownload(closed: bool) returns (ok: bool)
      requires ram.updater.Writing?
      modifies this`ram
      ensures ram == old(ram).(updater := EndedStream(hash, old(ram.updater), closed))
      ensures ok <==> ram.updater.Verified?
    {
      var m, received := ram.updater.m, ram.updater.received;
      ok := |received| == m.size && hash(received) == m.sha256 && closed;
      ram := ram.(updater := if ok then Verified(m) else NoUpdate);
    }

    /** The download loop; `accepts[k]` is whether the flash takes what read k brought. `received` is
        what reached the flash, `schedule` the steps since `start`. */
    method Download(m: Manifest, chunks: seq<seq<byte>>, accepts: seq<bool>, ghost start: State)
      returns (ok: bool, ghost received: seq<byte>, ghost schedule: seq<Action>)
      requires |accepts| == |chunks|
      requires MayUpdate(start) && Now() == Updating(start, [], Writing(m, []))
      modifies this
      ensures ok <==> (forall k :: 0 <= k < |chunks| && chunks[k] != [] ==> accepts[k]) && |Flatten(chunks)| <= m.size
      ensures if ok then received == Flatten(chunks) else received <= Flatten(chunks)
      ensures Now() == Updating(start, received, if ok then Writing(m, received) else NoUpdate)
      ensures Now() == Run(hash, start, schedule)
    {
      RunBegins(hash, start, m);
      schedule, received := [BeginWrite(m, true)], [];
      assert chunks[..0] == [];
      for k := 0 to |chunks|
        invariant forall j :: 0 <= j < k && chunks[j] != [] ==> accepts[j]
        invariant received == Flatten(chunks[..k]) && |received| <= m.size
        invariant Now() == Updating(start, received, Writing(m, received))
        invariant Now() == Run(hash, start, schedule)
      {
        PrefixGrows(chunks, k);
        if chunks[k] == [] {
          continue;
        }
        RunWrites(hash, start, schedule, chunks[k], accepts[k]);
        WriteUpdates(start, m, received, chunks[k], accepts[k]);
        schedule := schedule + [WriteChunk(chunks[k], accepts[k])];
        ok := TakeChunk(chunks[k], accepts[k]);
        if !ok {
          return;
        }
        received := received + chunks[k];
      }
      assert chunks[..|chunks|] == chunks;
      ok := true;
    }

    /** A whole download into the inactive slot: erased, written, counted and hashed. */
    method WriteInactive(m: Manifest, chunks: seq<seq<byte>>, accepts: seq<bool>, closed: bool)
      returns (ok: bool, ghost received: seq<byte>, ghost schedule: seq<Action>)
      requires MayUpdate(Now()) && |accepts| == |chunks|
      modifies this
      ensures ok <==> (forall k :: 0 <= k < |chunks| && chunks[k] != [] ==> accepts[k])
                      && closed && |Flatten(chunks)| == m.size && hash(Flatten(chunks)) == m.sha256
      ensures if ok then received == Flatten(chunks) else received <= Flatten(chunks)
      ensures Now() == Updating(old(Now()), received, if ok then Verified(m) else NoUpdate)
      ensures Now() == Run(hash, old(Now()), schedule)
    {
      ghost var start := Now();
      BeginDownload(m);
      ok, received, schedule := Download(m, chunks, accepts, start);
      if !ok {
        return;
      }
      RunEndsStream(hash, start, schedule, closed);
      schedule := schedule + [EndStream(closed)];
      ok := EndDownload(closed);
    }

    /** One key of the record. */
    method StoreNext(accepted: bool)
      requires ram.updater.Storing? && ram.updater.k < |KEYS|
      modifies this`flash, this`ram
      ensures Now() == StoreStep(old(Now()), accepted)
    {
      var k, m := ram.updater.k, ram.updater.m;
      if !accepted {
        ram := ram.(updater := NoUpdate);
        return;
      }
      flash := flash.(nvs := flash.nvs[KEYS[k] := ValueOf(m, Other(ram.running), KEYS[k])]);
      ram := ram.(updater := if k + 1 == |KEYS| then Stored(m) else Storing(m, k + 1));
    }

    /** `app_ota_p3c_store_pending`; `accepted` is how many writes the flash takes. */
    method StorePending(m: Manifest, accepted: nat) returns (err: EspErr, ghost schedule: seq<Action>)
      requires ram.updater == Verified(m)
      modifies this`flash, this`ram
      ensures err == OK <==> accepted >= |KEYS|
      ensures StoredUpTo(flash.nvs, m, Other(ram.running), Min(accepted, |KEYS|))
      ensures err == OK ==> RecordOf(flash.nvs, m, Other(ram.running))
      ensures flash == old(flash).(nvs := flash.nvs)
      ensures ram == old(ram).(updater := if err == OK then Stored(m) else NoUpdate)
      ensures Now() == Run(hash, old(Now()), schedule)
    {
      ghost var start := Now();
      ram := ram.(updater := Storing(m, 0));
      schedule := [BeginStore];
      RunBeginsStore(hash, start);
      for k := 0 to |KEYS|
        invariant k <= accepted && flash == old(flash).(nvs := flash.nvs)
        invariant ram == old(ram).(updater := if k == |KEYS| then Stored(m) else Storing(m, k))
        invariant StoredUpTo(flash.nvs, m, Other(ram.running), k)
        invariant Now() == Run(hash, start, schedule)
      {
        ghost var before := flash.nvs;
        RunStores(hash, start, schedule, k < accepted);
        schedule := schedule + [StoreKey(k < accepted)];
        StoreNext(k < accepted);
        if k == accepted {
          return Fail, schedule;
        }
        OneKeyMore(before, m, Other(ram.running), k);
      }
      StoredIsLoaded(flash.nvs, m, Other(ram.running));
      return OK, schedule;
    }

    /** The undo of a switch that failed: the keys of `undo` are erased before a write fails or all is done. */
    method ClearPending(undo: seq<Key>) returns (ghost schedule: seq<Action>)
      requires ram.updater.Undoing?
      modifies this`flash, this`ram
      ensures flash == old(flash).(nvs := old(flash.nvs) - set k | k in undo)
      ensures ram == old(ram).(updater := NoUpdate)
      ensures Now() == Run(hash, old(Now()), schedule)
    {
      ghost var start := Now();
      schedule := [];
      for k := 0 to |undo|
        invariant ram == old(ram) && flash == old(flash).(nvs := old(flash.nvs) - set i | i in undo[..k])
        invariant Now() == Run(hash, start, schedule)
      {
        RunSnoc(hash, start, schedule, EraseKey(undo[k]));
        schedule := schedule + [EraseKey(undo[k])];
        assert undo[..k + 1] == undo[..k] + [undo[k]];
        flash := flash.(nvs := flash.nvs - {undo[k]});
      }
      assert undo[..|undo|] == undo;
      RunSnoc(hash, start, schedule, EraseEnds(ByUpdater));
      schedule := schedule + [EraseEnds(ByUpdater)];
      ram := ram.(updater := NoUpdate);
    }

    method SwitchBoot(moved: bool)
      requires ram.updater.Stored?
      modifies this
      ensures Now() == SetBootStep(old(Now()), moved)
    {
      var p, m := Other(ram.running), ram.updater.m;
      if !moved {
        ram := ram.(updater := Undoing);
        return;
      }
      log := log.(moves := log.moves + [Move(p, ram.running, Image(flash, p), m, flash.nvs)]);
      flash := flash.(boot := p, trust := Fresh, fallback := ram.running);
      ram := ram.(updater := Switched(m));
    }

    /** `app_ota_schedule_boot_switch` up to its restart: the record first, then the pointer; if the
        pointer does not move, the record is erased again, as far as that works. */
    method ScheduleBootSwitch(m: Manifest, accepted: nat, moved: bool, undo: seq<Key>)
      returns (err: EspErr, ghost schedule: seq<Action>)
      requires ram.updater == Verified(m) && Matches(hash, Image(flash, Other(ram.running)), m)
      modifies this
      ensures err == OK <==> accepted >= |KEYS| && moved
      ensures err == OK ==>
                && flash.boot == Other(ram.running) && flash.trust.Fresh? && flash.fallback == ram.running
                && Names(Load(flash.nvs), flash.boot) && RecordOf(flash.nvs, m, flash.boot)
                && |Image(flash, flash.boot)| == m.size && hash(Image(flash, flash.boot)) == m.sha256
                && ram == old(ram).(updater := Switched(m))
                && log.moves == old(log.moves) + [Move(flash.boot, ram.running, Image(flash, flash.boot), m, flash.nvs)]
      ensures err != OK ==>
                && flash == old(flash).(nvs := flash.nvs) && log == old(log) && ram == old(ram).(updater := NoUpdate)
                && (accepted >= |KEYS| ==> forall k <- undo :: k !in flash.nvs)
      ensures Now() == Run(hash, old(Now()), schedule)
    {
      ghost var start := Now();
      err, schedule := StorePending(m, accepted);
      if err != OK {
        return;
      }
      StoredIsLoaded(flash.nvs, m, Other(ram.running));
      RunSwitches(hash, start, schedule, moved);
      schedule := schedule + [SetBoot(moved)];
      SwitchBoot(moved);
      if !moved {
        ghost var before := schedule;
        ghost var after := ClearPending(undo);
        RunAppend(hash, start, before, after);
        return InvalidState, before + after;
      }
    }

    /** `app_ota_rollback_note_business_ready`. */
    method NoteBusinessReady(taskOk: bool)
      modifies this
      ensures Now() == Next(hash, old(Now()), NoteReady(taskOk))
      ensures ram.validator.Marking? && !old(ram.validator.Marking?) <==>
                && taskOk && old(ram.phase.Ready? && ram.validationPending && !ram.businessReady && ram.validator.Idle?)
                && old(ram.migrationReady && ram.audioReady && ram.connected)
    {
      if !ram.phase.Ready? || !ram.validationPending || ram.businessReady || !ram.validator.Idle?
         || !ram.migrationReady || !ram.audioReady || !ram.connected {
        return;
      }
      if taskOk {
        ram := ram.(businessReady := true, noted := true, validator := Marking);
      }
    }

    method MarkImageValid(ok: bool)
      requires ram.validator.Marking?
      modifies this
      ensures Now() == MarkStep(old(Now()), ok)
      ensures old(Sound()) ==> Sound() && (ok ==> flash.trust.Trusted? || ram.updater.Switched?)
    {
      ghost var before, sound := Now(), Sound();
      if sound {
        StepKeepsInv(hash, before, MarkValid(ok));
      }
      if !ok {
        ram := ram.(validator := ReportingResult(false));
        return;
      }
      log := log.(marks := log.marks + [Mark(ram.running, ram.noted)]);
      if flash.trust.OnTrial? && ram.running == flash.boot {
        flash := flash.(trust := Trusted);
      }
      ram := ram.(validator := ErasingFirst, validationPending := false);
    }

    method FireTimeout()
      requires ram.timeoutArmed
      modifies this
      ensures Now() == Step(hash, old(Now()), TimeoutFires)
      ensures if old(ram.validationPending) then ram == ColdRam(flash.boot)
              else flash == old(flash) && ram == old(ram).(timeoutArmed := false)
      ensures old(Sound()) ==> Sound()
      ensures old(Sound() && flash.trust.OnTrial? && !ram.phase.Booting?) ==>
                ram.running == Other(old(ram.running)) && flash.trust.Trusted?
    {
      ghost var before, sound := Now(), Sound();
      if sound {
        StepKeepsInv(hash, before, TimeoutFires);
      }
      if ram.validationPending {
        Reset();
      } else {
        ram := ram.(timeoutArmed := false);
      }
    }
  }

  lemma {:induction false} PrefixGrows(chunks: seq<seq<byte>>, k: nat)
    requires k < |chunks|
    ensures Flatten(chunks[..k + 1]) == Flatten(chunks[..k]) + chunks[k]
    ensures Flatten(chunks[..k]) <= Flatten(chunks[..k + 1]) <= Flatten(chunks)
  {
    FlattenSnoc(chunks[..k], chunks[k]);
    FlattenConcat(chunks[..k + 1], chunks[k + 1..]);
    assert chunks[..k + 1] == chunks[..k] + [chunks[k]];
    assert chunks == chunks[..k + 1] + chunks[k + 1..];
  }
}
