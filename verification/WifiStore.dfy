/** The Wi-Fi credential store: two flash slots, an active-slot pointer, and the
    write-verify-flip protocol that replaces the stored list. */
module WifiStore {
  import opened Bytes

  const MAX_WIFI_CREDENTIALS := 5
  const LEGACY_CREDENTIAL_LIMIT := 10
  const SCHEMA_VERSION := 2
  const MAX_SSID := 32
  const MAX_PASSWORD := 64

  type uint64 = x: int | 0 <= x < 0x1_0000_0000_0000_0000

  datatype Cred = Cred(ssid: string, password: string, lastSuccess: uint64)

  datatype Option<+T> = None | Some(value: T)

  // ---------------------------------------------------------------- what flash holds

  type CString = s: string | '\0' !in s

  datatype Key = Schema | Count | Ssid(i: nat) | Pass(i: nat) | Seen(i: nat)

  datatype Value = Number(n: nat) | Text(s: CString)

  type Slot = map<Key, Value>

  /** The namespace of earlier firmware: names and passwords by index; absent when `None`. */
  type Legacy = Option<map<Key, CString>>

  /** `active` is the raw pointer byte, or -1 when it was never written. */
  datatype Flash = Flash(a: Slot, b: Slot, active: int, legacy: Legacy) {
    function Active(): int { if active == 0 || active == 1 then active else -1 }

    function SlotAt(i: int): Slot { if i == 0 then a else b }

    function WithSlot(i: int, s: Slot): Flash { if i == 0 then this.(a := s) else this.(b := s) }
  }

  /** A fault during one operation: the write numbered `at` fails, or the power is cut there. A slot
      being written is left holding `residue` (whatever that is), and a pointer being written has
      moved if `flips`. */
  datatype Fault = Fault(at: nat, residue: Slot, flips: bool)

  // ---------------------------------------------------------------- lists

  ghost predicate Distinct(l: seq<Cred>) {
    forall i, j :: 0 <= i < j < |l| ==> l[i].ssid != l[j].ssid
  }

  ghost predicate WellFormed(l: seq<Cred>) {
    && |l| <= MAX_WIFI_CREDENTIALS
    && Distinct(l)
    && forall i :: 0 <= i < |l| ==> l[i].ssid != ""
  }

  predicate Has(l: seq<Cred>, ssid: string) {
    exists i :: 0 <= i < |l| && l[i].ssid == ssid
  }

  /** A string as C sees it: up to its first NUL. */
  function CStr(s: string): CString {
    if s == "" || s[0] == '\0' then "" else [s[0]] + CStr(s[1..])
  }

  lemma {:induction false} CStrOfClean(s: string)
    ensures CStr(s) == s <==> '\0' !in s
  {
    if s != "" {
      CStrOfClean(s[1..]);
      assert s == [s[0]] + s[1..];
    }
  }

  predicate NulFree(l: seq<Cred>) {
    forall i :: 0 <= i < |l| ==> '\0' !in l[i].ssid && '\0' !in l[i].password
  }

  // ---------------------------------------------------------------- slots

  predicate HasNumber(s: Slot, k: Key) { k in s && s[k].Number? }

  predicate HasText(s: Slot, k: Key) { k in s && s[k].Text? }

  predicate HasEntry(s: Slot, i: nat) {
    HasText(s, Ssid(i)) && HasText(s, Pass(i)) && HasNumber(s, Seen(i)) && s[Seen(i)].n < TWO_TO_THE_64
  }

  function EntryAt(s: Slot, i: nat): Cred
    requires HasEntry(s, i)
  {
    Cred(s[Ssid(i)].s, s[Pass(i)].s, s[Seen(i)].n)
  }

  predicate HeaderOk(s: Slot) {
    && HasNumber(s, Schema) && HasNumber(s, Count)
    && s[Schema].n == SCHEMA_VERSION && s[Count].n <= MAX_WIFI_CREDENTIALS
  }

  ghost predicate Readable(s: Slot) {
    && HeaderOk(s)
    && (forall i :: 0 <= i < s[Count].n ==> HasEntry(s, i))
    && WellFormed(seq(s[Count].n, i requires 0 <= i < s[Count].n => EntryAt(s, i)))
  }

  /** What a slot says: its list if every part of it is present and the list is well formed. */
  ghost function ReadSlot(s: Slot): (r: Option<seq<Cred>>)
    ensures r.Some? ==> WellFormed(r.value)
  {
    if Readable(s) then Some(seq(s[Count].n, i requires 0 <= i < s[Count].n => EntryAt(s, i))) else None
  }

  lemma {:induction false} ReadablePrefix(s: Slot, p: seq<Cred>)
    requires HeaderOk(s) && |p| <= s[Count].n
    requires forall i :: 0 <= i < |p| ==> HasEntry(s, i) && p[i] == EntryAt(s, i)
    ensures Readable(s) ==> WellFormed(p)
  {
    if Readable(s) {
      assert p == ReadSlot(s).value[..|p|];
    }
  }

  /** A slot after its header and its first `n` entries were written. */
  function Written(l: seq<Cred>, n: nat): Slot
    requires n <= |l|
  {
    if n == 0 then map[Schema := Number(SCHEMA_VERSION), Count := Number(|l|)]
    else
      var i := n - 1;
      Written(l, i)[Ssid(i) := Text(CStr(l[i].ssid))][Pass(i) := Text(CStr(l[i].password))]
                   [Seen(i) := Number(l[i].lastSuccess)]
  }

  function Image(l: seq<Cred>): Slot { Written(l, |l|) }

  /** Erase, schema, count, three keys an entry, commit. */
  function WriteCount(l: seq<Cred>): nat { 4 + 3 * |l| }

  lemma {:induction false} WrittenHolds(l: seq<Cred>, n: nat)
    requires n <= |l|
    ensures var s := Written(l, n);
            && HasNumber(s, Schema) && s[Schema].n == SCHEMA_VERSION
            && HasNumber(s, Count) && s[Count].n == |l|
            && forall i :: 0 <= i < n ==>
                 HasEntry(s, i) && EntryAt(s, i) == Cred(CStr(l[i].ssid), CStr(l[i].password), l[i].lastSuccess)
  {
    if n > 0 {
      WrittenHolds(l, n - 1);
      var s, t := Written(l, n), Written(l, n - 1);
      forall i | 0 <= i < n
        ensures HasEntry(s, i) && EntryAt(s, i) == Cred(CStr(l[i].ssid), CStr(l[i].password), l[i].lastSuccess)
      {
        if i < n - 1 {
          assert HasEntry(t, i);
        }
      }
    }
  }

  /** The verify step: what was just written reads back as the same list exactly when no name and no
      password contains a NUL. */
  lemma {:induction false} VerifySucceedsIff(l: seq<Cred>)
    requires WellFormed(l)
    ensures ReadSlot(Image(l)) == Some(l) <==> NulFree(l)
  {
    var s := Image(l);
    WrittenHolds(l, |l|);
    forall i | 0 <= i < |l|
      ensures EntryAt(s, i) == l[i] <==> '\0' !in l[i].ssid && '\0' !in l[i].password
    {
      CStrOfClean(l[i].ssid);
      CStrOfClean(l[i].password);
    }
    var entries := seq(|l|, i requires 0 <= i < |l| => EntryAt(s, i));
    if NulFree(l) {
      assert entries == l;
    } else if ReadSlot(s) == Some(l) {
      forall i | 0 <= i < |l| ensures EntryAt(s, i) == l[i] {
        assert ReadSlot(s).value[i] == entries[i];
      }
      assert false;
    }
  }

  // ---------------------------------------------------------------- legacy credentials

  function LegacyNext(m: map<Key, CString>, index: nat, acc: seq<Cred>): seq<Cred>
    requires index < LEGACY_CREDENTIAL_LIMIT
  {
    if Ssid(index) in m && Pass(index) in m && m[Ssid(index)] != "" && !Has(acc, m[Ssid(index)])
    then acc + [Cred(m[Ssid(index)], m[Pass(index)], LEGACY_CREDENTIAL_LIMIT - index)]
    else acc
  }

  /** A missing name is skipped; a name without a password ends the scan. */
  function LegacyFrom(m: map<Key, CString>, index: nat, acc: seq<Cred>): (r: seq<Cred>)
    requires index <= LEGACY_CREDENTIAL_LIMIT
    decreases LEGACY_CREDENTIAL_LIMIT - index
  {
    if index == LEGACY_CREDENTIAL_LIMIT || (Ssid(index) in m && Pass(index) !in m) then acc
    else LegacyFrom(m, index + 1, LegacyNext(m, index, acc))
  }

  function ReadLegacy(legacy: Legacy): seq<Cred> {
    if legacy.None? then []
    else
      var l := LegacyFrom(legacy.value, 0, []);
      if |l| > MAX_WIFI_CREDENTIALS then l[..MAX_WIFI_CREDENTIALS] else l
  }

  ghost predicate CleanLegacy(l: seq<Cred>) {
    Distinct(l) && NulFree(l) && forall i :: 0 <= i < |l| ==> l[i].ssid != ""
  }

  lemma {:induction false} LegacyFromIsClean(m: map<Key, CString>, index: nat, acc: seq<Cred>)
    requires index <= LEGACY_CREDENTIAL_LIMIT && CleanLegacy(acc)
    ensures CleanLegacy(LegacyFrom(m, index, acc))
    decreases LEGACY_CREDENTIAL_LIMIT - index
  {
    if index < LEGACY_CREDENTIAL_LIMIT {
      LegacyFromIsClean(m, index + 1, LegacyNext(m, index, acc));
    }
  }

  lemma {:induction false} LegacyIsWellFormed(legacy: Legacy)
    ensures WellFormed(ReadLegacy(legacy)) && NulFree(ReadLegacy(legacy))
  {
    if legacy.Some? {
      LegacyFromIsClean(legacy.value, 0, []);
    }
  }

  // ---------------------------------------------------------------- persisting and loading

  /** Writes the list into the slot that is not active, reads it back, and moves the pointer. */
  ghost function Persist(f: Flash, l: seq<Cred>, fault: Fault): (Flash, bool) {
    var target := if f.Active() == 0 then 1 else 0;
    if fault.at < WriteCount(l) then (f.WithSlot(target, fault.residue), false)
    else
      var g := f.WithSlot(target, Image(l));
      if ReadSlot(Image(l)) != Some(l) then (g, false)
      else MovePointer(g, target, fault.at - WriteCount(l), fault)
  }

  /** The pointer takes two writes, the set and the commit. */
  function MovePointer(f: Flash, target: int, left: nat, fault: Fault): (Flash, bool) {
    if left >= 2 then (f.(active := target), true)
    else (if fault.flips then f.(active := target) else f, false)
  }

  /** The list a boot finds: the active slot's, else the other slot's, else the legacy one. */
  ghost function Stored(f: Flash): Option<seq<Cred>> {
    if f.Active() < 0 then Some(ReadLegacy(f.legacy))
    else
      var first := ReadSlot(f.SlotAt(f.Active()));
      var second := ReadSlot(f.SlotAt(1 - f.Active()));
      if first.Some? then first
      else if second.Some? then second
      else if ReadLegacy(f.legacy) != [] then Some(ReadLegacy(f.legacy)) else None
  }

  /** A readable active slot, or none yet. */
  ghost predicate Healthy(f: Flash) {
    f.Active() >= 0 ==> ReadSlot(f.SlotAt(f.Active())).Some?
  }

  /** A boot, with a fault possible during its own writes: new flash, the list in memory, success. */
  ghost function Load(f: Flash, fault: Fault): (Flash, seq<Cred>, bool) {
    if f.Active() < 0 then Migrate(f, ReadLegacy(f.legacy), fault, true)
    else if ReadSlot(f.SlotAt(f.Active())).Some? then (f, ReadSlot(f.SlotAt(f.Active())).value, true)
    else
      var second := ReadSlot(f.SlotAt(1 - f.Active()));
      if second.Some? then
        var (g, ok) := MovePointer(f, 1 - f.Active(), fault.at, fault);
        (g, second.value, ok)
      else Migrate(f, ReadLegacy(f.legacy), fault, false)
  }

  ghost function Migrate(f: Flash, l: seq<Cred>, fault: Fault, emptyIsFine: bool): (Flash, seq<Cred>, bool) {
    if l == [] then (f, l, emptyIsFine)
    else
      var (g, ok) := Persist(f, l, fault);
      (g, l, ok)
  }

  /** The fault that moves the pointer although the operation fails: the pointer's set or its commit
      fails after taking effect, and what was written before it reads back. */
  ghost predicate PointerSlips(l: seq<Cred>, fault: Fault) {
    fault.flips && WriteCount(l) <= fault.at < WriteCount(l) + 2 && NulFree(l)
  }

  /** Crash safety of one replacement: whatever write is cut, the next boot finds the whole old list
      or the whole new one. It succeeds exactly when the list reads back and no write fails, and then
      the new one is found; a reported failure leaves the old one exactly when the fault does not slip
      the pointer (or both lists are the same). */
  lemma {:induction false} PersistIsAtomic(f: Flash, l: seq<Cred>, fault: Fault)
    requires Healthy(f) && WellFormed(l)
    ensures var (g, ok) := Persist(f, l, fault);
            && Healthy(g)
            && (Stored(g) == Stored(f) || Stored(g) == Some(l))
            && (ok <==> NulFree(l) && fault.at >= WriteCount(l) + 2)
            && (ok ==> Stored(g) == Some(l))
            && (!ok ==> (Stored(g) == Stored(f) <==> !PointerSlips(l, fault) || Stored(f) == Some(l)))
  {
    VerifySucceedsIff(l);
  }

  /** A boot that finds a readable active slot, or none yet, gets exactly the stored list into memory
      and leaves the stored list alone, even if it is cut in the middle of migrating. */
  lemma {:induction false} LoadIsTransparent(f: Flash, fault: Fault)
    requires Healthy(f)
    ensures var (g, list, ok) := Load(f, fault);
            && Healthy(g) && Stored(g) == Stored(f) == Some(list)
            && WellFormed(list)
            && (fault.at >= WriteCount(list) + 2 ==> ok)
  {
    LegacyIsWellFormed(f.legacy);
    if f.Active() < 0 && ReadLegacy(f.legacy) != [] {
      PersistIsAtomic(f, ReadLegacy(f.legacy), fault);
      VerifySucceedsIff(ReadLegacy(f.legacy));
    }
  }

  /** A boot that finds its active slot unreadable takes the other slot's list and selects that slot; it
      succeeds if both writes of the pointer do, and loses nothing if they do not. */
  lemma {:induction false} LoadFallsBack(f: Flash, fault: Fault)
    requires f.Active() >= 0 && ReadSlot(f.SlotAt(f.Active())).None? && ReadSlot(f.SlotAt(1 - f.Active())).Some?
    ensures var (g, list, ok) := Load(f, fault);
            && Some(list) == ReadSlot(f.SlotAt(1 - f.Active())) && Stored(g) == Stored(f) == Some(list)
            && (ok <==> fault.at >= 2) && (ok ==> Healthy(g)) && g.a == f.a && g.b == f.b
  {
  }

  /** If neither slot is readable, what earlier firmware left is taken, and an empty list is an error. */
  lemma {:induction false} LoadFallsBackToLegacy(f: Flash, fault: Fault)
    requires f.Active() >= 0 && ReadSlot(f.a).None? && ReadSlot(f.b).None?
    ensures var (g, list, ok) := Load(f, fault);
            && list == ReadLegacy(f.legacy)
            && (ok <==> list != [] && fault.at >= WriteCount(list) + 2)
            && (ok ==> Healthy(g) && Stored(g) == Some(list))
            && (list == [] ==> g == f)
  {
    LegacyIsWellFormed(f.legacy);
    VerifySucceedsIff(ReadLegacy(f.legacy));
  }

  // ---------------------------------------------------------------- editing the list

  function FindSsid(l: seq<Cred>, ssid: string): (i: nat)
    ensures i <= |l|
    ensures i < |l| ==> l[i].ssid == ssid
    ensures forall j :: 0 <= j < i ==> l[j].ssid != ssid
  {
    if l == [] || l[0].ssid == ssid then 0 else 1 + FindSsid(l[1..], ssid)
  }

  function Newest(l: seq<Cred>): (n: uint64)
    ensures forall i :: 0 <= i < |l| ==> l[i].lastSuccess <= n
    ensures l != [] ==> exists i :: 0 <= i < |l| && l[i].lastSuccess == n
  {
    if l == [] then 0
    else
      var n := Newest(l[1..]);
      if l[0].lastSuccess >= n then assert l[0].lastSuccess == l[0].lastSuccess; l[0].lastSuccess else n
  }

  /** `std::min_element`: the first entry with the least `lastSuccess`. */
  function Oldest(l: seq<Cred>): (i: nat)
    requires l != []
    ensures i < |l|
    ensures forall j :: 0 <= j < |l| ==> l[i].lastSuccess <= l[j].lastSuccess
    ensures forall j :: 0 <= j < i ==> l[i].lastSuccess < l[j].lastSuccess
  {
    if |l| == 1 then 0
    else
      var i := Oldest(l[1..]);
      if l[0].lastSuccess <= l[1..][i].lastSuccess then 0 else i + 1
  }

  function Upserted(l: seq<Cred>, ssid: string, password: string): seq<Cred> {
    var i := FindSsid(l, ssid);
    if i < |l| then l[i := l[i].(password := password)]
    else
      var room := if |l| >= MAX_WIFI_CREDENTIALS then l[..Oldest(l)] + l[Oldest(l) + 1..] else l;
      room + [Cred(ssid, password, 0)]
  }

  /** `std::stable_sort` by descending `lastSuccess`. */
  function SortDesc(l: seq<Cred>): (r: seq<Cred>)
    ensures |r| == |l|
  {
    if l == [] then [] else InsertDesc(l[0], SortDesc(l[1..]))
  }

  function InsertDesc(x: Cred, l: seq<Cred>): (r: seq<Cred>)
    ensures |r| == |l| + 1
  {
    if l == [] || x.lastSuccess >= l[0].lastSuccess then [x] + l else [l[0]] + InsertDesc(x, l[1..])
  }

  function Marked(l: seq<Cred>, ssid: string): seq<Cred>
    requires Has(l, ssid)
  {
    var i := FindSsid(l, ssid);
    SortDesc(l[i := l[i].(lastSuccess := (Newest(l) + 1) % TWO_TO_THE_64)])
  }

  datatype Item = Item(ssid: string, password: string)

  /** The list a runtime change asks for: the first five items with distinct non-empty names, each
      keeping the success counter it had. */
  function Merged(l: seq<Cred>, items: seq<Item>, acc: seq<Cred>): (r: seq<Cred>)
    requires |acc| < MAX_WIFI_CREDENTIALS
    decreases items
  {
    if items == [] then acc
    else if items[0].ssid == "" || Has(acc, items[0].ssid) then Merged(l, items[1..], acc)
    else
      var i := FindSsid(l, items[0].ssid);
      var next := acc + [Cred(items[0].ssid, items[0].password, if i < |l| then l[i].lastSuccess else 0)];
      if |next| == MAX_WIFI_CREDENTIALS then next else Merged(l, items[1..], next)
  }

  lemma {:induction false} UpsertedIsWellFormed(l: seq<Cred>, ssid: string, password: string)
    requires WellFormed(l) && ssid != ""
    ensures WellFormed(Upserted(l, ssid, password)) && Has(Upserted(l, ssid, password), ssid)
  {
    var r := Upserted(l, ssid, password);
    var i := FindSsid(l, ssid);
    assert r[if i < |l| then i else |r| - 1].ssid == ssid;
  }

  ghost predicate Descending(l: seq<Cred>) {
    forall i, j :: 0 <= i < j < |l| ==> l[i].lastSuccess >= l[j].lastSuccess
  }

  lemma {:induction false} InsertDescKeeps(x: Cred, l: seq<Cred>)
    ensures multiset(InsertDesc(x, l)) == multiset(l) + multiset{x}
    ensures forall y :: y in InsertDesc(x, l) <==> y == x || y in l
  {
    if l != [] && x.lastSuccess < l[0].lastSuccess {
      InsertDescKeeps(x, l[1..]);
      assert l == [l[0]] + l[1..];
    }
  }

  lemma {:induction false} InsertDescSorts(x: Cred, l: seq<Cred>)
    requires Descending(l) && Distinct(l) && forall y :: y in l ==> y.ssid != x.ssid
    ensures Descending(InsertDesc(x, l)) && Distinct(InsertDesc(x, l))
  {
    if l != [] && x.lastSuccess < l[0].lastSuccess {
      InsertDescSorts(x, l[1..]);
      InsertDescKeeps(x, l[1..]);
      var t := InsertDesc(x, l[1..]);
      forall y | y in t ensures y.lastSuccess <= l[0].lastSuccess && y.ssid != l[0].ssid {
        assert y == x || y in l[1..];
      }
    }
  }

  lemma {:induction false} SortDescContents(l: seq<Cred>)
    ensures multiset(SortDesc(l)) == multiset(l)
    ensures forall y :: y in SortDesc(l) <==> y in l
  {
    if l != [] {
      SortDescContents(l[1..]);
      InsertDescKeeps(l[0], SortDesc(l[1..]));
      assert l == [l[0]] + l[1..];
    }
  }

  lemma {:induction false} SortDescSorts(l: seq<Cred>)
    requires Distinct(l)
    ensures Descending(SortDesc(l)) && Distinct(SortDesc(l))
  {
    if l != [] {
      SortDescSorts(l[1..]);
      SortDescContents(l[1..]);
      InsertDescSorts(l[0], SortDesc(l[1..]));
    }
  }

  function WithCounter(l: seq<Cred>, n: uint64): seq<Cred> {
    if l == [] then [] else (if l[0].lastSuccess == n then [l[0]] else []) + WithCounter(l[1..], n)
  }

  lemma {:induction false} WithCounterCons(x: Cred, l: seq<Cred>, n: uint64)
    ensures WithCounter([x] + l, n) == (if x.lastSuccess == n then [x] else []) + WithCounter(l, n)
  {
    assert ([x] + l)[1..] == l;
  }

  /** Stability: entries with equal counters keep their order. */
  lemma {:induction false} SortDescIsStable(l: seq<Cred>, n: uint64)
    ensures WithCounter(SortDesc(l), n) == WithCounter(l, n)
  {
    if l != [] {
      SortDescIsStable(l[1..], n);
      InsertDescIsStable(l[0], SortDesc(l[1..]), n);
    }
  }

  lemma {:induction false} InsertDescIsStable(x: Cred, l: seq<Cred>, n: uint64)
    ensures WithCounter(InsertDesc(x, l), n) == (if x.lastSuccess == n then [x] else []) + WithCounter(l, n)
  {
    if l == [] || x.lastSuccess >= l[0].lastSuccess {
      WithCounterCons(x, l, n);
    } else {
      InsertDescIsStable(x, l[1..], n);
      WithCounterCons(l[0], InsertDesc(x, l[1..]), n);
    }
  }

  lemma {:induction false} MarkedIsWellFormed(l: seq<Cred>, ssid: string)
    requires WellFormed(l) && Has(l, ssid)
    ensures WellFormed(Marked(l, ssid))
  {
    var i := FindSsid(l, ssid);
    var m := l[i := l[i].(lastSuccess := (Newest(l) + 1) % TWO_TO_THE_64)];
    SortDescSorts(m);
    SortDescContents(m);
    forall k | 0 <= k < |m| ensures SortDesc(m)[k].ssid != "" {
      assert SortDesc(m)[k] in m;
    }
  }

  lemma {:induction false} MergedIsWellFormed(l: seq<Cred>, items: seq<Item>, acc: seq<Cred>)
    requires |acc| < MAX_WIFI_CREDENTIALS && WellFormed(acc)
    ensures WellFormed(Merged(l, items, acc))
    decreases items
  {
    if items != [] {
      if items[0].ssid == "" || Has(acc, items[0].ssid) {
        MergedIsWellFormed(l, items[1..], acc);
      } else {
        var i := FindSsid(l, items[0].ssid);
        var next := acc + [Cred(items[0].ssid, items[0].password, if i < |l| then l[i].lastSuccess else 0)];
        if |next| < MAX_WIFI_CREDENTIALS {
          MergedIsWellFormed(l, items[1..], next);
        }
      }
    }
  }

  // ---------------------------------------------------------------- runs of operations and reboots

  datatype Op = Upsert(ssid: string, password: string) | Mark(ssid: string) | Replace(items: seq<Item>) | Boot

  /** The device: what flash holds and the list in memory. */
  datatype Store = Store(flash: Flash, ram: seq<Cred>)

  predicate Accepted(l: seq<Cred>, op: Op) {
    match op
    case Upsert(ssid, password) => 0 < |ssid| <= MAX_SSID && |password| <= MAX_PASSWORD
    case Mark(ssid) => Has(l, ssid)
    case Replace(_) => true
    case Boot => false
  }

  function Edited(l: seq<Cred>, op: Op): seq<Cred>
    requires Accepted(l, op)
  {
    match op
    case Upsert(ssid, password) => Upserted(l, ssid, password)
    case Mark(ssid) => Marked(l, ssid)
    case Replace(items) => Merged(l, items, [])
  }

  /** One operation (or a reboot, which loses the memory) with its fault. A power cut inside an
      operation is that operation failing at that write, followed by `Boot`. */
  ghost function Step(st: Store, op: Op, fault: Fault): (Store, bool) {
    if op.Boot? then
      var (g, list, ok) := Load(st.flash, fault);
      (Store(g, list), ok)
    else if !Accepted(st.ram, op) then (st, false)
    else
      var (g, ok) := Persist(st.flash, Edited(st.ram, op), fault);
      (Store(g, if ok then Edited(st.ram, op) else st.ram), ok)
  }

  ghost function Run(st: Store, ops: seq<(Op, Fault)>): Store
    decreases ops
  {
    if ops == [] then st else Run(Step(st, ops[0].0, ops[0].1).0, ops[1..])
  }

  ghost predicate Good(st: Store) {
    && Healthy(st.flash) && WellFormed(st.ram)
    && Stored(st.flash).Some? && WellFormed(Stored(st.flash).value)
  }

  lemma {:induction false} EditedIsWellFormed(l: seq<Cred>, op: Op)
    requires WellFormed(l) && Accepted(l, op)
    ensures WellFormed(Edited(l, op))
  {
    match op
    case Upsert(ssid, password) => UpsertedIsWellFormed(l, ssid, password);
    case Mark(ssid) => MarkedIsWellFormed(l, ssid);
    case Replace(items) => MergedIsWellFormed(l, items, []);
  }

  /** One operation, cut or failing anywhere: the stored list is the whole old one or the whole edited
      one; success means the edited one, in memory too; failure leaves memory as it was. */
  lemma {:induction false} StepIsAtomic(st: Store, op: Op, fault: Fault)
    requires Good(st)
    ensures var (after, ok) := Step(st, op, fault);
            && Good(after)
            && (op.Boot? ==> Stored(after.flash) == Stored(st.flash) == Some(after.ram))
            && (!op.Boot? && !ok ==> after.ram == st.ram)
            && (!op.Boot? && ok ==> Accepted(st.ram, op) && after.ram == Edited(st.ram, op)
                                    && Stored(after.flash) == Some(after.ram))
            && (Stored(after.flash) == Stored(st.flash)
                || (Accepted(st.ram, op) && Stored(after.flash) == Some(Edited(st.ram, op))))
            && (!ok && !(Accepted(st.ram, op) && PointerSlips(Edited(st.ram, op), fault)) ==>
                  Stored(after.flash) == Stored(st.flash))
  {
    if op.Boot? {
      LoadIsTransparent(st.flash, fault);
    } else if Accepted(st.ram, op) {
      EditedIsWellFormed(st.ram, op);
      PersistIsAtomic(st.flash, Edited(st.ram, op), fault);
    }
  }

  /** Over any sequence of operations, reboots and faults: at most five entries, distinct non-empty
      names, in memory and in flash. And as long as no failing pointer write moves the pointer, flash
      and memory never disagree. */
  lemma {:induction false} RunStaysGood(st: Store, ops: seq<(Op, Fault)>)
    requires Good(st)
    ensures Good(Run(st, ops))
    ensures Stored(st.flash) == Some(st.ram) && (forall i :: 0 <= i < |ops| ==> !ops[i].1.flips) ==>
              Stored(Run(st, ops).flash) == Some(Run(st, ops).ram)
    decreases ops
  {
    if ops != [] {
      StepIsAtomic(st, ops[0].0, ops[0].1);
      RunStaysGood(Step(st, ops[0].0, ops[0].1).0, ops[1..]);
    }
  }

  /** A failed operation can change the stored list: the commit of the pointer fails after the set
      took effect, so memory keeps the old list and the next boot loads the new one. */
  lemma {:induction false} FailureCanChangeTheStoredList() returns (st: Store, op: Op, fault: Fault)
    ensures Good(st) && Stored(st.flash) == Some(st.ram)
    ensures var (after, ok) := Step(st, op, fault);
            !ok && after.ram == st.ram && Stored(after.flash) != Some(st.ram)
  {
    st := Store(Flash(map[], map[], -1, None), []);
    op := Upsert("home", "secret");
    var list := [Cred("home", "secret", 0)];
    fault := Fault(WriteCount(list) + 1, map[], true);
    assert Edited([], op) == list;
    assert NulFree(list) && WellFormed(list);
    VerifySucceedsIff(list);
    PersistIsAtomic(st.flash, list, fault);
    var (after, ok) := Step(st, op, fault);
    assert !ok && after.flash.active == 0 && Stored(after.flash) == Some(list);
    assert Good(st) && Stored(st.flash) == Some(st.ram);
  }

  // ---------------------------------------------------------------- what an operation leaves in the list

  /** The success counter that a name brings along from a list: its own, or zero if it is new. */
  ghost predicate BringsCounter(l: seq<Cred>, ssid: string, n: nat) {
    && (forall x :: x in l && x.ssid == ssid ==> x.lastSuccess == n)
    && (!Has(l, ssid) ==> n == 0)
  }

  /** The first of the entries with the least counter. */
  ghost predicate FirstLeast(l: seq<Cred>, i: nat) {
    && i < |l|
    && (forall j :: 0 <= j < |l| ==> l[i].lastSuccess <= l[j].lastSuccess)
    && (forall j :: 0 <= j < i ==> l[i].lastSuccess < l[j].lastSuccess)
  }

  /** `r` is `l` with that name and password: its entry keeps its place and counter, or comes last with
      counter zero; of the others only the first with the least counter goes, if a new name finds the
      list full. */
  ghost predicate HasUpserted(l: seq<Cred>, r: seq<Cred>, ssid: string, password: string) {
    && Distinct(r)
    && (exists x :: x in r && x.ssid == ssid && x.password == password && BringsCounter(l, ssid, x.lastSuccess))
    && (forall y :: y in r && y.ssid != ssid ==> y in l)
    && (Has(l, ssid) || |l| < MAX_WIFI_CREDENTIALS ==> forall y :: y in l && y.ssid != ssid ==> y in r)
    && (Has(l, ssid) ==> |r| == |l| && forall i :: 0 <= i < |l| ==> r[i].ssid == l[i].ssid)
    && (!Has(l, ssid) ==> r != [] && r[|r| - 1].ssid == ssid)
    && (!Has(l, ssid) && |l| == MAX_WIFI_CREDENTIALS ==>
          exists i: nat :: FirstLeast(l, i) && l[i] !in r && forall y :: y in l && y != l[i] ==> y in r)
  }

  lemma {:induction false} UpsertedHas(l: seq<Cred>, ssid: string, password: string)
    requires WellFormed(l) && ssid != ""
    ensures HasUpserted(l, Upserted(l, ssid, password), ssid, password)
  {
    var r := Upserted(l, ssid, password);
    UpsertedIsWellFormed(l, ssid, password);
    forall y
      ensures y in r && y.ssid != ssid ==> y in l
      ensures y in l && y.ssid != ssid && (Has(l, ssid) || |l| < MAX_WIFI_CREDENTIALS) ==> y in r
    {
      UpsertedContents(l, ssid, password, y);
      if y in l && y.ssid != ssid && FindSsid(l, ssid) < |l| {
        var j :| 0 <= j < |l| && l[j] == y;
        assert r[j] == y;
      }
    }
    UpsertedEntry(l, ssid, password);
    if !Has(l, ssid) && |l| == MAX_WIFI_CREDENTIALS {
      OldestGoes(l, ssid, password);
    }
  }

  lemma {:induction false} UpsertedEntry(l: seq<Cred>, ssid: string, password: string)
    requires WellFormed(l)
    ensures var r := Upserted(l, ssid, password);
      exists x :: x in r && x.ssid == ssid && x.password == password && BringsCounter(l, ssid, x.lastSuccess)
  {
    var r, i := Upserted(l, ssid, password), FindSsid(l, ssid);
    var x := r[if i < |l| then i else |r| - 1];
    assert x in r && x.ssid == ssid && x.password == password;
    assert BringsCounter(l, ssid, x.lastSuccess);
  }

  lemma {:induction false} OldestGoes(l: seq<Cred>, ssid: string, password: string)
    requires WellFormed(l) && !Has(l, ssid) && |l| == MAX_WIFI_CREDENTIALS
    ensures var r := Upserted(l, ssid, password);
      FirstLeast(l, Oldest(l)) && l[Oldest(l)] !in r && forall y :: y in l && y != l[Oldest(l)] ==> y in r
  {
    var r, o := Upserted(l, ssid, password), Oldest(l);
    assert FindSsid(l, ssid) == |l|;
    forall y | y in l && y != l[o] ensures y in r {
      UpsertedContents(l, ssid, password, y);
    }
    assert forall j :: 0 <= j < |r| ==> r[j].ssid == ssid || r[j] == l[if j < o then j else j + 1];
  }

  /** A successful upsert, with whatever fault it survives: memory and the list the next boot finds hold
      the network as asked, once, and nothing else has changed but what had to make room. */
  lemma {:induction false} UpsertStores(st: Store, ssid: string, password: string, fault: Fault)
    requires Good(st) && Step(st, Upsert(ssid, password), fault).1
    ensures var after := Step(st, Upsert(ssid, password), fault).0;
      Stored(after.flash) == Some(after.ram) && HasUpserted(st.ram, after.ram, ssid, password)
  {
    StepIsAtomic(st, Upsert(ssid, password), fault);
    UpsertedHas(st.ram, ssid, password);
  }

  /** When an upsert into a list without NULs succeeds: both strings fit and have no NUL, and the fault
      comes after all of its writes, six and three for each entry. */
  lemma {:induction false} UpsertSucceedsIff(st: Store, ssid: string, password: string, fault: Fault)
    requires Good(st) && NulFree(st.ram)
    ensures var n := if Has(st.ram, ssid) then |st.ram| else Min(|st.ram| + 1, 5);
      Step(st, Upsert(ssid, password), fault).1 <==>
        0 < |ssid| <= 32 && |password| <= 64 && '\0' !in ssid && '\0' !in password && fault.at >= 6 + 3 * n
  {
    var l := st.ram;
    var r := Upserted(l, ssid, password);
    if ssid != "" {
      UpsertedIsWellFormed(l, ssid, password);
      PersistIsAtomic(st.flash, r, fault);
      assert NulFree(r) <==> '\0' !in ssid && '\0' !in password by {
        var i := FindSsid(l, ssid);
        var x := r[if i < |l| then i else |r| - 1];
        assert x.ssid == ssid && x.password == password;
      }
    }
  }

  /** The item with which a name first comes up; items without a name do not count. */
  ghost predicate Wanted(items: seq<Item>, k: nat) {
    k < |items| && items[k].ssid != "" && forall j :: 0 <= j < k ==> items[j].ssid != items[k].ssid
  }

  ghost function WantedUpTo(items: seq<Item>, n: nat): nat {
    if n == 0 then 0 else WantedUpTo(items, n - 1) + if Wanted(items, n - 1) then 1 else 0
  }

  ghost predicate IsItem(l: seq<Cred>, item: Item, x: Cred) {
    x.ssid == item.ssid && x.password == item.password && BringsCounter(l, item.ssid, x.lastSuccess)
  }

  /** The first `n` items are in the list: the wanted ones in their order, with their passwords and the
      counters their names had, until the list is full. */
  ghost predicate HoldsItems(l: seq<Cred>, items: seq<Item>, n: nat, r: seq<Cred>) {
    && |r| == Min(WantedUpTo(items, n), MAX_WIFI_CREDENTIALS)
    && forall k :: 0 <= k < n && Wanted(items, k) && WantedUpTo(items, k) < |r| ==>
         IsItem(l, items[k], r[WantedUpTo(items, k)])
  }

  lemma {:induction false} WantedGrows(items: seq<Item>, k: nat, n: nat)
    requires k <= n
    ensures WantedUpTo(items, k) <= WantedUpTo(items, n)
    ensures k < n && Wanted(items, k) ==> WantedUpTo(items, k) < WantedUpTo(items, n)
    decreases n
  {
    if k < n {
      WantedGrows(items, k, n - 1);
    }
  }

  /** The names taken so far are those that have come up. */
  ghost predicate NamesSeen(items: seq<Item>, n: nat, acc: seq<Cred>) {
    forall ssid :: Has(acc, ssid) <==> ssid != "" && exists j :: 0 <= j < n && j < |items| && items[j].ssid == ssid
  }

  lemma {:induction false} OneItemMore(l: seq<Cred>, items: seq<Item>, n: nat, acc: seq<Cred>, x: Cred)
    requires n < |items| && |acc| < MAX_WIFI_CREDENTIALS && HoldsItems(l, items, n, acc) && NamesSeen(items, n, acc)
    requires Wanted(items, n) && IsItem(l, items[n], x)
    ensures HoldsItems(l, items, n + 1, acc + [x]) && NamesSeen(items, n + 1, acc + [x])
  {
    var r := acc + [x];
    forall k | 0 <= k < n + 1 && Wanted(items, k) && WantedUpTo(items, k) < |r|
      ensures IsItem(l, items[k], r[WantedUpTo(items, k)])
    {
      if k < n {
        WantedGrows(items, k, n);
      }
    }
    HasOneMore(acc, x);
  }

  lemma {:induction false} HasOneMore(acc: seq<Cred>, x: Cred)
    ensures forall ssid :: Has(acc + [x], ssid) <==> Has(acc, ssid) || ssid == x.ssid
  {
    var r := acc + [x];
    assert r[|acc|] == x;
    forall ssid | Has(acc, ssid) ensures Has(r, ssid) {
      var i :| 0 <= i < |acc| && acc[i].ssid == ssid;
      assert r[i].ssid == ssid;
    }
  }

  lemma {:induction false} UnwantedItem(l: seq<Cred>, items: seq<Item>, n: nat, acc: seq<Cred>)
    requires n < |items| && HoldsItems(l, items, n, acc) && NamesSeen(items, n, acc)
    requires items[n].ssid == "" || Has(acc, items[n].ssid)
    ensures !Wanted(items, n) && HoldsItems(l, items, n + 1, acc) && NamesSeen(items, n + 1, acc)
  {
  }

  function NewEntry(l: seq<Cred>, item: Item): Cred {
    var i := FindSsid(l, item.ssid);
    Cred(item.ssid, item.password, if i < |l| then l[i].lastSuccess else 0)
  }

  lemma {:induction false} WantedItem(l: seq<Cred>, items: seq<Item>, n: nat, acc: seq<Cred>)
    requires n < |items| && WellFormed(l) && |acc| < MAX_WIFI_CREDENTIALS
    requires HoldsItems(l, items, n, acc) && NamesSeen(items, n, acc)
    requires items[n].ssid != "" && !Has(acc, items[n].ssid)
    ensures var next := acc + [NewEntry(l, items[n])]; HoldsItems(l, items, n + 1, next) && NamesSeen(items, n + 1, next)
  {
    assert IsItem(l, items[n], NewEntry(l, items[n]));
    OneItemMore(l, items, n, acc, NewEntry(l, items[n]));
  }

  lemma {:induction false} FullHoldsAll(l: seq<Cred>, items: seq<Item>, n: nat, r: seq<Cred>)
    requires n <= |items| && HoldsItems(l, items, n, r) && |r| == MAX_WIFI_CREDENTIALS
    ensures HoldsItems(l, items, |items|, r)
    decreases |items| - n
  {
    WantedGrows(items, n, |items|);
    forall k | 0 <= k < |items| && Wanted(items, k) && WantedUpTo(items, k) < |r|
      ensures IsItem(l, items[k], r[WantedUpTo(items, k)])
    {
      if k >= n {
        WantedGrows(items, n, k);
      }
    }
  }

  lemma {:induction false} MergedHoldsItems(l: seq<Cred>, items: seq<Item>, n: nat, acc: seq<Cred>)
    requires n <= |items| && WellFormed(l) && |acc| < MAX_WIFI_CREDENTIALS
    requires HoldsItems(l, items, n, acc) && NamesSeen(items, n, acc)
    ensures HoldsItems(l, items, |items|, Merged(l, items[n..], acc))
    decreases |items| - n
  {
    if n < |items| {
      var item, rest := items[n], items[n..];
      assert rest[0] == item && rest[1..] == items[n + 1..];
      if item.ssid == "" || Has(acc, item.ssid) {
        UnwantedItem(l, items, n, acc);
        MergedHoldsItems(l, items, n + 1, acc);
      } else {
        var next := acc + [NewEntry(l, item)];
        WantedItem(l, items, n, acc);
        if |next| == MAX_WIFI_CREDENTIALS {
          FullHoldsAll(l, items, n + 1, next);
        } else {
          MergedHoldsItems(l, items, n + 1, next);
        }
      }
    }
  }

  /** A successful replacement: memory and the list the next boot finds are the first five names of the
      new list. */
  lemma {:induction false} ReplaceStores(st: Store, items: seq<Item>, fault: Fault)
    requires Good(st) && Step(st, Replace(items), fault).1
    ensures var after := Step(st, Replace(items), fault).0;
      Stored(after.flash) == Some(after.ram) && HoldsItems(st.ram, items, |items|, after.ram)
  {
    StepIsAtomic(st, Replace(items), fault);
    MergedHoldsItems(st.ram, items, 0, []);
    assert items[0..] == items;
  }

  /** What earlier firmware kept under an index, as far as the scan comes: up to the first name without a
      password. */
  ghost predicate Scanned(m: map<Key, CString>, k: nat) {
    k < LEGACY_CREDENTIAL_LIMIT && forall j: nat :: j <= k && Ssid(j) in m ==> Pass(j) in m
  }

  /** The index at which a name first comes up. */
  ghost predicate LegacyWanted(m: map<Key, CString>, k: nat) {
    && Scanned(m, k) && Ssid(k) in m && m[Ssid(k)] != ""
    && forall j: nat :: j < k && Ssid(j) in m ==> m[Ssid(j)] != m[Ssid(k)]
  }

  ghost function LegacyUpTo(m: map<Key, CString>, n: nat): nat {
    if n == 0 then 0 else LegacyUpTo(m, n - 1) + if LegacyWanted(m, n - 1) then 1 else 0
  }

  /** The names below index `n` are in the list in their order, with passwords, and with counters that
      keep that order. */
  ghost predicate HoldsLegacy(m: map<Key, CString>, n: nat, r: seq<Cred>) {
    && |r| <= LegacyUpTo(m, n)
    && forall k: nat :: k < n && LegacyWanted(m, k) && LegacyUpTo(m, k) < |r| ==>
         Pass(k) in m && r[LegacyUpTo(m, k)] == Cred(m[Ssid(k)], m[Pass(k)], LEGACY_CREDENTIAL_LIMIT - k)
  }

  ghost predicate LegacySeen(m: map<Key, CString>, n: nat, acc: seq<Cred>) {
    forall ssid :: Has(acc, ssid) <==> ssid != "" && exists j: nat :: j < n && Ssid(j) in m && m[Ssid(j)] == ssid
  }

  lemma {:induction false} LegacyGrows(m: map<Key, CString>, k: nat, n: nat)
    requires k <= n
    ensures LegacyUpTo(m, k) <= LegacyUpTo(m, n)
    ensures k < n && LegacyWanted(m, k) ==> LegacyUpTo(m, k) < LegacyUpTo(m, n)
    decreases n
  {
    if k < n {
      LegacyGrows(m, k, n - 1);
    }
  }

  lemma {:induction false} OneIndexMore(m: map<Key, CString>, n: nat, acc: seq<Cred>)
    requires Scanned(m, n) && HoldsLegacy(m, n, acc) && |acc| == LegacyUpTo(m, n) && LegacySeen(m, n, acc)
    ensures var next := LegacyNext(m, n, acc);
      HoldsLegacy(m, n + 1, next) && |next| == LegacyUpTo(m, n + 1) && LegacySeen(m, n + 1, next)
  {
    var next := LegacyNext(m, n, acc);
    forall k: nat | k < n + 1 && LegacyWanted(m, k)
      ensures Pass(k) in m && LegacyUpTo(m, k) < |next|
      ensures next[LegacyUpTo(m, k)] == Cred(m[Ssid(k)], m[Pass(k)], LEGACY_CREDENTIAL_LIMIT - k)
    {
      if k < n {
        LegacyGrows(m, k, n);
      } else {
        assert !Has(acc, m[Ssid(n)]);
      }
    }
    if next != acc {
      HasOneMore(acc, next[|acc|]);
    }
  }

  lemma {:induction false} NothingScanned(m: map<Key, CString>, n: nat, k: nat)
    requires n <= k <= LEGACY_CREDENTIAL_LIMIT && !Scanned(m, n)
    ensures LegacyUpTo(m, k) == LegacyUpTo(m, n)
    decreases k
  {
    if n < k {
      NothingScanned(m, n, k - 1);
    }
  }

  lemma {:induction false} LegacyFromHolds(m: map<Key, CString>, n: nat, acc: seq<Cred>)
    requires n <= LEGACY_CREDENTIAL_LIMIT && (n == 0 || Scanned(m, n - 1))
    requires HoldsLegacy(m, n, acc) && |acc| == LegacyUpTo(m, n) && LegacySeen(m, n, acc)
    ensures var r := LegacyFrom(m, n, acc);
      HoldsLegacy(m, LEGACY_CREDENTIAL_LIMIT, r) && |r| == LegacyUpTo(m, LEGACY_CREDENTIAL_LIMIT)
    decreases LEGACY_CREDENTIAL_LIMIT - n
  {
    if n < LEGACY_CREDENTIAL_LIMIT {
      if Ssid(n) in m && Pass(n) !in m {
        NothingScanned(m, n, LEGACY_CREDENTIAL_LIMIT);
        assert forall k: nat :: n <= k ==> !LegacyWanted(m, k);
      } else {
        OneIndexMore(m, n, acc);
        LegacyFromHolds(m, n + 1, LegacyNext(m, n, acc));
      }
    }
  }

  /** The list read from the namespace of earlier firmware: the first five names of the scan, with their
      passwords, the first one newest. */
  lemma {:induction false} LegacyHolds(legacy: Legacy)
    ensures var r := ReadLegacy(legacy);
      if legacy.None? then r == []
      else
        && |r| == Min(LegacyUpTo(legacy.value, LEGACY_CREDENTIAL_LIMIT), MAX_WIFI_CREDENTIALS)
        && HoldsLegacy(legacy.value, LEGACY_CREDENTIAL_LIMIT, r)
  {
    if legacy.Some? {
      LegacyFromHolds(legacy.value, 0, []);
    }
  }

  // ---------------------------------------------------------------- what eviction cannot reach

  /** `x` is the entry of `ssid`, with a counter above zero and above every other entry's. */
  ghost predicate Tops(l: seq<Cred>, x: Cred, ssid: string) {
    && x in l && x.ssid == ssid && x.lastSuccess > 0
    && forall y :: y in l && y != x ==> y.lastSuccess < x.lastSuccess && y.ssid != ssid
  }

  ghost predicate Top(l: seq<Cred>, ssid: string) {
    exists x :: Tops(l, x, ssid)
  }

  lemma {:induction false} MarkedContents(l: seq<Cred>, ssid: string)
    requires WellFormed(l) && Has(l, ssid)
    ensures var x := l[FindSsid(l, ssid)].(lastSuccess := (Newest(l) + 1) % TWO_TO_THE_64);
            forall y :: y in Marked(l, ssid) <==> y == x || (y in l && y.ssid != ssid)
  {
    var i := FindSsid(l, ssid);
    var x := l[i].(lastSuccess := (Newest(l) + 1) % TWO_TO_THE_64);
    SortDescContents(l[i := x]);
    forall y ensures y in Marked(l, ssid) <==> y == x || (y in l && y.ssid != ssid) {
      UpdatedContents(l, i, x, y);
    }
  }

  /** Replacing the entry of a name replaces just that. */
  lemma {:induction false} UpdatedContents(l: seq<Cred>, i: nat, x: Cred, y: Cred)
    requires Distinct(l) && i < |l| && x.ssid == l[i].ssid
    ensures y in l[i := x] <==> y == x || (y in l && y.ssid != x.ssid)
  {
    var m := l[i := x];
    assert m[i] == x;
    if y in m && y != x {
      var j :| 0 <= j < |m| && m[j] == y;
      assert j != i && l[j] == y;
    }
    if y in l && y.ssid != x.ssid {
      var j :| 0 <= j < |l| && l[j] == y;
      assert m[j] == y;
    }
  }

  /** Marking a network successful puts it above all others exactly when the counter does not wrap. */
  lemma {:induction false} MarkedIsTopIff(l: seq<Cred>, ssid: string)
    requires WellFormed(l) && Has(l, ssid)
    ensures Top(Marked(l, ssid), ssid) <==> Newest(l) + 1 < TWO_TO_THE_64
  {
    var x := l[FindSsid(l, ssid)].(lastSuccess := (Newest(l) + 1) % TWO_TO_THE_64);
    var r := Marked(l, ssid);
    MarkedContents(l, ssid);
    TopIffAbove(l, r, x, ssid);
  }

  lemma {:induction false} TopIffAbove(l: seq<Cred>, r: seq<Cred>, x: Cred, ssid: string)
    requires x.ssid == ssid && x.lastSuccess == (Newest(l) + 1) % TWO_TO_THE_64
    requires forall y :: y in r <==> y == x || (y in l && y.ssid != ssid)
    ensures Top(r, ssid) <==> Newest(l) + 1 < TWO_TO_THE_64
  {
    assert x in r;
    if Newest(l) + 1 < TWO_TO_THE_64 {
      assert Tops(r, x, ssid);
    } else {
      ZeroIsNotTop(r, x, ssid);
    }
  }

  lemma {:induction false} ZeroIsNotTop(r: seq<Cred>, x: Cred, ssid: string)
    requires x in r && x.ssid == ssid && x.lastSuccess == 0
    ensures !Top(r, ssid)
  {
  }

  /** Who is listed after an upsert: the entry upserted, and of the others all, or all but the oldest. */
  lemma {:induction false} UpsertedContents(l: seq<Cred>, ssid: string, password: string, y: Cred)
    requires WellFormed(l)
    ensures var r := Upserted(l, ssid, password);
            && (y in r && y.ssid != ssid ==> y in l)
            && (y in r && y.ssid == ssid && !Has(l, ssid) ==> y.lastSuccess == 0)
            && (y in l && y.ssid == ssid ==> y.(password := password) in r)
            && (y in r && y.ssid == ssid && Has(l, ssid) ==> y == l[FindSsid(l, ssid)].(password := password))
            && (y in l && y.ssid != ssid && y !in r ==>
                  |l| >= MAX_WIFI_CREDENTIALS && y == l[Oldest(l)])
  {
    var r := Upserted(l, ssid, password);
    var f := FindSsid(l, ssid);
    if f < |l| {
      assert r[f] in r;
      forall j | 0 <= j < |l| ensures j != f ==> r[j] == l[j] && r[j] in r && l[j].ssid != ssid {}
    } else if |l| >= MAX_WIFI_CREDENTIALS {
      var o := Oldest(l);
      forall j | 0 <= j < |l| && j != o ensures l[j] in r {
        assert l[j] == r[if j < o then j else j - 1];
      }
    } else {
      forall j | 0 <= j < |l| ensures l[j] in r {
        assert l[j] == r[j];
      }
    }
  }

  lemma {:induction false} UpsertKeepsTop(l: seq<Cred>, ssid: string, other: string, password: string)
    requires WellFormed(l) && Top(l, ssid)
    ensures Top(Upserted(l, other, password), ssid)
  {
    var x :| Tops(l, x, ssid);
    var r := Upserted(l, other, password);
    var x' := if other == ssid then x.(password := password) else x;
    UpsertedContents(l, other, password, x);
    assert |l| >= 2 ==> l[0] in l && l[1] in l && l[0] != l[1];
    assert FindSsid(l, other) < |l| ==> l[FindSsid(l, other)] in l;
    forall y | y in r && y != x' ensures y.lastSuccess < x'.lastSuccess && y.ssid != ssid {
      UpsertedContents(l, other, password, y);
    }
    assert Tops(r, x', ssid);
  }

  ghost predicate Protected(st: Store, ssid: string) {
    Good(st) && Top(st.ram, ssid) && Top(Stored(st.flash).value, ssid)
  }

  /** No sequence of upserts, reboots and faults evicts the network most recently marked successful. */
  lemma {:induction false} UpsertsNeverEvictTheMarked(st: Store, ssid: string, ops: seq<(Op, Fault)>)
    requires Protected(st, ssid)
    requires forall i :: 0 <= i < |ops| ==> ops[i].0.Upsert? || ops[i].0.Boot?
    ensures Protected(Run(st, ops), ssid) && Has(Run(st, ops).ram, ssid)
    decreases ops
  {
    if ops == [] {
      var x :| Tops(st.ram, x, ssid);
    } else {
      var op, fault := ops[0].0, ops[0].1;
      StepIsAtomic(st, op, fault);
      if op.Upsert? && Accepted(st.ram, op) {
        UpsertKeepsTop(st.ram, ssid, op.ssid, op.password);
      }
      UpsertsNeverEvictTheMarked(Step(st, op, fault).0, ssid, ops[1..]);
    }
  }

  ghost predicate OnlyUpserts(ops: seq<(Op, Fault)>) {
    forall i :: 0 <= i < |ops| ==> ops[i].0.Upsert? || ops[i].0.Boot?
  }

  /** Listed in memory, and in the list the next boot finds. */
  ghost predicate Listed(st: Store, ssid: string) {
    Has(st.ram, ssid) && Stored(st.flash).Some? && Has(Stored(st.flash).value, ssid)
  }

  lemma {:induction false} TopIsListed(l: seq<Cred>, ssid: string)
    requires Top(l, ssid)
    ensures Has(l, ssid)
  {
    var x :| Tops(l, x, ssid);
  }

  /** ... starting from the marking itself. */
  lemma {:induction false} MarkedSurvivesUpserts(st: Store, ssid: string, fault: Fault, ops: seq<(Op, Fault)>)
    requires Good(st) && Step(st, Mark(ssid), fault).1
    requires Newest(st.ram) + 1 < TWO_TO_THE_64 && OnlyUpserts(ops)
    ensures Listed(Run(Step(st, Mark(ssid), fault).0, ops), ssid)
  {
    StepIsAtomic(st, Mark(ssid), fault);
    MarkedIsTopIff(st.ram, ssid);
    var marked := Step(st, Mark(ssid), fault).0;
    UpsertsNeverEvictTheMarked(marked, ssid, ops);
    TopIsListed(Stored(Run(marked, ops).flash).value, ssid);
  }

  // At the top of the counter the mark wraps to zero, and the marked entry is among the first to go.

  const NO_FAULT := Fault(4 + 3 * MAX_WIFI_CREDENTIALS + 2, map[], false)

  ghost predicate AllSucceed(st: Store, ops: seq<(Op, Fault)>)
    decreases ops
  {
    ops == [] || (Step(st, ops[0].0, ops[0].1).1 && AllSucceed(Step(st, ops[0].0, ops[0].1).0, ops[1..]))
  }

  /** A name that differs from the i-th listed one in its i-th letter. */
  function NewName(l: seq<Cred>): (s: string)
    ensures 0 < |s| <= MAX_SSID && '\0' !in s
    ensures |l| <= MAX_WIFI_CREDENTIALS ==> !Has(l, s)
  {
    var s := seq(MAX_WIFI_CREDENTIALS, i requires 0 <= i =>
      if i < |l| && i < |l[i].ssid| && l[i].ssid[i] == 'a' then 'b' else 'a');
    assert forall i :: 0 <= i < |l| && i < |s| ==> s[i] == 'a' || s[i] == 'b';
    assert |l| <= MAX_WIFI_CREDENTIALS ==> forall i :: 0 <= i < |l| ==> l[i].ssid != s by {
      forall i | 0 <= i < |l| <= MAX_WIFI_CREDENTIALS ensures l[i].ssid != s {
        assert |l[i].ssid| == |s| ==> l[i].ssid[i] != s[i];
      }
    }
    s
  }

  /** An upsert of a new name evicts the entry at `p` with counter zero, or brings it nearer to that. */
  lemma {:induction false} NewNameMovesUp(l: seq<Cred>, p: nat)
    requires WellFormed(l) && NulFree(l) && p < |l| && l[p].lastSuccess == 0
    ensures var r := Upserted(l, NewName(l), "");
      && WellFormed(r) && NulFree(r)
      && if |l| < MAX_WIFI_CREDENTIALS then |r| == |l| + 1 && r[p] == l[p]
         else && |r| == |l|
              && if Oldest(l) == p then !Has(r, l[p].ssid) else p > 0 && r[p - 1] == l[p]
  {
    UpsertedIsWellFormed(l, NewName(l), "");
    assert FindSsid(l, NewName(l)) == |l|;
  }

  lemma {:induction false} NewNameSucceeds(st: Store)
    requires Good(st) && Stored(st.flash) == Some(st.ram) && NulFree(Upserted(st.ram, NewName(st.ram), ""))
    ensures var (after, ok) := Step(st, Upsert(NewName(st.ram), ""), NO_FAULT);
      ok && Good(after) && after.ram == Upserted(st.ram, NewName(st.ram), "") && Stored(after.flash) == Some(after.ram)
  {
    var op := Upsert(NewName(st.ram), "");
    StepIsAtomic(st, op, NO_FAULT);
    EditedIsWellFormed(st.ram, op);
    PersistIsAtomic(st.flash, Edited(st.ram, op), NO_FAULT);
  }

  /** An entry with counter zero can be evicted, in memory and in flash, by so many upserts. */
  lemma {:induction false} ZeroCanBeEvicted(st: Store, p: nat) returns (ops: seq<(Op, Fault)>)
    requires Good(st) && Stored(st.flash) == Some(st.ram) && NulFree(st.ram)
    requires p < |st.ram| && st.ram[p].lastSuccess == 0
    ensures |ops| <= MAX_WIFI_CREDENTIALS - |st.ram| + p + 1
    ensures (forall i :: 0 <= i < |ops| ==> ops[i].0.Upsert?) && AllSucceed(st, ops)
    ensures var end := Run(st, ops); Stored(end.flash) == Some(end.ram) && !Has(end.ram, st.ram[p].ssid)
    decreases MAX_WIFI_CREDENTIALS - |st.ram| + p
  {
    var l, op := st.ram, Upsert(NewName(st.ram), "");
    NewNameMovesUp(l, p);
    NewNameSucceeds(st);
    var next := Step(st, op, NO_FAULT).0;
    var rest: seq<(Op, Fault)> := [];
    if |l| < MAX_WIFI_CREDENTIALS {
      rest := ZeroCanBeEvicted(next, p);
    } else if Oldest(l) != p {
      rest := ZeroCanBeEvicted(next, p - 1);
    }
    ops := [(op, NO_FAULT)] + rest;
    assert ops[1..] == rest;
  }

  lemma {:induction false} MarkThatSucceeds(st: Store, ssid: string, fault: Fault)
    requires Good(st) && Step(st, Mark(ssid), fault).1
    ensures var marked := Step(st, Mark(ssid), fault).0;
      && Has(st.ram, ssid) && marked.ram == Marked(st.ram, ssid) && NulFree(marked.ram)
      && Good(marked) && Stored(marked.flash) == Some(marked.ram)
  {
    StepIsAtomic(st, Mark(ssid), fault);
    EditedIsWellFormed(st.ram, Mark(ssid));
    PersistIsAtomic(st.flash, Marked(st.ram, ssid), fault);
  }

  lemma {:induction false} WrappedIsZero(l: seq<Cred>, ssid: string) returns (p: nat)
    requires WellFormed(l) && Has(l, ssid) && Newest(l) + 1 == TWO_TO_THE_64
    ensures var r := Marked(l, ssid); p < |r| && r[p].ssid == ssid && r[p].lastSuccess == 0
  {
    MarkedContents(l, ssid);
    var x := l[FindSsid(l, ssid)].(lastSuccess := 0);
    assert x in Marked(l, ssid);
    p :| 0 <= p < |Marked(l, ssid)| && Marked(l, ssid)[p] == x;
  }

  /** Once a successful mark has wrapped the counter, at most five successful upserts evict the network
      just marked. */
  lemma {:induction false} WrappedCanBeEvicted(st: Store, ssid: string, fault: Fault) returns (ops: seq<(Op, Fault)>)
    requires Good(st) && Step(st, Mark(ssid), fault).1 && Newest(st.ram) + 1 == TWO_TO_THE_64
    ensures |ops| <= MAX_WIFI_CREDENTIALS && OnlyUpserts(ops)
    ensures var marked := Step(st, Mark(ssid), fault).0;
      && (forall i :: 0 <= i < |ops| ==> ops[i].0.Upsert?) && AllSucceed(marked, ops)
      && var end := Run(marked, ops); Stored(end.flash) == Some(end.ram) && !Has(end.ram, ssid)
  {
    MarkThatSucceeds(st, ssid, fault);
    var p := WrappedIsZero(st.ram, ssid);
    ops := ZeroCanBeEvicted(Step(st, Mark(ssid), fault).0, p);
  }

  /** What marking is for: no sequence of upserts, reboots and faults evicts the network marked last,
      from memory or from flash, exactly when the mark does not wrap the counter. */
  lemma {:induction false} MarkedIsSafeIff(st: Store, ssid: string, fault: Fault)
    requires Good(st) && Step(st, Mark(ssid), fault).1
    ensures var marked := Step(st, Mark(ssid), fault).0;
      (forall ops :: OnlyUpserts(ops) ==> Listed(Run(marked, ops), ssid)) <==> Newest(st.ram) + 1 < TWO_TO_THE_64
  {
    var marked := Step(st, Mark(ssid), fault).0;
    if Newest(st.ram) + 1 < TWO_TO_THE_64 {
      forall ops | OnlyUpserts(ops) ensures Listed(Run(marked, ops), ssid) {
        MarkedSurvivesUpserts(st, ssid, fault, ops);
      }
    } else {
      var ops := WrappedCanBeEvicted(st, ssid, fault);
      assert OnlyUpserts(ops) && !Listed(Run(marked, ops), ssid);
    }
  }

  // ---------------------------------------------------------------- the imperative store

  /** Flash, written key by key. `left` is how many more writes succeed. */
  class Nvs {
    var a: Slot
    var b: Slot
    var active: int
    var legacy: Legacy
    var left: nat
    var residue: Slot
    var flips: bool

    constructor (flash: Flash)
      ensures Value() == flash
    {
      a, b, active, legacy := flash.a, flash.b, flash.active, flash.legacy;
      left, residue, flips := 0, map[], false;
    }

    ghost function Value(): Flash
      reads this
    {
      Flash(a, b, active, legacy)
    }

    method Arm(fault: Fault)
      modifies this
      ensures Value() == old(Value()) && left == fault.at && residue == fault.residue && flips == fault.flips
    {
      left, residue, flips := fault.at, fault.residue, fault.flips;
    }

    /** One write to a slot: it takes effect, or the slot is left with the residue. */
    method WriteSlotOnce(slot: int, wanted: Slot) returns (ok: bool)
      modifies this
      ensures ok <==> old(left) > 0
      ensures Value() == old(Value()).WithSlot(slot, if ok then wanted else residue)
      ensures residue == old(residue) && flips == old(flips) && left == if ok then old(left) - 1 else 0
    {
      ok := left > 0;
      var now := if ok then wanted else residue;
      left := if ok then left - 1 else 0;
      if slot == 0 {
        a := now;
      } else {
        b := now;
      }
    }

    function Get(slot: int): Slot
      reads this
    {
      if slot == 0 then a else b
    }

    /** `SetActiveSlot`: the set and the commit. */
    method SetActiveSlot(slot: int) returns (ok: bool)
      modifies this
      ensures (Value(), ok) == MovePointer(old(Value()), slot, old(left), Fault(0, residue, flips))
      ensures residue == old(residue) && flips == old(flips)
    {
      ok := left >= 2;
      if ok || flips {
        active := slot;
      }
      left := if ok then left - 2 else 0;
    }

    function GetActiveSlot(): (slot: int)
      reads this
      ensures slot == Value().Active()
    {
      if active == 0 || active == 1 then active else -1
    }
  }

  method NewestCounter(l: seq<Cred>) returns (newest: uint64)
    ensures newest == Newest(l)
  {
    newest := 0;
    for index := 0 to |l|
      invariant newest == Newest(l[..index])
    {
      assert l[..index + 1] == l[..index] + [l[index]];
      NewestSnoc(l[..index], l[index]);
      newest := if l[index].lastSuccess > newest then l[index].lastSuccess else newest;
    }
    assert l[..|l|] == l;
  }

  class WifiCredentialStore {
    const nvs: Nvs
    var credentials: seq<Cred>
    var activeSchemaPresent: bool
    var legacyCredentialsPresent: bool

    constructor (nvs: Nvs)
      ensures this.nvs == nvs && credentials == []
    {
      this.nvs := nvs;
      credentials, activeSchemaPresent, legacyCredentialsPresent := [], false, false;
    }

    method ReadSlotList(slot: int) returns (r: Option<seq<Cred>>)
      ensures r == ReadSlot(nvs.Get(slot))
    {
      var s := nvs.Get(slot);
      if !HeaderOk(s) {
        return None;
      }
      var count := s[Count].n;
      var loaded := [];
      for index := 0 to count
        invariant |loaded| == index
        invariant forall i :: 0 <= i < index ==> HasEntry(s, i) && loaded[i] == EntryAt(s, i)
        invariant WellFormed(loaded)
      {
        if !HasEntry(s, index) {
          return None;
        }
        var item := EntryAt(s, index);
        if item.ssid == "" || Has(loaded, item.ssid) {
          ghost var longer := loaded + [item];
          assert !WellFormed(longer) by {
            assert longer[index] == item && forall j :: 0 <= j < index ==> longer[j] == loaded[j];
          }
          ReadablePrefix(s, longer);
          return None;
        }
        loaded := loaded + [item];
      }
      assert loaded == seq(count, i requires 0 <= i < count => EntryAt(s, i));
      return Some(loaded);
    }

    method WriteSlotList(slot: int, l: seq<Cred>) returns (ok: bool)
      requires |l| <= MAX_WIFI_CREDENTIALS
      modifies nvs
      ensures ok <==> old(nvs.left) >= WriteCount(l)
      ensures nvs.Value() == old(nvs.Value()).WithSlot(slot, if ok then Image(l) else nvs.residue)
      ensures nvs.residue == old(nvs.residue) && nvs.flips == old(nvs.flips)
      ensures ok ==> nvs.left == old(nvs.left) - WriteCount(l)
    {
      ok := nvs.WriteSlotOnce(slot, map[]);
      if ok {
        ok := nvs.WriteSlotOnce(slot, map[Schema := Number(SCHEMA_VERSION)]);
      }
      if ok {
        ok := nvs.WriteSlotOnce(slot, nvs.Get(slot)[Count := Number(|l|)]);
      }
      var index := 0;
      while index < |l| && ok
        invariant 0 <= index <= |l|
        invariant nvs.residue == old(nvs.residue) && nvs.flips == old(nvs.flips)
        invariant ok ==> old(nvs.left) >= 3 + 3 * index && nvs.left == old(nvs.left) - 3 - 3 * index
        invariant !ok ==> old(nvs.left) < 3 + 3 * index + 1
        invariant nvs.Value() == old(nvs.Value()).WithSlot(slot, if ok then Written(l, index) else nvs.residue)
      {
        var item := l[index];
        ok := nvs.WriteSlotOnce(slot, nvs.Get(slot)[Ssid(index) := Text(CStr(item.ssid))]);
        if ok {
          ok := nvs.WriteSlotOnce(slot, nvs.Get(slot)[Pass(index) := Text(CStr(item.password))]);
        }
        if ok {
          ok := nvs.WriteSlotOnce(slot, nvs.Get(slot)[Seen(index) := Number(item.lastSuccess)]);
        }
        index := index + 1;
      }
      if ok {
        ok := nvs.WriteSlotOnce(slot, nvs.Get(slot));
      }
    }

    method PersistLocked(fault: Fault) returns (ok: bool)
      requires |credentials| <= MAX_WIFI_CREDENTIALS
      modifies this`activeSchemaPresent, nvs
      ensures (nvs.Value(), ok) == Persist(old(nvs.Value()), credentials, fault)
    {
      nvs.Arm(fault);
      var inactive := if nvs.GetActiveSlot() == 0 then 1 else 0;
      ok := WriteSlotList(inactive, credentials);
      if ok {
        var verified := ReadSlotList(inactive);
        ok := verified == Some(credentials);
        if ok {
          ok := nvs.SetActiveSlot(inactive);
        }
      }
      if ok {
        activeSchemaPresent := true;
      }
    }

    method DoUpsert(ssid: string, password: string, fault: Fault) returns (ok: bool)
      requires WellFormed(credentials)
      modifies this, nvs
      ensures (Store(nvs.Value(), credentials), ok)
           == Step(Store(old(nvs.Value()), old(credentials)), Upsert(ssid, password), fault)
    {
      if ssid == "" || |ssid| > MAX_SSID || |password| > MAX_PASSWORD {
        return false;
      }
      var previous := credentials;
      var found := FindSsid(credentials, ssid);
      if found < |credentials| {
        credentials := credentials[found := credentials[found].(password := password)];
      } else {
        if |credentials| >= MAX_WIFI_CREDENTIALS {
          var oldest := Oldest(credentials);
          credentials := credentials[..oldest] + credentials[oldest + 1..];
        }
        credentials := credentials + [Cred(ssid, password, 0)];
      }
      ok := PersistLocked(fault);
      if !ok {
        credentials := previous;
      }
    }

    method MarkSuccessful(ssid: string, fault: Fault) returns (ok: bool)
      requires WellFormed(credentials)
      modifies this, nvs
      ensures (Store(nvs.Value(), credentials), ok)
           == Step(Store(old(nvs.Value()), old(credentials)), Mark(ssid), fault)
    {
      var found := FindSsid(credentials, ssid);
      if found == |credentials| {
        return false;
      }
      assert credentials[found].ssid == ssid;
      var previous := credentials;
      var newest := NewestCounter(credentials);
      credentials := credentials[found := credentials[found].(lastSuccess := (newest + 1) % TWO_TO_THE_64)];
      credentials := SortDesc(credentials);
      assert credentials == Edited(previous, Mark(ssid));
      ok := PersistLocked(fault);
      if !ok {
        credentials := previous;
      }
    }

    method ReplaceFromRuntime(items: seq<Item>, fault: Fault) returns (ok: bool)
      requires WellFormed(credentials)
      modifies this, nvs
      ensures (Store(nvs.Value(), credentials), ok)
           == Step(Store(old(nvs.Value()), old(credentials)), Replace(items), fault)
    {
      var previous := credentials;
      var replacement := [];
      var index := 0;
      while index < |items| && |replacement| < MAX_WIFI_CREDENTIALS
        invariant 0 <= index <= |items| && |replacement| <= MAX_WIFI_CREDENTIALS
        invariant credentials == previous
        invariant Merged(previous, items, [])
               == if |replacement| == MAX_WIFI_CREDENTIALS then replacement
                  else Merged(previous, items[index..], replacement)
      {
        var item := items[index];
        assert items[index..][0] == item && items[index..][1..] == items[index + 1..];
        index := index + 1;
        if item.ssid == "" || Has(replacement, item.ssid) {
          continue;
        }
        var existing := FindSsid(credentials, item.ssid);
        var lastSuccess := if existing < |credentials| then credentials[existing].lastSuccess else 0;
        replacement := replacement + [Cred(item.ssid, item.password, lastSuccess)];
      }
      credentials := replacement;
      MergedIsWellFormed(previous, items, []);
      ok := PersistLocked(fault);
      if !ok {
        credentials := previous;
      }
    }

    method ReadLegacyList() returns (l: seq<Cred>)
      ensures l == ReadLegacy(nvs.legacy)
    {
      if nvs.legacy.None? {
        return [];
      }
      var m := nvs.legacy.value;
      var loaded := [];
      var index := 0;
      while index < LEGACY_CREDENTIAL_LIMIT
        invariant 0 <= index <= LEGACY_CREDENTIAL_LIMIT
        invariant LegacyFrom(m, 0, []) == LegacyFrom(m, index, loaded)
      {
        if Ssid(index) in m && Pass(index) !in m {
          break;
        }
        ghost var next := LegacyNext(m, index, loaded);
        if Ssid(index) in m {
          var ssid := m[Ssid(index)];
          if ssid != "" && !Has(loaded, ssid) {
            loaded := loaded + [Cred(ssid, m[Pass(index)], LEGACY_CREDENTIAL_LIMIT - index)];
          }
        }
        assert loaded == next;
        index := index + 1;
      }
      l := if |loaded| > MAX_WIFI_CREDENTIALS then loaded[..MAX_WIFI_CREDENTIALS] else loaded;
    }

    method LoadAndMigrate(fault: Fault) returns (ok: bool)
      requires |credentials| <= MAX_WIFI_CREDENTIALS
      modifies this, nvs
      ensures (nvs.Value(), credentials, ok) == Load(old(nvs.Value()), fault)
    {
      var activeSlot := nvs.GetActiveSlot();
      activeSchemaPresent := activeSlot >= 0;
      LegacyIsWellFormed(nvs.legacy);
      if activeSchemaPresent {
        var list := ReadSlotList(activeSlot);
        if list.Some? {
          credentials := list.value;
          return true;
        }
        list := ReadSlotList(1 - activeSlot);
        if list.Some? {
          credentials := list.value;
          nvs.Arm(fault);
          ok := nvs.SetActiveSlot(1 - activeSlot);
          return;
        }
      }
      credentials := ReadLegacyList();
      legacyCredentialsPresent := credentials != [];
      ok := !activeSchemaPresent;
      if legacyCredentialsPresent {
        ok := PersistLocked(fault);
      }
    }
  }

  lemma {:induction false} NewestSnoc(l: seq<Cred>, x: Cred)
    ensures Newest(l + [x]) == if x.lastSuccess > Newest(l) then x.lastSuccess else Newest(l)
  {
    if l != [] {
      assert (l + [x])[1..] == l[1..] + [x];
      NewestSnoc(l[1..], x);
    } else {
      assert l + [x] == [x];
    }
  }
}
