/**
 Administration of a channel with several keys: a key list, stored as one text,
 beside three sparse maps by key index that every deletion has to re-index
 together.
 */
module MultiKey {
  import opened Names
  import opened Separated

  const ENABLED := 1
  const MANUALLY_DISABLED := 2
  const AUTO_DISABLED := 3

  /** What the maps say about one key. */
  datatype Record = Record(key: string, status: int, time: Option<int>, reason: Option<string>)

  datatype Maps = Maps(status: map<int, int>, times: map<int, int>, reasons: map<int, string>)

  function Get<T>(m: map<int, T>, i: int): Option<T> {
    if i in m then Some(m[i]) else None
  }

  function StatusAt(m: Maps, i: int): int {
    if i in m.status then m.status[i] else ENABLED
  }

  function RecordAt(key: string, m: Maps, i: int): Record {
    Record(key, StatusAt(m, i), Get(m.times, i), Get(m.reasons, i))
  }

  /** The plain list of records the key list and the maps stand for. */
  function Records(keys: seq<string>, m: Maps): (r: seq<Record>)
    ensures |r| == |keys|
    ensures forall i :: 0 <= i < |r| ==> r[i] == RecordAt(keys[i], m, i)
  {
    seq(|keys|, i requires 0 <= i < |keys| => RecordAt(keys[i], m, i))
  }

  ghost predicate Inside(m: Maps, size: int) {
    && (forall i :: i in m.status ==> 0 <= i < size)
    && (forall i :: i in m.times ==> 0 <= i < size)
    && (forall i :: i in m.reasons ==> 0 <= i < size)
  }

  // ---------- The machine over records ----------

  datatype Action =
    | Disable(index: Option<int>) | Enable(index: Option<int>) | EnableAll | DisableAll
    | Delete(index: Option<int>) | DeleteDisabled
    | AutoUpdate(key: string, status: int, reason: string, now: int)

  predicate InRange(index: Option<int>, size: int) {
    index.Some? && 0 <= index.value < size
  }

  function Fresh(r: Record): Record {
    Record(r.key, ENABLED, None, None)
  }

  function Disabled(r: Record): Record {
    if r.status == ENABLED then r.(status := MANUALLY_DISABLED) else r
  }

  /** Deleting disabled keys forgets what was left over for enabled ones. */
  function Scrub(r: Record): Record {
    if r.status == ENABLED then Fresh(r) else r
  }

  function FreshAll(rs: seq<Record>): (r: seq<Record>)
    ensures |r| == |rs| && forall i :: 0 <= i < |rs| ==> r[i] == Fresh(rs[i])
  {
    Map(rs, (r: Record) => Fresh(r))
  }

  function DisabledAll(rs: seq<Record>): (r: seq<Record>)
    ensures |r| == |rs| && forall i :: 0 <= i < |rs| ==> r[i] == Disabled(rs[i])
  {
    Map(rs, (r: Record) => Disabled(r))
  }

  predicate Auto(r: Record) {
    r.status == AUTO_DISABLED
  }

  function Survivors(rs: seq<Record>): seq<Record> {
    Map(Filter(rs, (r: Record) => !Auto(r)), (r: Record) => Scrub(r))
  }

  function FirstWith(rs: seq<Record>, key: string): (i: int)
    ensures -1 <= i < |rs|
    ensures i >= 0 ==> rs[i].key == key
    ensures forall j :: 0 <= j < (if i < 0 then |rs| else i) ==> rs[j].key != key
  {
    if rs == [] then -1
    else if rs[0].key == key then 0
    else
      var i := FirstWith(rs[1..], key);
      if i < 0 then -1 else i + 1
  }

  /** The effect of an action on the records, and whether it reports success. */
  function Act(rs: seq<Record>, a: Action): (seq<Record>, bool) {
    match a
    case Disable(index) => ActDisable(rs, index)
    case Enable(index) => ActEnable(rs, index)
    case EnableAll => (FreshAll(rs), true)
    case DisableAll => ActDisableAll(rs)
    case Delete(index) => ActDelete(rs, index)
    case DeleteDisabled => ActDeleteDisabled(rs)
    case AutoUpdate(key, status, reason, now) => ActAuto(rs, key, status, reason, now)
  }

  function ActDisable(rs: seq<Record>, index: Option<int>): (seq<Record>, bool) {
    if InRange(index, |rs|) then (rs[index.value := rs[index.value].(status := MANUALLY_DISABLED)], true) else (rs, false)
  }

  function ActEnable(rs: seq<Record>, index: Option<int>): (seq<Record>, bool) {
    if InRange(index, |rs|) then (rs[index.value := Fresh(rs[index.value])], true) else (rs, false)
  }

  function ActDisableAll(rs: seq<Record>): (seq<Record>, bool) {
    if exists r :: r in rs && r.status == ENABLED then (DisabledAll(rs), true) else (rs, false)
  }

  function ActDelete(rs: seq<Record>, index: Option<int>): (seq<Record>, bool) {
    if InRange(index, |rs|) && |rs| > 1 then (RemoveAt(rs, index.value), true) else (rs, false)
  }

  predicate AnyAuto(rs: seq<Record>) {
    exists r :: r in rs && Auto(r)
  }

  function ActDeleteDisabled(rs: seq<Record>): (seq<Record>, bool) {
    if !AnyAuto(rs) then (rs, false)
    else if Survivors(rs) == [] then (FreshAll(rs), true)
    else (Survivors(rs), true)
  }

  function ActAuto(rs: seq<Record>, key: string, status: int, reason: string, now: int): (seq<Record>, bool) {
    var i := FirstWith(rs, key);
    if i < 0 then (rs, false)
    else if status == ENABLED then (rs[i := rs[i].(status := ENABLED)], true)
    else (rs[i := rs[i].(status := status, time := Some(now), reason := Some(reason))], true)
  }

  function KeysOf(rs: seq<Record>): seq<string> {
    Map(rs, (r: Record) => r.key)
  }

  /** The sparse maps of a list of records: a status entry only for a key that is not enabled. */
  function MapsOf(rs: seq<Record>): Maps {
    Maps(StatusesOf(rs), TimesOf(rs), ReasonsOf(rs))
  }

  function StatusesOf(rs: seq<Record>): map<int, int> {
    map i | 0 <= i < |rs| && rs[i].status != ENABLED :: rs[i].status
  }

  function TimesOf(rs: seq<Record>): map<int, int> {
    map i | 0 <= i < |rs| && rs[i].time.Some? :: rs[i].time.value
  }

  function ReasonsOf(rs: seq<Record>): map<int, string> {
    map i | 0 <= i < |rs| && rs[i].reason.Some? :: rs[i].reason.value
  }

  /** Records survive being split into keys and maps. */
  lemma MapsOfRecords(rs: seq<Record>)
    ensures Records(KeysOf(rs), MapsOf(rs)) == rs && Inside(MapsOf(rs), |rs|)
  {
  }

  function Put<T>(m: map<int, T>, i: int, x: Option<T>): map<int, T> {
    if x.Some? then m[i := x.value] else m
  }

  function StatusEntry(r: Record): Option<int> {
    if r.status != ENABLED then Some(r.status) else None
  }

  lemma MapsOfSnoc(rs: seq<Record>, r: Record)
    ensures StatusesOf(rs + [r]) == Put(StatusesOf(rs), |rs|, StatusEntry(r))
    ensures TimesOf(rs + [r]) == Put(TimesOf(rs), |rs|, r.time)
    ensures ReasonsOf(rs + [r]) == Put(ReasonsOf(rs), |rs|, r.reason)
    ensures KeysOf(rs + [r]) == KeysOf(rs) + [r.key]
  {
    StatusesSnoc(rs, r);
    TimesSnoc(rs, r);
    ReasonsSnoc(rs, r);
  }

  lemma StatusesSnoc(rs: seq<Record>, r: Record)
    ensures StatusesOf(rs + [r]) == Put(StatusesOf(rs), |rs|, StatusEntry(r))
  {
    assert (rs + [r])[|rs|] == r;
  }

  lemma TimesSnoc(rs: seq<Record>, r: Record)
    ensures TimesOf(rs + [r]) == Put(TimesOf(rs), |rs|, r.time)
  {
    assert (rs + [r])[|rs|] == r;
  }

  lemma ReasonsSnoc(rs: seq<Record>, r: Record)
    ensures ReasonsOf(rs + [r]) == Put(ReasonsOf(rs), |rs|, r.reason)
  {
    assert (rs + [r])[|rs|] == r;
  }

  function Without(rs: seq<Record>, k: nat): seq<Record> {
    if k < |rs| then RemoveAt(rs, k) else rs
  }

  lemma WithoutSnoc(rs: seq<Record>, i: nat, k: nat)
    requires i < |rs|
    ensures Without(rs[..i + 1], k) == Without(rs[..i], k) + if i == k then [] else [rs[i]]
  {
    assert rs[..i + 1] == rs[..i] + [rs[i]];
  }

  // ---------- The stored channel ----------

  /** Reading a text as a JSON array of raw elements, or None. */
  type Decoder = string -> Option<seq<string>>

  function JsonKeys(text: string, decode: Decoder): Option<seq<string>> {
    var trimmed := Trim(text);
    if "[" <= trimmed then decode(trimmed) else None
  }

  function Lines(text: string): seq<string> {
    Split(TrimOuter(text, '\n'), '\n')
  }

  /** Channel.GetKeys */
  function ReadKeys(text: string, decode: Decoder): seq<string> {
    if text == "" then []
    else
      var json := JsonKeys(text, decode);
      if json.Some? then json.value else Lines(text)
  }

  /** The list Channel.Update counts: an empty JSON array is read as a line. */
  function CountedKeys(text: string, decode: Decoder): seq<string> {
    if text == "" then []
    else
      var json := JsonKeys(text, decode);
      if json.Some? && json.value != [] then json.value else Lines(text)
  }

  datatype Stored = Stored(text: string, size: int, maps: Maps)

  function View(s: Stored, decode: Decoder): seq<Record> {
    Records(ReadKeys(s.text, decode), s.maps)
  }

  /** Channel.Update: an empty text leaves the stored one, keys are counted again, and status entries beyond are dropped. */
  function Save(stored: string, text: string, maps: Maps, decode: Decoder): Stored {
    var kept := if text == "" then stored else text;
    var size := |CountedKeys(kept, decode)|;
    Stored(kept, size, maps.(status := EntriesBelow(maps.status, size)))
  }

  function EntriesBelow(status: map<int, int>, size: int): map<int, int> {
    map i | i in status && i < size :: status[i]
  }

  /** The list of records that is left, written as one text and re-indexed maps. */
  function SaveRecords(stored: string, rs: seq<Record>, decode: Decoder): Stored {
    Save(stored, Join(KeysOf(rs), '\n'), MapsOf(rs), decode)
  }

  predicate AnyEnabled(maps: Maps, size: int) {
    exists i :: 0 <= i < size && StatusAt(maps, i) == ENABLED
  }

  function DisableBelow(maps: Maps, n: int): Maps {
    maps.(status := maps.status + Disabling(maps, n))
  }

  function Disabling(maps: Maps, n: int): map<int, int> {
    map i | 0 <= i < n && StatusAt(maps, i) == ENABLED :: MANUALLY_DISABLED
  }

  /** The effect of an action on what is stored, whatever that is. */
  function Step(s: Stored, a: Action, decode: Decoder): (Stored, bool) {
    match a
    case Disable(index) => StepDisable(s, index, decode)
    case Enable(index) => StepEnable(s, index, decode)
    case EnableAll => (Save(s.text, s.text, NO_ENTRIES, decode), true)
    case DisableAll => StepDisableAll(s, decode)
    case Delete(index) => StepDelete(s, index, decode)
    case DeleteDisabled => StepDeleteDisabled(s, decode)
    case AutoUpdate(key, status, reason, now) => StepAuto(s, key, status, reason, now, decode)
  }

  const NO_ENTRIES := Maps(map[], map[], map[])

  function StepDisable(s: Stored, index: Option<int>, decode: Decoder): (Stored, bool) {
    if !InRange(index, s.size) then (s, false)
    else (Save(s.text, s.text, s.maps.(status := s.maps.status[index.value := MANUALLY_DISABLED]), decode), true)
  }

  function Forget(maps: Maps, i: int): Maps {
    Maps(maps.status - {i}, maps.times - {i}, maps.reasons - {i})
  }

  function StepEnable(s: Stored, index: Option<int>, decode: Decoder): (Stored, bool) {
    if !InRange(index, s.size) then (s, false) else (Save(s.text, s.text, Forget(s.maps, index.value), decode), true)
  }

  function StepDisableAll(s: Stored, decode: Decoder): (Stored, bool) {
    if AnyEnabled(s.maps, s.size) then (Save(s.text, s.text, DisableBelow(s.maps, s.size), decode), true) else (s, false)
  }

  function StepDelete(s: Stored, index: Option<int>, decode: Decoder): (Stored, bool) {
    if !InRange(index, s.size) then (s, false)
    else
      var left := Without(View(s, decode), index.value);
      if left == [] then (s, false) else (SaveRecords(s.text, left, decode), true)
  }

  function StepDeleteDisabled(s: Stored, decode: Decoder): (Stored, bool) {
    var rs := View(s, decode);
    if AnyAuto(rs) then (SaveRecords(s.text, Survivors(rs), decode), true) else (s, false)
  }

  function StepAuto(s: Stored, key: string, status: int, reason: string, now: int, decode: Decoder): (Stored, bool) {
    var i := FirstWith(View(s, decode), key);
    if i < 0 then (s, false) else (s.(maps := AutoMaps(s.maps, i, status, reason, now)), true)
  }

  function AutoMaps(maps: Maps, i: int, status: int, reason: string, now: int): Maps {
    if status == ENABLED then maps.(status := maps.status - {i})
    else Maps(maps.status[i := status], maps.times[i := now], maps.reasons[i := reason])
  }

  method DropBeyond(status: map<int, int>, size: int) returns (r: map<int, int>)
    ensures r == EntriesBelow(status, size)
  {
    r := status;
    var indices := Keys(status.Keys);
    assert forall i :: i in indices <==> i in Elems(indices);
    forall i | i in status ensures i in indices { assert i in Elems(indices); }
    for k := 0 to |indices|
      invariant forall i :: i in r <==> i in status && (i in indices[..k] ==> i < size)
      invariant forall i :: i in r ==> r[i] == status[i]
    {
      assert indices[..k + 1] == indices[..k] + [indices[k]];
      if indices[k] >= size { r := r - {indices[k]}; }
    }
    assert indices[..|indices|] == indices;
    forall i ensures i in r <==> i in EntriesBelow(status, size) {
      assert i in status ==> i in indices[..|indices|];
    }
  }

  lemma DisableNext(maps: Maps, i: nat)
    ensures var status := DisableBelow(maps, i).status;
            DisableBelow(maps, i + 1).status == if StatusAt(maps, i) == ENABLED then status[i := MANUALLY_DISABLED] else status
    ensures AnyEnabled(maps, i + 1) <==> AnyEnabled(maps, i) || StatusAt(maps, i) == ENABLED
  {
    if StatusAt(maps, i) == ENABLED {
      assert Disabling(maps, i + 1) == Disabling(maps, i)[i := MANUALLY_DISABLED];
    } else {
      assert Disabling(maps, i + 1) == Disabling(maps, i);
    }
  }

  lemma DisableNone(maps: Maps, n: int)
    requires n <= 0
    ensures DisableBelow(maps, n) == maps && !AnyEnabled(maps, n)
  {
    assert Disabling(maps, n) == map[];
  }

  method DisableEnabled(maps: Maps, size: int) returns (next: Maps, disabledCount: nat)
    ensures next == DisableBelow(maps, size)
    ensures disabledCount > 0 <==> AnyEnabled(maps, size)
  {
    next, disabledCount := maps, 0;
    DisableNone(maps, 0);
    if size <= 0 {
      DisableNone(maps, size);
      return;
    }
    var status := maps.status;
    for i := 0 to size
      invariant status == DisableBelow(maps, i).status
      invariant disabledCount > 0 <==> AnyEnabled(maps, i)
    {
      DisableNext(maps, i);
      if StatusAt(maps, i) == ENABLED {
        status := status[i := MANUALLY_DISABLED];
        disabledCount := disabledCount + 1;
      }
    }
    next := maps.(status := status);
  }

  class MultiKeyChannel {
    var text: string
    var size: int
    var maps: Maps
    const decode: Decoder

    constructor (text: string, size: int, maps: Maps, decode: Decoder)
      ensures Snapshot() == Stored(text, size, maps) && this.decode == decode
    {
      this.text, this.size, this.maps, this.decode := text, size, maps, decode;
    }

    ghost function Snapshot(): Stored
      reads this
    {
      Stored(text, size, maps)
    }

    /** Channel.Update, with the given key text and maps */
    method Update(key: string, newMaps: Maps)
      modifies this
      ensures Snapshot() == Save(old(text), key, newMaps, decode)
    {
      if key != "" { text := key; }
      size := |CountedKeys(text, decode)|;
      var status := DropBeyond(newMaps.status, size);
      maps := newMaps.(status := status);
    }

    method DisableKey(index: Option<int>) returns (ok: bool)
      modifies this
      ensures (Snapshot(), ok) == StepDisable(old(Snapshot()), index, decode)
    {
      if index.None? || index.value < 0 || index.value >= size { return false; }
      Update(text, maps.(status := maps.status[index.value := MANUALLY_DISABLED]));
      return true;
    }

    method EnableKey(index: Option<int>) returns (ok: bool)
      modifies this
      ensures (Snapshot(), ok) == StepEnable(old(Snapshot()), index, decode)
    {
      if index.None? || index.value < 0 || index.value >= size { return false; }
      Update(text, Forget(maps, index.value));
      return true;
    }

    method EnableAllKeys() returns (ok: bool)
      modifies this
      ensures (Snapshot(), ok) == Step(old(Snapshot()), EnableAll, decode)
    {
      Update(text, NO_ENTRIES);
      return true;
    }

    method DisableAllKeys() returns (ok: bool)
      modifies this
      ensures (Snapshot(), ok) == StepDisableAll(old(Snapshot()), decode)
    {
      var next, disabledCount := DisableEnabled(maps, size);
      ok := disabledCount != 0;
      if ok { Update(text, next); }
    }

    /** The rebuilt list and maps of delete_key. */
    method Reindex(keys: seq<string>, keyIndex: nat) returns (remaining: seq<string>, rebuilt: Maps)
      ensures var rs := Without(Records(keys, maps), keyIndex); remaining == KeysOf(rs) && rebuilt == MapsOf(rs)
    {
      ghost var rs, kept := Records(keys, maps), [];
      remaining, rebuilt := [], NO_ENTRIES;
      NoRecords();
      for i := 0 to |keys|
        invariant kept == Without(rs[..i], keyIndex) && |kept| == |remaining|
        invariant remaining == KeysOf(kept) && rebuilt == MapsOf(kept)
      {
        WithoutSnoc(rs, i, keyIndex);
        if i != keyIndex {
          rebuilt := MoveEntry(rebuilt, |remaining|, i, kept, keys[i]);
          remaining, kept := remaining + [keys[i]], kept + [rs[i]];
        }
      }
      assert rs[..|rs|] == rs;
    }

    /** Carries one key's entries to its new index; the status entry of an enabled key is dropped. */
    method MoveEntry(rebuilt: Maps, n: nat, i: nat, ghost rs: seq<Record>, ghost key: string) returns (next: Maps)
      requires rebuilt == MapsOf(rs) && n == |rs|
      ensures next == MapsOf(rs + [RecordAt(key, maps, i)])
      ensures KeysOf(rs + [RecordAt(key, maps, i)]) == KeysOf(rs) + [key]
    {
      MapsOfSnoc(rs, RecordAt(key, maps, i));
      var status := if i in maps.status && maps.status[i] != ENABLED then Some(maps.status[i]) else None;
      next := Maps(Put(rebuilt.status, n, status), Put(rebuilt.times, n, Get(maps.times, i)),
                   Put(rebuilt.reasons, n, Get(maps.reasons, i)));
    }

    method DeleteKey(index: Option<int>) returns (ok: bool)
      modifies this
      ensures (Snapshot(), ok) == StepDelete(old(Snapshot()), index, decode)
    {
      if index.None? || index.value < 0 || index.value >= size { return false; }
      var remaining, rebuilt := Reindex(ReadKeys(text, decode), index.value);
      if remaining == [] { return false; }
      Update(Join(remaining, '\n'), rebuilt);
      return true;
    }

    /** The rebuilt list and maps of delete_disabled_keys. */
    method DropAuto(keys: seq<string>) returns (remaining: seq<string>, rebuilt: Maps, deleted: nat)
      ensures var rs := Survivors(Records(keys, maps)); remaining == KeysOf(rs) && rebuilt == MapsOf(rs)
      ensures deleted == 0 <==> !AnyAuto(Records(keys, maps))
    {
      ghost var rs, kept := Records(keys, maps), [];
      remaining, rebuilt, deleted := [], NO_ENTRIES, 0;
      NoRecords();
      for i := 0 to |keys|
        invariant kept == Survivors(rs[..i]) && |kept| == |remaining|
        invariant remaining == KeysOf(kept) && rebuilt == MapsOf(kept)
        invariant deleted + |remaining| == i
      {
        SurvivorsNext(rs, i);
        if StatusAt(maps, i) == AUTO_DISABLED {
          deleted := deleted + 1;
        } else {
          rebuilt := KeepEntry(rebuilt, |remaining|, i, kept, keys[i]);
          remaining, kept := remaining + [keys[i]], kept + [Scrub(rs[i])];
        }
      }
      assert rs[..|rs|] == rs;
      SurvivorsLength(rs);
    }

    /** Carries one surviving key's entries to its new index; left-overs of an enabled key are dropped. */
    method KeepEntry(rebuilt: Maps, n: nat, i: nat, ghost rs: seq<Record>, ghost key: string) returns (next: Maps)
      requires rebuilt == MapsOf(rs) && n == |rs|
      ensures next == MapsOf(rs + [Scrub(RecordAt(key, maps, i))])
      ensures KeysOf(rs + [Scrub(RecordAt(key, maps, i))]) == KeysOf(rs) + [key]
    {
      MapsOfSnoc(rs, Scrub(RecordAt(key, maps, i)));
      next := rebuilt;
      var status := StatusAt(maps, i);
      if status != ENABLED {
        next := Maps(rebuilt.status[n := status], Put(rebuilt.times, n, Get(maps.times, i)),
                     Put(rebuilt.reasons, n, Get(maps.reasons, i)));
      }
    }

    method DeleteDisabledKeys() returns (ok: bool)
      modifies this
      ensures (Snapshot(), ok) == StepDeleteDisabled(old(Snapshot()), decode)
    {
      var remaining, rebuilt, deleted := DropAuto(ReadKeys(text, decode));
      if deleted == 0 { return false; }
      Update(Join(remaining, '\n'), rebuilt);
      return true;
    }

    method FindKey(usingKey: string) returns (keyIndex: int)
      ensures keyIndex == FirstWith(View(Snapshot(), decode), usingKey)
    {
      var keys := ReadKeys(text, decode);
      keyIndex := -1;
      for i := 0 to |keys|
        invariant keyIndex == -1 && forall j :: 0 <= j < i ==> keys[j] != usingKey
      {
        if keys[i] == usingKey {
          keyIndex := i;
          break;
        }
      }
      FirstUnique(View(Snapshot(), decode), usingKey, keyIndex);
    }

    /** handlerMultiKeyUpdate, on a key of the channel */
    method UpdateKeyStatus(usingKey: string, status: int, reason: string, now: int) returns (ok: bool)
      modifies this
      ensures (Snapshot(), ok) == StepAuto(old(Snapshot()), usingKey, status, reason, now, decode)
    {
      var keyIndex := FindKey(usingKey);
      if keyIndex < 0 { return false; }
      if status == ENABLED {
        maps := maps.(status := maps.status - {keyIndex});
      } else {
        maps := Maps(maps.status[keyIndex := status], maps.times[keyIndex := now], maps.reasons[keyIndex := reason]);
      }
      return true;
    }
  }

  lemma FirstUnique(rs: seq<Record>, key: string, i: int)
    requires -1 <= i < |rs| && (i >= 0 ==> rs[i].key == key)
    requires forall j :: 0 <= j < (if i < 0 then |rs| else i) ==> rs[j].key != key
    ensures FirstWith(rs, key) == i
  {
  }

  lemma NoRecords()
    ensures Survivors([]) == [] && KeysOf([]) == [] && MapsOf([]) == NO_ENTRIES
  {
  }

  lemma SurvivorsNext(rs: seq<Record>, i: nat)
    requires i < |rs|
    ensures Survivors(rs[..i + 1]) == if Auto(rs[i]) then Survivors(rs[..i]) else Survivors(rs[..i]) + [Scrub(rs[i])]
  {
    assert rs[..i + 1] == rs[..i] + [rs[i]];
    SurvivorsSnoc(rs[..i], rs[i]);
  }

  lemma SurvivorsSnoc(rs: seq<Record>, r: Record)
    ensures Survivors(rs + [r]) == Survivors(rs) + if Auto(r) then [] else [Scrub(r)]
  {
    FilterSnoc(rs, r, (x: Record) => !Auto(x));
  }

  lemma {:induction false} SurvivorsLength(rs: seq<Record>)
    ensures |Survivors(rs)| <= |rs|
    ensures |Survivors(rs)| == |rs| <==> !AnyAuto(rs)
  {
    if rs != [] {
      var front, last := rs[..|rs| - 1], rs[|rs| - 1];
      SurvivorsLength(front);
      SurvivorsSnoc(front, last);
      assert rs == front + [last];
    }
  }

  // ---------- What the record machine promises ----------

  /** Disable time and reason are kept for disabled keys only. */
  predicate NoHidden(rs: seq<Record>) {
    forall r :: r in rs && r.status == ENABLED ==> r == Fresh(r)
  }

  /** Every administrative action keeps it so. */
  lemma ActKeepsNoHidden(rs: seq<Record>, a: Action)
    requires NoHidden(rs) && !a.AutoUpdate?
    ensures NoHidden(Act(rs, a).0)
  {
    var after := Act(rs, a).0;
    forall r | r in after && r.status == ENABLED ensures r == Fresh(r) {
      var i :| 0 <= i < |after| && after[i] == r;
      match a
      case Delete(index) =>
        if |after| < |rs| { assert after[i] == if i < index.value then rs[i] else rs[i + 1]; }
      case DeleteDisabled =>
        if after == Survivors(rs) { assert after[i] == Scrub(Filter(rs, (x: Record) => !Auto(x))[i]); }
      case _ =>
    }
  }

  /**
   The channel monitor does so, except when it re-enables a key whose disable
   time or reason is recorded: exactly then these stay behind the enabled key.
   */
  lemma AutoUpdateHidesExactly(rs: seq<Record>, key: string, status: int, reason: string, now: int)
    requires NoHidden(rs)
    ensures var i := FirstWith(rs, key);
            NoHidden(Act(rs, AutoUpdate(key, status, reason, now)).0) <==>
            status != ENABLED || i < 0 || (rs[i].time.None? && rs[i].reason.None?)
  {
    var i := FirstWith(rs, key);
    var after := Act(rs, AutoUpdate(key, status, reason, now)).0;
    if i >= 0 {
      assert after[i] in after;
      forall r | r in after && r != after[i] ensures r in rs {
        var j :| 0 <= j < |after| && after[j] == r;
        assert r == rs[j];
      }
    }
  }

  lemma AutoEnableHides(key: string, reason: string, now: int)
    ensures var rs := [Record(key, AUTO_DISABLED, Some(now), Some(reason))];
            NoHidden(rs) && !NoHidden(Act(rs, AutoUpdate(key, ENABLED, "", now)).0)
  {
    var rs := [Record(key, AUTO_DISABLED, Some(now), Some(reason))];
    AutoUpdateHidesExactly(rs, key, ENABLED, "", now);
  }

  /** The condition under which deleting disabled keys is nothing but a filter. */
  predicate Filterable(rs: seq<Record>) {
    AnyAuto(rs) ==>
      (exists r :: r in rs && !Auto(r)) && forall r :: r in rs && !Auto(r) ==> r == Scrub(r)
  }

  /**
   delete_disabled_keys removes exactly the auto-disabled keys if and only if
   some other key is left and no left-over entry hides behind an enabled one.
   */
  lemma DeleteDisabledFilters(rs: seq<Record>)
    ensures Act(rs, DeleteDisabled).0 == Filter(rs, (r: Record) => !Auto(r)) <==> Filterable(rs)
  {
    var keep := (r: Record) => !Auto(r);
    var kept := Filter(rs, keep);
    var scrub := (r: Record) => Scrub(r);
    FilterAll(rs, keep);
    FilterNone(rs, keep);
    assert forall r :: r in kept <==> r in rs && !Auto(r);
    if AnyAuto(rs) {
      assert (Survivors(rs) == []) == (kept == []);
      if kept == [] {
        assert |Act(rs, DeleteDisabled).0| == |rs| > 0;
      } else {
        MapIdentity(kept, scrub);
      }
    }
  }

  lemma MapIdentity(rs: seq<Record>, f: Record -> Record)
    ensures Map(rs, f) == rs <==> forall r :: r in rs ==> f(r) == r
  {
    if Map(rs, f) == rs {
      forall r | r in rs ensures f(r) == r {
        var i :| 0 <= i < |rs| && rs[i] == r;
        assert Map(rs, f)[i] == f(rs[i]);
      }
    }
    if forall r :: r in rs ==> f(r) == r {
      assert forall i :: 0 <= i < |rs| ==> Map(rs, f)[i] == rs[i];
    }
  }

  /** When every key is auto-disabled, deleting the disabled keys deletes none and enables all. */
  lemma DeleteDisabledRevives(rs: seq<Record>)
    requires rs != [] && forall r :: r in rs ==> Auto(r)
    ensures Act(rs, DeleteDisabled) == (FreshAll(rs), true)
  {
    FilterNone(rs, (r: Record) => !Auto(r));
    assert rs[0] in rs;
  }

  function ActAll(rs: seq<Record>, actions: seq<Action>): seq<Record> {
    if actions == [] then rs else Act(ActAll(rs, actions[..|actions| - 1]), actions[|actions| - 1]).0
  }

  /** On the list of records, no sequence of actions removes the last key or introduces one. */
  lemma {:induction false} RecordKeysKept(rs: seq<Record>, actions: seq<Action>)
    requires rs != []
    ensures ActAll(rs, actions) != []
    ensures multiset(KeysOf(ActAll(rs, actions))) <= multiset(KeysOf(rs))
  {
    if actions != [] {
      var front, last := actions[..|actions| - 1], actions[|actions| - 1];
      RecordKeysKept(rs, front);
      ActKeys(ActAll(rs, front), last);
    }
  }

  lemma ActKeys(rs: seq<Record>, a: Action)
    requires rs != []
    ensures Act(rs, a).0 != []
    ensures multiset(KeysOf(Act(rs, a).0)) <= multiset(KeysOf(rs))
  {
    match a
    case Delete(index) => DeleteKeys(rs, index);
    case DeleteDisabled =>
      SurvivorKeys(rs);
      KeysSame(rs, FreshAll(rs));
    case _ =>
      RelabelKeys(rs, a);
      KeysSame(rs, Act(rs, a).0);
  }

  lemma KeysSame(rs: seq<Record>, after: seq<Record>)
    requires |after| == |rs| && forall i :: 0 <= i < |rs| ==> after[i].key == rs[i].key
    ensures KeysOf(after) == KeysOf(rs)
  {
  }

  lemma RelabelKeys(rs: seq<Record>, a: Action)
    requires !a.Delete? && !a.DeleteDisabled?
    ensures var after := Act(rs, a).0; |after| == |rs| && forall i :: 0 <= i < |rs| ==> after[i].key == rs[i].key
  {
  }

  lemma DeleteKeys(rs: seq<Record>, index: Option<int>)
    requires rs != []
    ensures Act(rs, Delete(index)).0 != []
    ensures multiset(KeysOf(Act(rs, Delete(index)).0)) <= multiset(KeysOf(rs))
  {
    if InRange(index, |rs|) && |rs| > 1 {
      RemoveAtMultiset(KeysOf(rs), index.value);
      assert KeysOf(RemoveAt(rs, index.value)) == RemoveAt(KeysOf(rs), index.value);
    }
  }

  lemma {:induction false} SurvivorKeys(rs: seq<Record>)
    ensures multiset(KeysOf(Survivors(rs))) <= multiset(KeysOf(rs))
  {
    if rs == [] {
      assert Survivors(rs) == [];
    } else {
      var front, last := rs[..|rs| - 1], rs[|rs| - 1];
      SurvivorKeys(front);
      SurvivorsSnoc(front, last);
      assert rs == front + [last];
      assert KeysOf(rs) == KeysOf(front) + [last.key];
      if !Auto(last) {
        assert KeysOf(Survivors(rs)) == KeysOf(Survivors(front)) + [last.key];
      } else {
        assert Survivors(rs) == Survivors(front);
      }
    }
  }
}
