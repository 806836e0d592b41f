/**
 When the stored form of a multi-key channel, one text and three sparse maps,
 behaves as the plain list of records: action by action and over whole runs.
 */
module MultiKeyStore {
  import opened Names
  import opened Separated
  import opened MultiKey

  // ---------- When the stored channel is the list of records ----------

  /** The stored size is the number of keys that will be read, and no entry lies outside. */
  ghost predicate Consistent(s: Stored, decode: Decoder) {
    s.size == |ReadKeys(s.text, decode)| && Inside(s.maps, s.size)
  }

  function TotalLength(keys: seq<string>): nat {
    if keys == [] then 0 else |keys[0]| + TotalLength(keys[1..])
  }

  /** Raw elements are pieces of the array's text, with brackets around and commas between them. */
  ghost predicate RawElements(decode: Decoder) {
    forall t :: decode(t).Some? ==> TotalLength(decode(t).value) + |decode(t).value| + 1 <= |t|
  }

  /** The keys, joined, will be read as the same keys: neither as a JSON array, nor with blanks lost at the ends or keys broken. */
  predicate Readable(keys: seq<string>, decode: Decoder) {
    && keys != [] && keys[0] != "" && keys[|keys| - 1] != "" && Free(keys, '\n')
    && JsonKeys(Join(keys, '\n'), decode).None?
  }

  lemma {:induction false} JoinLength(keys: seq<string>)
    requires keys != []
    ensures |Join(keys, '\n')| == TotalLength(keys) + |keys| - 1
  {
    if |keys| > 1 { JoinLength(keys[1..]); }
  }

  lemma ReadableExactly(keys: seq<string>, decode: Decoder)
    requires keys != [] && RawElements(decode)
    ensures Join(keys, '\n') != "" && ReadKeys(Join(keys, '\n'), decode) == keys <==> Readable(keys, decode)
  {
    var text := Join(keys, '\n');
    JoinLength(keys);
    RoundTripExactly(keys, '\n');
    if JsonKeys(text, decode).Some? {
      assert |Trim(text)| <= |text|;
    }
    if Readable(keys, decode) { JoinEnds(keys, '\n'); }
  }

  /** Saving records that read back keeps them; nothing else does. */
  lemma SaveExactly(stored: string, rs: seq<Record>, decode: Decoder)
    requires rs != [] && RawElements(decode) && |ReadKeys(stored, decode)| > |rs|
    ensures var s := SaveRecords(stored, rs, decode);
            && (Readable(KeysOf(rs), decode) ==> Consistent(s, decode) && View(s, decode) == rs)
            && (!Readable(KeysOf(rs), decode) ==> KeysOf(View(s, decode)) != KeysOf(rs))
  {
    var keys, s := KeysOf(rs), SaveRecords(stored, rs, decode);
    ReadableExactly(keys, decode);
    if Readable(keys, decode) {
      SaveReadable(stored, rs, decode);
    } else {
      assert KeysOf(View(s, decode)) == ReadKeys(s.text, decode);
    }
  }

  lemma SaveReadable(stored: string, rs: seq<Record>, decode: Decoder)
    requires rs != [] && Join(KeysOf(rs), '\n') != "" && ReadKeys(Join(KeysOf(rs), '\n'), decode) == KeysOf(rs)
    ensures Follows(SaveRecords(stored, rs, decode), rs, decode)
  {
    MapsOfRecords(rs);
    var s := SaveRecords(stored, rs, decode);
    assert CountedKeys(s.text, decode) == KeysOf(rs);
    assert s.maps == MapsOf(rs);
  }

  /** Re-saving the text that is stored changes nothing but the maps. */
  lemma SaveSame(s: Stored, maps: Maps, decode: Decoder)
    requires Consistent(s, decode) && Inside(maps, s.size) && s.size > 0
    ensures Save(s.text, s.text, maps, decode) == Stored(s.text, s.size, maps)
  {
    assert CountedKeys(s.text, decode) == ReadKeys(s.text, decode);
  }

  /** What an action on these records has to leave readable. */
  predicate Safe(rs: seq<Record>, a: Action, decode: Decoder) {
    match a
    case Delete(index) => InRange(index, |rs|) && |rs| > 1 ==> Readable(KeysOf(RemoveAt(rs, index.value)), decode)
    case DeleteDisabled => AnyAuto(rs) && Survivors(rs) != [] ==> Readable(KeysOf(Survivors(rs)), decode)
    case _ => true
  }

  ghost predicate Follows(s: Stored, rs: seq<Record>, decode: Decoder) {
    Consistent(s, decode) && View(s, decode) == rs
  }

  /**
   An action on a consistent channel answers as the list of records does, and
   does to the stored text and maps what it does to the list, if and only if
   the keys it leaves are readable; only clearing the maps of a channel whose
   text is an empty JSON array also miscounts.
   */
  lemma StepExactly(s: Stored, a: Action, decode: Decoder)
    requires RawElements(decode) && Consistent(s, decode)
    ensures var rs := View(s, decode);
            && Step(s, a, decode).1 == Act(rs, a).1
            && (Follows(Step(s, a, decode).0, Act(rs, a).0, decode) <==>
                Safe(rs, a, decode) && (a.EnableAll? && rs == [] ==> s.text == ""))
  {
    match a
    case Disable(index) => DisableFollows(s, index, decode);
    case Enable(index) => EnableFollows(s, index, decode);
    case EnableAll => EnableAllFollows(s, decode);
    case DisableAll => DisableAllFollows(s, decode);
    case Delete(index) => DeleteFollows(s, index, decode);
    case DeleteDisabled => DeleteDisabledFollows(s, decode);
    case AutoUpdate(key, status, reason, now) => AutoUpdateFollows(s, key, status, reason, now, decode);
  }

  lemma DisableFollows(s: Stored, index: Option<int>, decode: Decoder)
    requires Consistent(s, decode)
    ensures var rs := View(s, decode);
            StepDisable(s, index, decode).1 == ActDisable(rs, index).1 &&
            Follows(StepDisable(s, index, decode).0, ActDisable(rs, index).0, decode)
  {
    if InRange(index, s.size) {
      var maps := s.maps.(status := s.maps.status[index.value := MANUALLY_DISABLED]);
      SaveSame(s, maps, decode);
      assert View(Stored(s.text, s.size, maps), decode) == ActDisable(View(s, decode), index).0;
    }
  }

  lemma EnableFollows(s: Stored, index: Option<int>, decode: Decoder)
    requires Consistent(s, decode)
    ensures var rs := View(s, decode);
            StepEnable(s, index, decode).1 == ActEnable(rs, index).1 &&
            Follows(StepEnable(s, index, decode).0, ActEnable(rs, index).0, decode)
  {
    if InRange(index, s.size) {
      var maps := Forget(s.maps, index.value);
      SaveSame(s, maps, decode);
      assert View(Stored(s.text, s.size, maps), decode) == ActEnable(View(s, decode), index).0;
    }
  }

  lemma EnableAllFollows(s: Stored, decode: Decoder)
    requires Consistent(s, decode)
    ensures var rs := View(s, decode);
            Follows(Save(s.text, s.text, NO_ENTRIES, decode), FreshAll(rs), decode) <==> (rs == [] ==> s.text == "")
  {
    var maps := NO_ENTRIES;
    if s.size > 0 { SaveSame(s, maps, decode); }
    assert View(Save(s.text, s.text, maps, decode), decode) == FreshAll(View(s, decode));
  }

  lemma DisableAllFollows(s: Stored, decode: Decoder)
    requires Consistent(s, decode)
    ensures var rs := View(s, decode);
            StepDisableAll(s, decode).1 == ActDisableAll(rs).1 && Follows(StepDisableAll(s, decode).0, ActDisableAll(rs).0, decode)
  {
    EnabledRecord(ReadKeys(s.text, decode), s.maps);
    if AnyEnabled(s.maps, s.size) {
      DisabledRecords(ReadKeys(s.text, decode), s.maps);
      SaveSame(s, DisableBelow(s.maps, s.size), decode);
    }
  }

  lemma EnabledRecord(keys: seq<string>, maps: Maps)
    ensures var rs := Records(keys, maps);
            AnyEnabled(maps, |keys|) <==> exists r :: r in rs && r.status == ENABLED
  {
    var rs := Records(keys, maps);
    if AnyEnabled(maps, |keys|) {
      var i :| 0 <= i < |keys| && StatusAt(maps, i) == ENABLED;
      assert rs[i] in rs;
    }
    if r :| r in rs && r.status == ENABLED {
      var i :| 0 <= i < |rs| && rs[i] == r;
      assert StatusAt(maps, i) == ENABLED;
    }
  }

  lemma DisabledRecords(keys: seq<string>, maps: Maps)
    requires Inside(maps, |keys|)
    ensures var next := DisableBelow(maps, |keys|);
            Inside(next, |keys|) && Records(keys, next) == DisabledAll(Records(keys, maps))
  {
  }

  lemma DeleteFollows(s: Stored, index: Option<int>, decode: Decoder)
    requires RawElements(decode) && Consistent(s, decode)
    ensures var rs := View(s, decode);
            StepDelete(s, index, decode).1 == ActDelete(rs, index).1 &&
            (Follows(StepDelete(s, index, decode).0, ActDelete(rs, index).0, decode) <==> Safe(rs, Delete(index), decode))
  {
    var rs := View(s, decode);
    if InRange(index, |rs|) && |rs| > 1 { SaveExactly(s.text, RemoveAt(rs, index.value), decode); }
  }

  /** With no key left the text is not written: all keys stay, without entries. */
  lemma SaveNothing(s: Stored, decode: Decoder)
    requires Consistent(s, decode) && s.size > 0
    ensures Follows(SaveRecords(s.text, [], decode), FreshAll(View(s, decode)), decode)
  {
    NoRecords();
    var maps := NO_ENTRIES;
    SaveSame(s, maps, decode);
    assert Save(s.text, "", maps, decode) == Save(s.text, s.text, maps, decode);
    assert View(Stored(s.text, s.size, maps), decode) == FreshAll(View(s, decode));
  }

  lemma DeleteDisabledFollows(s: Stored, decode: Decoder)
    requires RawElements(decode) && Consistent(s, decode)
    ensures var rs := View(s, decode);
            StepDeleteDisabled(s, decode).1 == ActDeleteDisabled(rs).1 &&
            (Follows(StepDeleteDisabled(s, decode).0, ActDeleteDisabled(rs).0, decode) <==> Safe(rs, DeleteDisabled, decode))
  {
    var rs := View(s, decode);
    SurvivorsLength(rs);
    if AnyAuto(rs) {
      if Survivors(rs) == [] {
        SaveNothing(s, decode);
      } else {
        SaveExactly(s.text, Survivors(rs), decode);
      }
    }
  }

  /**
   delete_disabled_keys leaves exactly the keys that are not auto-disabled if
   and only if there is nothing to delete, or a key is left, nothing hides
   behind an enabled one, and the keys left are readable.
   */
  lemma DeleteDisabledExactly(s: Stored, decode: Decoder)
    requires RawElements(decode) && Consistent(s, decode)
    ensures var rs := View(s, decode);
            var kept := Filter(rs, (r: Record) => !Auto(r));
            Follows(StepDeleteDisabled(s, decode).0, kept, decode) <==>
            Filterable(rs) && (AnyAuto(rs) ==> Readable(KeysOf(kept), decode))
  {
    var rs := View(s, decode);
    var kept := Filter(rs, (r: Record) => !Auto(r));
    DeleteDisabledFilters(rs);
    KeptKeys(rs);
    KeptExactly(s, kept, decode);
  }

  lemma KeptKeys(rs: seq<Record>)
    ensures KeysOf(Survivors(rs)) == KeysOf(Filter(rs, (r: Record) => !Auto(r)))
  {
  }

  lemma KeptExactly(s: Stored, kept: seq<Record>, decode: Decoder)
    requires RawElements(decode) && Consistent(s, decode)
    requires KeysOf(Survivors(View(s, decode))) == KeysOf(kept)
    requires ActDeleteDisabled(View(s, decode)).0 == kept <==> Filterable(View(s, decode))
    ensures var rs := View(s, decode);
            Follows(StepDeleteDisabled(s, decode).0, kept, decode) <==>
            Filterable(rs) && (AnyAuto(rs) ==> Readable(KeysOf(kept), decode))
  {
    var rs := View(s, decode);
    SurvivorsLength(rs);
    if AnyAuto(rs) {
      if Survivors(rs) == [] {
        SaveNothing(s, decode);
      } else {
        SaveExactly(s.text, Survivors(rs), decode);
      }
    }
  }

  lemma AutoUpdateFollows(s: Stored, key: string, status: int, reason: string, now: int, decode: Decoder)
    requires Consistent(s, decode)
    ensures var rs := View(s, decode);
            StepAuto(s, key, status, reason, now, decode).1 == ActAuto(rs, key, status, reason, now).1 &&
            Follows(StepAuto(s, key, status, reason, now, decode).0, ActAuto(rs, key, status, reason, now).0, decode)
  {
    var keys := ReadKeys(s.text, decode);
    var i := FirstWith(View(s, decode), key);
    if i >= 0 { AutoRecords(keys, s.maps, i, status, reason, now); }
  }

  lemma AutoRecords(keys: seq<string>, maps: Maps, i: nat, status: int, reason: string, now: int)
    requires i < |keys| && Inside(maps, |keys|)
    ensures var next, r := AutoMaps(maps, i, status, reason, now), RecordAt(keys[i], maps, i);
            && Inside(next, |keys|)
            && Records(keys, next) == Records(keys, maps)[i :=
                 if status == ENABLED then r.(status := ENABLED) else r.(status := status, time := Some(now), reason := Some(reason))]
  {
  }

  // ---------- Whole runs ----------

  function RunAll(s: Stored, actions: seq<Action>, decode: Decoder): Stored {
    if actions == [] then s else Step(RunAll(s, actions[..|actions| - 1], decode), actions[|actions| - 1], decode).0
  }

  ghost predicate FollowsAt(s: Stored, actions: seq<Action>, decode: Decoder) {
    Follows(RunAll(s, actions, decode), ActAll(View(s, decode), actions), decode)
  }

  /** The stored channel follows the list of records through every prefix of the run. */
  ghost predicate FollowsThroughout(s: Stored, actions: seq<Action>, decode: Decoder) {
    FollowsAt(s, actions, decode) && (actions != [] ==> FollowsThroughout(s, actions[..|actions| - 1], decode))
  }

  /** Every action of the run leaves readable keys, judged on the list of records alone. */
  ghost predicate SafeThroughout(rs: seq<Record>, actions: seq<Action>, decode: Decoder) {
    actions != [] ==>
      var front := actions[..|actions| - 1];
      SafeThroughout(rs, front, decode) && Safe(ActAll(rs, front), actions[|actions| - 1], decode)
  }

  /** A channel with keys follows the list of records throughout a run if and only if the run leaves readable keys throughout. */
  lemma {:induction false} RunExactly(s: Stored, actions: seq<Action>, decode: Decoder)
    requires RawElements(decode) && Consistent(s, decode) && View(s, decode) != []
    ensures FollowsThroughout(s, actions, decode) <==> SafeThroughout(View(s, decode), actions, decode)
  {
    if actions != [] {
      var front := actions[..|actions| - 1];
      RunExactly(s, front, decode);
      if FollowsThroughout(s, front, decode) {
        RecordKeysKept(View(s, decode), front);
        StepExactly(RunAll(s, front, decode), actions[|actions| - 1], decode);
      }
    }
  }

  /** A run that stays readable never empties the stored channel, and invents and duplicates no key. */
  lemma KeysNeverLost(s: Stored, actions: seq<Action>, decode: Decoder)
    requires RawElements(decode) && Consistent(s, decode) && View(s, decode) != []
    requires SafeThroughout(View(s, decode), actions, decode)
    ensures var keys := ReadKeys(RunAll(s, actions, decode).text, decode);
            keys != [] && multiset(keys) <= multiset(ReadKeys(s.text, decode))
  {
    RunExactly(s, actions, decode);
    RecordKeysKept(View(s, decode), actions);
    assert KeysOf(View(s, decode)) == ReadKeys(s.text, decode);
    var after := RunAll(s, actions, decode);
    assert KeysOf(View(after, decode)) == ReadKeys(after.text, decode);
  }

  // ---------- Keys that are always safe ----------

  /** A key on one line that is not blank and cannot begin a JSON array. */
  predicate Plain(key: string) {
    '\n' !in key && Trim(key) != "" && Trim(key)[0] != '['
  }

  lemma {:induction false} TrimLeftAppend(a: string, b: string)
    requires TrimLeft(a) != ""
    ensures TrimLeft(a + b) == TrimLeft(a) + b
  {
    if IsSpace(a[0]) {
      assert (a + b)[1..] == a[1..] + b;
      TrimLeftAppend(a[1..], b);
    }
  }

  /** Trimming keeps the first character that is not white space. */
  lemma TrimFirst(a: string, b: string)
    requires Trim(a) != ""
    ensures Trim(a + b) != "" && Trim(a + b)[0] == Trim(a)[0]
  {
    TrimLeftAppend(a, b);
    TrimRightFirst(TrimLeft(a));
    TrimRightFirst(TrimLeft(a + b));
  }

  lemma {:induction false} TrimRightFirst(s: string)
    requires s != "" && !IsSpace(s[0])
    ensures TrimRight(s) != "" && TrimRight(s)[0] == s[0]
  {
    if IsSpace(s[|s| - 1]) { TrimRightFirst(s[..|s| - 1]); }
  }

  lemma PlainReadable(keys: seq<string>, decode: Decoder)
    requires keys != [] && forall k :: k in keys ==> Plain(k)
    ensures Readable(keys, decode)
  {
    assert keys[0] in keys && keys[|keys| - 1] in keys;
    var text := Join(keys, '\n');
    if |keys| == 1 {
      TrimFirst(keys[0], "");
      assert text == keys[0] + "";
    } else {
      TrimFirst(keys[0], "\n" + Join(keys[1..], '\n'));
      assert text == keys[0] + ("\n" + Join(keys[1..], '\n'));
    }
  }

  /** On a channel with plain keys, every sequence of actions does to the stored text what it does to the list. */
  lemma PlainKeysFollow(s: Stored, actions: seq<Action>, decode: Decoder)
    requires RawElements(decode) && Consistent(s, decode) && View(s, decode) != []
    requires forall k :: k in ReadKeys(s.text, decode) ==> Plain(k)
    ensures FollowsThroughout(s, actions, decode)
  {
    var rs := View(s, decode);
    assert KeysOf(rs) == ReadKeys(s.text, decode);
    PlainSafe(rs, actions, decode);
    RunExactly(s, actions, decode);
  }

  lemma {:induction false} PlainSafe(rs: seq<Record>, actions: seq<Action>, decode: Decoder)
    requires rs != [] && forall k :: k in KeysOf(rs) ==> Plain(k)
    ensures SafeThroughout(rs, actions, decode)
  {
    if actions != [] {
      var front := actions[..|actions| - 1];
      PlainSafe(rs, front, decode);
      RecordKeysKept(rs, front);
      PlainStep(rs, ActAll(rs, front), actions[|actions| - 1], decode);
    }
  }

  lemma PlainStep(start: seq<Record>, rs: seq<Record>, a: Action, decode: Decoder)
    requires forall k :: k in KeysOf(start) ==> Plain(k)
    requires rs != [] && multiset(KeysOf(rs)) <= multiset(KeysOf(start))
    ensures Safe(rs, a, decode)
  {
    if a.Delete? && InRange(a.index, |rs|) && |rs| > 1 {
      DeleteKeys(rs, a.index);
      PlainWithin(KeysOf(start), KeysOf(RemoveAt(rs, a.index.value)), decode);
    } else if a.DeleteDisabled? && Survivors(rs) != [] {
      SurvivorKeys(rs);
      PlainWithin(KeysOf(start), KeysOf(Survivors(rs)), decode);
    }
  }

  lemma PlainWithin(all: seq<string>, keys: seq<string>, decode: Decoder)
    requires keys != [] && multiset(keys) <= multiset(all) && forall k :: k in all ==> Plain(k)
    ensures Readable(keys, decode)
  {
    forall k | k in keys ensures Plain(k) {
      assert k in multiset(keys);
      assert k in multiset(all);
    }
    PlainReadable(keys, decode);
  }

  // ---------- Where the text gets in the way ----------

  lemma PlainEnds(key: string)
    requires Plain(key)
    ensures key != "" && key[0] != '\n' && key[|key| - 1] != '\n'
  {
    assert key != "" ==> key[0] in key && key[|key| - 1] in key;
  }

  lemma JoinBlank(first: string, last: string)
    ensures Join([first, "", last], '\n') == first + "\n\n" + last
  {
    var keys := [first, "", last];
    assert keys[1..] == ["", last] && ["", last][1..] == [last];
    assert Join(["", last], '\n') == "\n" + last;
  }

  lemma BlankReadable(first: string, last: string, text: string, decode: Decoder)
    requires Plain(first) && Plain(last) && text == Join([first, "", last], '\n')
    ensures Readable([first, "", last], decode) && text != ""
  {
    PlainEnds(first);
    PlainEnds(last);
    JoinBlank(first, last);
    TrimFirst(first, "\n\n" + last);
    assert text == first + ("\n\n" + last);
  }

  lemma ReadsBack(keys: seq<string>, text: string, decode: Decoder)
    requires text == Join(keys, '\n') && text != "" && Readable(keys, decode)
    ensures ReadKeys(text, decode) == keys
  {
    RoundTripExactly(keys, '\n');
  }

  /** A channel stored with a blank line between two keys. */
  lemma BlankKeyStored(first: string, last: string, decode: Decoder)
    requires Plain(first) && Plain(last)
    ensures var s := Stored(first + "\n\n" + last, 3, NO_ENTRIES);
            Consistent(s, decode) && ReadKeys(s.text, decode) == [first, "", last]
  {
    var text := first + "\n\n" + last;
    JoinBlank(first, last);
    BlankReadable(first, last, text, decode);
    ReadsBack([first, "", last], text, decode);
  }

  lemma BlankFirst(key: string, decode: Decoder)
    requires Plain(key)
    ensures var text := Join(["", key], '\n');
            text == "\n" + key && ReadKeys(text, decode) == [key] && CountedKeys(text, decode) == [key]
  {
    var text := "\n" + key;
    assert ["", key][1..] == [key];
    assert text[1..] == key;
    assert Lines(text) == [key] by {
      PlainEnds(key);
      assert TrimOuter(text, '\n') == TrimOuter(key, '\n');
      SplitName(key, "", '\n');
    }
    assert TrimLeft(text) == TrimLeft(key);
    assert JsonKeys(text, decode) == None;
  }

  /**
   Deleting a key before a blank one loses the blank key too: the last key takes
   over its entries, and a time or reason of its own lies outside.
   */
  lemma BlankKeyShifts(s: Stored, first: Record, blank: Record, last: Record, decode: Decoder)
    requires Consistent(s, decode) && View(s, decode) == [first, blank, last]
    requires blank.key == "" && Plain(last.key)
    ensures var s' := StepDelete(s, Some(0), decode).0;
            && View(s', decode) == [Record(last.key, blank.status, blank.time, blank.reason)]
            && (Consistent(s', decode) <==> last.time == None && last.reason == None)
  {
    DeleteFirst(s, [first, blank, last], [blank, last], decode);
    BlankSaved(s.text, blank, last, decode);
  }

  lemma DeleteFirst(s: Stored, rs: seq<Record>, left: seq<Record>, decode: Decoder)
    requires View(s, decode) == rs && s.size > 0 && rs != [] && left == rs[1..] && left != []
    ensures StepDelete(s, Some(0), decode).0 == SaveRecords(s.text, left, decode)
  {
    assert Without(rs, 0) == left;
  }

  lemma BlankSaved(text: string, blank: Record, last: Record, decode: Decoder)
    requires blank.key == "" && Plain(last.key)
    ensures var s := SaveRecords(text, [blank, last], decode);
            && View(s, decode) == [Record(last.key, blank.status, blank.time, blank.reason)]
            && (Consistent(s, decode) <==> last.time == None && last.reason == None)
  {
    BlankFirst(last.key, decode);
    var rs := [blank, last];
    assert KeysOf(rs) == ["", last.key];
    MapsOfRecords(rs);
    var s := SaveRecords(text, rs, decode);
    assert s.text == "\n" + last.key && s.size == 1;
    assert Get(s.maps.times, 1) == last.time && Get(s.maps.reasons, 1) == last.reason;
    assert Get(s.maps.times, 0) == blank.time && Get(s.maps.reasons, 0) == blank.reason;
  }

  /** Disabling the blank key and the one after it, on a channel without entries. */
  lemma BothDisabled(s: Stored, first: string, last: string, why: string, at: int, cause: string, now: int, decode: Decoder)
    requires Consistent(s, decode) && s.maps == NO_ENTRIES && ReadKeys(s.text, decode) == [first, "", last]
    requires first != "" && last != "" && first != last
    ensures var s1 := StepAuto(s, "", AUTO_DISABLED, why, at, decode).0;
            Follows(StepAuto(s1, last, AUTO_DISABLED, cause, now, decode).0,
                    [Record(first, ENABLED, None, None), Record("", AUTO_DISABLED, Some(at), Some(why)),
                     Record(last, AUTO_DISABLED, Some(now), Some(cause))], decode)
  {
    AutoUpdateFollows(s, "", AUTO_DISABLED, why, at, decode);
    AutoUpdateFollows(StepAuto(s, "", AUTO_DISABLED, why, at, decode).0, last, AUTO_DISABLED, cause, now, decode);
  }

  /**
   On a channel with a blank key in the middle, the blank and the last key are
   disabled and then the first is deleted: the last key ends with the time and
   reason the blank one was given, and its own lie outside.
   */
  lemma BlankKeyRun(s: Stored, first: string, last: string, why: string, at: int, cause: string, now: int, decode: Decoder)
    requires Consistent(s, decode) && s.maps == NO_ENTRIES && ReadKeys(s.text, decode) == [first, "", last]
    requires first != "" && Plain(last) && first != last
    ensures var s1 := StepAuto(s, "", AUTO_DISABLED, why, at, decode).0;
            var s2 := StepAuto(s1, last, AUTO_DISABLED, cause, now, decode).0;
            var s3 := StepDelete(s2, Some(0), decode).0;
            View(s3, decode) == [Record(last, AUTO_DISABLED, Some(at), Some(why))] && !Consistent(s3, decode)
  {
    PlainEnds(last);
    BothDisabled(s, first, last, why, at, cause, now, decode);
    var s1 := StepAuto(s, "", AUTO_DISABLED, why, at, decode).0;
    BlankKeyShifts(StepAuto(s1, last, AUTO_DISABLED, cause, now, decode).0, Record(first, ENABLED, None, None),
                   Record("", AUTO_DISABLED, Some(at), Some(why)), Record(last, AUTO_DISABLED, Some(now), Some(cause)), decode);
  }

  /** A JSON element that spans lines becomes several keys once the array around it is gone. */
  lemma JsonElementBreaks(decode: Decoder)
    requires decode("[{\n},1]") == Some(["{\n}", "1"])
    ensures var s := Stored("[{\n},1]", 2, Maps(map[], map[], map[]));
            Consistent(s, decode) && KeysOf(View(s, decode)) == ["{\n}", "1"] &&
            ReadKeys(StepDelete(s, Some(1), decode).0.text, decode) == ["{", "}"]
  {
    var s := Stored("[{\n},1]", 2, Maps(map[], map[], map[]));
    TrimTrimmed(s.text);
    assert ReadKeys(s.text, decode) == ["{\n}", "1"];
    var rs := View(s, decode);
    assert Without(rs, 1) == [rs[0]] && KeysOf([rs[0]]) == ["{\n}"];
    LinesOfElement(decode);
  }

  lemma LinesOfElement(decode: Decoder)
    ensures ReadKeys("{\n}", decode) == ["{", "}"]
  {
    TrimTrimmed("{\n}");
    SplitName("{", "}", '\n');
    SplitName("}", "", '\n');
    assert "{\n}" == "{" + "\n" + "}";
  }
}
