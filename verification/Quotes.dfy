/**
 The durable quote of each source and model: how often the source has repeated
 the same contract, and for how many fetches it has been absent.
 */
module Quotes {
  import opened Names
  import opened PricingData

  /** One decoded response of a source. */
  datatype Fetch = Fetch(data: SyncData, unsupported: set<string>)

  datatype Key = Key(channelID: int, name: string)

  /** The stored contract stands for its canonical encoding and for the hash of that. */
  datatype Quote = Quote(contract: Column, confirmations: nat, missing: nat, confirmedAt: int)

  type Table = map<Key, Quote>

  /** What one fetch says about one model. */
  datatype Sighting = Valid(contract: Column, at: int) | Unsupported | Missing

  type Smoke = string -> bool

  function At(table: Table, k: Key): Option<Quote> {
    if k in table then Some(table[k]) else None
  }

  function SightingOf(fetch: Fetch, name: string, smoke: Smoke, now: int): Sighting {
    if ValidContract(ColumnOf(fetch.data, name), smoke) then Valid(ColumnOf(fetch.data, name), now)
    else if name in fetch.unsupported then Unsupported
    else Missing
  }

  /** The transition of a single quote. */
  function Observe(quote: Option<Quote>, sighting: Sighting): Option<Quote> {
    match sighting
    case Valid(contract, at) =>
      if quote.Some? && quote.value.contract == contract
      then Some(Quote(contract, quote.value.confirmations + 1, 0, at))
      else Some(Quote(contract, 1, 0, at))
    case Unsupported => if quote.None? then None else Some(quote.value.(missing := 0))
    case Missing =>
      if quote.None? then None else Some(quote.value.(missing := quote.value.missing + 1, confirmations := 0))
  }

  // ---------- The latest streak ----------

  ghost function AfterLastMissing(h: seq<Sighting>): seq<Sighting> {
    if h == [] || h[|h| - 1].Missing? then [] else AfterLastMissing(h[..|h| - 1]) + [h[|h| - 1]]
  }

  /** The contracts sighted, oldest first. */
  ghost function Sighted(h: seq<Sighting>): seq<Column> {
    if h == [] then []
    else Sighted(h[..|h| - 1]) + match h[|h| - 1] case Valid(c, _) => [c] case _ => []
  }

  /** The last k members, and no more, equal the final one. */
  ghost predicate TrailingRun<T>(xs: seq<T>, k: nat) {
    && k <= |xs|
    && (k == 0 <==> xs == [])
    && (forall i :: |xs| - k <= i < |xs| ==> xs[i] == xs[|xs| - 1])
    && (k < |xs| ==> xs[|xs| - k - 1] != xs[|xs| - 1])
  }

  /** The last k sightings, and no more, are absences. */
  ghost predicate TrailingAbsences(h: seq<Sighting>, k: nat) {
    && k <= |h|
    && (forall i :: |h| - k <= i < |h| ==> h[i].Missing?)
    && (k < |h| ==> !h[|h| - k - 1].Missing?)
  }

  ghost function ObserveAll(h: seq<Sighting>): Option<Quote> {
    if h == [] then None else Observe(ObserveAll(h[..|h| - 1]), h[|h| - 1])
  }

  ghost predicate Describes(quote: Option<Quote>, h: seq<Sighting>) {
    match quote
    case None => Sighted(h) == []
    case Some(q) =>
      && Sighted(h) != [] && q.contract == Sighted(h)[|Sighted(h)| - 1]
      && TrailingRun(Sighted(AfterLastMissing(h)), q.confirmations)
      && TrailingAbsences(h, q.missing)
  }

  /**
   Over every history of fetches the quote holds the last sighted contract; its
   confirmation count is the length of the latest run of that same contract
   since the last absence, unsupported sightings not counting either way; and
   its missing count is the number of fetches the model has just been absent for.
   */
  lemma {:induction false} QuoteDescribesHistory(h: seq<Sighting>)
    ensures Describes(ObserveAll(h), h)
  {
    if h != [] {
      var front, last := h[..|h| - 1], h[|h| - 1];
      QuoteDescribesHistory(front);
      ObserveDescribes(ObserveAll(front), front, last);
      assert h == front + [last];
    }
  }

  lemma {:induction false} ObserveDescribes(quote: Option<Quote>, front: seq<Sighting>, last: Sighting)
    requires Describes(quote, front)
    ensures Describes(Observe(quote, last), front + [last])
  {
    if last.Valid? {
      SightedDescribes(quote, front, last);
    } else {
      UnseenDescribes(quote, front, last);
    }
  }

  lemma {:induction false} SightedDescribes(quote: Option<Quote>, front: seq<Sighting>, last: Sighting)
    requires Describes(quote, front) && last.Valid?
    ensures Describes(Observe(quote, last), front + [last])
  {
    var h, c := front + [last], last.contract;
    var k := if quote.Some? && quote.value.contract == c then quote.value.confirmations + 1 else 1;
    SinceSnoc(front, last);
    assert TrailingRun(Sighted(AfterLastMissing(h)), k) by { RunSnoc(quote, front, c); }
    SightedSnoc(front, last);
    AbsencesSnoc(front, 0, last);
    Describing(h, Quote(c, k, 0, last.at));
  }

  lemma Describing(h: seq<Sighting>, q: Quote)
    requires Sighted(h) != [] && q.contract == Sighted(h)[|Sighted(h)| - 1]
    requires TrailingRun(Sighted(AfterLastMissing(h)), q.confirmations) && TrailingAbsences(h, q.missing)
    ensures Describes(Some(q), h)
  {
  }

  lemma {:induction false} UnseenDescribes(quote: Option<Quote>, front: seq<Sighting>, last: Sighting)
    requires Describes(quote, front) && !last.Valid?
    ensures Describes(Observe(quote, last), front + [last])
  {
    SightedSnoc(front, last);
    SinceSnoc(front, last);
    AbsencesSnoc(front, if quote.Some? then quote.value.missing else 0, last);
  }

  lemma {:induction false} RunSnoc(quote: Option<Quote>, front: seq<Sighting>, c: Column)
    requires Describes(quote, front)
    ensures TrailingRun(Sighted(AfterLastMissing(front)) + [c],
                        if quote.Some? && quote.value.contract == c then quote.value.confirmations + 1 else 1)
  {
    SinceSuffix(front);
    if quote.Some? {
      RunGrows(Sighted(AfterLastMissing(front)), quote.value.confirmations, quote.value.contract, c);
    }
  }

  ghost function ContractOf(s: Sighting): seq<Column> {
    match s case Valid(c, _) => [c] case _ => []
  }

  lemma {:induction false} SightedSnoc(front: seq<Sighting>, last: Sighting)
    ensures Sighted(front + [last]) == Sighted(front) + ContractOf(last)
  {
    assert (front + [last])[..|front|] == front;
  }

  lemma {:induction false} SinceSnoc(front: seq<Sighting>, last: Sighting)
    ensures Sighted(AfterLastMissing(front + [last])) ==
            if last.Missing? then [] else Sighted(AfterLastMissing(front)) + ContractOf(last)
  {
    assert (front + [last])[..|front|] == front;
    if !last.Missing? { SightedSnoc(AfterLastMissing(front), last); }
  }

  lemma AbsencesSnoc(front: seq<Sighting>, k: nat, last: Sighting)
    ensures !last.Missing? ==> TrailingAbsences(front + [last], 0)
    ensures last.Missing? && TrailingAbsences(front, k) ==> TrailingAbsences(front + [last], k + 1)
  {
  }

  /** Since the last absence only a suffix of the history's contracts was sighted. */
  lemma {:induction false} SinceSuffix(h: seq<Sighting>)
    ensures var since, all := Sighted(AfterLastMissing(h)), Sighted(h);
            |since| <= |all| && since == all[|all| - |since|..]
  {
    if h != [] {
      var front, last := h[..|h| - 1], h[|h| - 1];
      assert h == front + [last];
      SightedSnoc(front, last);
      SinceSnoc(front, last);
      SinceSuffix(front);
      SuffixAppend(Sighted(AfterLastMissing(front)), Sighted(front), ContractOf(last));
    }
  }

  lemma SuffixAppend(part: seq<Column>, all: seq<Column>, more: seq<Column>)
    requires |part| <= |all| && part == all[|all| - |part|..]
    ensures part + more == (all + more)[|all| - |part|..]
  {
  }

  lemma RunGrows(before: seq<Column>, k: nat, held: Column, c: Column)
    requires TrailingRun(before, k)
    requires before != [] ==> before[|before| - 1] == held
    ensures TrailingRun(before + [c], if held == c then k + 1 else 1)
  {
  }

  /** An absent model has no confirmation left, so it is never confirmed and missing at once. */
  lemma MissingExcludesConfirmed(h: seq<Sighting>)
    ensures ObserveAll(h).Some? && ObserveAll(h).value.missing > 0 ==> ObserveAll(h).value.confirmations == 0
  {
    QuoteDescribesHistory(h);
    if ObserveAll(h).Some? && ObserveAll(h).value.missing > 0 {
      assert h[|h| - 1].Missing?;
      assert AfterLastMissing(h) == [];
    }
  }

  // ---------- The table ----------

  function ValidNames(fetch: Fetch, smoke: Smoke): set<string> {
    set n | n in ModelsOf(fetch.data) && ValidContract(ColumnOf(fetch.data, n), smoke)
  }

  lemma ValidNamesComplete(fetch: Fetch, smoke: Smoke, name: string)
    ensures name in ValidNames(fetch, smoke) <==> ValidContract(ColumnOf(fetch.data, name), smoke)
  {
    var c := ColumnOf(fetch.data, name);
    if ValidContract(c, smoke) {
      assert c != map[];
      var f :| f in c.Keys;
      assert name in fetch.data[f];
    }
  }

  /** The given quotes have seen the fetch; the others have not moved. */
  ghost predicate Progress(before: Table, after: Table, fetch: Fetch, smoke: Smoke, now: int, done: set<Key>) {
    && (forall k: Key :: k in done ==> At(after, k) == Observe(At(before, k), SightingOf(fetch, k.name, smoke, now)))
    && (forall k: Key :: k !in done ==> At(after, k) == At(before, k))
  }

  /** One fetch of one source moves every quote of that source and no others. */
  ghost predicate Confirms(before: Table, channelID: int, fetch: Fetch, smoke: Smoke, now: int, after: Table) {
    forall k: Key :: At(after, k) ==
                     if k.channelID == channelID then Observe(At(before, k), SightingOf(fetch, k.name, smoke, now))
                     else At(before, k)
  }

  predicate Confirmed(quote: Option<Quote>) {
    quote.Some? && quote.value.confirmations >= 2 && quote.value.missing < 2
  }

  function ConfirmedContract(table: Table, channelID: int, name: string): Column {
    var quote := At(table, Key(channelID, name));
    if Confirmed(quote) then quote.value.contract else map[]
  }

  function ConfirmedNames(table: Table, channelID: int): (r: set<string>)
    ensures forall n :: n in r <==> Confirmed(At(table, Key(channelID, n)))
  {
    set k | k in table && k.channelID == channelID && Confirmed(At(table, k)) :: k.name
  }

  function SnapshotField(table: Table, channelID: int, f: Field): map<string, Value> {
    map n | n in ConfirmedNames(table, channelID) && f in ConfirmedContract(table, channelID, n) ::
      ConfirmedContract(table, channelID, n)[f]
  }

  /** confirmedPricingSyncQuoteData */
  function Snapshot(table: Table, channelID: int): SyncData {
    map f: Field | SnapshotField(table, channelID, f) != map[] :: SnapshotField(table, channelID, f)
  }

  lemma SnapshotColumn(table: Table, channelID: int, name: string)
    ensures ColumnOf(Snapshot(table, channelID), name) == ConfirmedContract(table, channelID, name)
  {
    var c, want := ColumnOf(Snapshot(table, channelID), name), ConfirmedContract(table, channelID, name);
    forall f: Field ensures (f in c <==> f in want) && (f in c ==> c[f] == want[f]) {
      if f in want { assert name in SnapshotField(table, channelID, f); }
    }
  }

  class QuoteStore {
    var quotes: Table

    constructor ()
      ensures quotes == map[]
    {
      quotes := map[];
    }

    /** confirmPricingSyncQuotesWithTx, as one atomic step */
    method Confirm(channelID: int, fetch: Fetch, smoke: Smoke, now: int) returns (filtered: SyncData)
      modifies this
      ensures Confirms(old(quotes), channelID, fetch, smoke, now, quotes)
      ensures forall n :: n in ModelsOf(filtered) <==> n in ValidNames(fetch, smoke) && Confirmed(At(quotes, Key(channelID, n)))
      ensures forall n :: n in ModelsOf(filtered) ==> ColumnOf(filtered, n) == ColumnOf(fetch.data, n)
    {
      ghost var before := quotes;
      var existing := set k | k in quotes && k.channelID == channelID;
      var valid := ValidNames(fetch, smoke);
      var confirmed := SaveValid(channelID, fetch, smoke, now, valid);
      MarkAbsent(channelID, fetch, smoke, now, valid, existing, before);
      filtered := FilterData(fetch.data, confirmed);
      forall n ensures n in valid <==> ValidContract(ColumnOf(fetch.data, n), smoke) {
        ValidNamesComplete(fetch, smoke, n);
      }
      assert forall k: Key :: k in KeysFor(channelID, valid) + existing || At(before, k).None? || k.channelID != channelID;
    }

    /** The quotes of a removed source go. */
    method Drop(channelID: int)
      modifies this
      ensures quotes == WithoutSource(old(quotes), channelID)
    {
      quotes := map k | k in quotes && k.channelID != channelID :: quotes[k];
    }

    method SaveValid(channelID: int, fetch: Fetch, smoke: Smoke, now: int, valid: set<string>) returns (confirmed: set<string>)
      requires valid == ValidNames(fetch, smoke)
      modifies this
      ensures Progress(old(quotes), quotes, fetch, smoke, now, KeysFor(channelID, valid))
      ensures forall n :: n in confirmed <==> n in valid && Confirmed(At(quotes, Key(channelID, n)))
    {
      ghost var before := quotes;
      var names := Keys(valid);
      confirmed := {};
      assert forall n :: n in names <==> n in Elems(names);
      for i := 0 to |names|
        invariant Progress(before, quotes, fetch, smoke, now, KeysFor(channelID, Elems(names[..i])))
        invariant forall n :: n in confirmed <==> n in names[..i] && Confirmed(At(quotes, Key(channelID, n)))
      {
        var name := names[i];
        ValidNamesComplete(fetch, smoke, name);
        assert names[..i + 1] == names[..i] + [name];
        assert KeysFor(channelID, Elems(names[..i + 1])) == KeysFor(channelID, Elems(names[..i])) + {Key(channelID, name)};
        var k := Key(channelID, name);
        assert k !in KeysFor(channelID, Elems(names[..i]));
        var contract := ColumnOf(fetch.data, name);
        assert At(quotes, k) == At(before, k);
        var confirmations := 1;
        if k in quotes && quotes[k].contract == contract {
          confirmations := quotes[k].confirmations + 1;
        }
        quotes := quotes[k := Quote(contract, confirmations, 0, now)];
        if confirmations >= 2 { confirmed := confirmed + {name}; }
        assert SightingOf(fetch, name, smoke, now) == Valid(contract, now);
      }
      assert names[..|names|] == names;
      assert Elems(names) == valid;
    }

    method MarkAbsent(channelID: int, fetch: Fetch, smoke: Smoke, now: int, valid: set<string>, existing: set<Key>, ghost before: Table)
      requires valid == ValidNames(fetch, smoke)
      requires existing == set k | k in before && k.channelID == channelID
      requires Progress(before, quotes, fetch, smoke, now, KeysFor(channelID, valid))
      modifies this
      ensures Progress(before, quotes, fetch, smoke, now, KeysFor(channelID, valid) + existing)
    {
      var keys := Keys(existing);
      ghost var done := KeysFor(channelID, valid);
      for i := 0 to |keys|
        invariant done == KeysFor(channelID, valid) + Elems(keys[..i])
        invariant Progress(before, quotes, fetch, smoke, now, done)
      {
        var k := keys[i];
        DoneSnoc(KeysFor(channelID, valid), keys, i);
        if k.name !in valid {
          assert k in before && At(quotes, k) == At(before, k);
          ghost var quotes0 := quotes;
          MarkOne(k, fetch);
          AbsentStep(before, quotes0, quotes, fetch, smoke, now, done, k);
        }
        done := done + {k};
      }
      assert keys[..|keys|] == keys;
    }

    method MarkOne(k: Key, fetch: Fetch)
      requires k in quotes
      modifies this
      ensures forall j: Key :: j != k ==> At(quotes, j) == At(old(quotes), j)
      ensures At(quotes, k) == Observe(At(old(quotes), k), if k.name in fetch.unsupported then Unsupported else Missing)
    {
      if k.name in fetch.unsupported {
        if quotes[k].missing != 0 { quotes := quotes[k := quotes[k].(missing := 0)]; }
      } else {
        quotes := quotes[k := quotes[k].(missing := quotes[k].missing + 1, confirmations := 0)];
      }
    }
  }

  lemma DoneSnoc(saved: set<Key>, keys: seq<Key>, i: nat)
    requires Distinct(keys) && i < |keys|
    ensures keys[i] in Elems(keys) && keys[i] !in Elems(keys[..i])
    ensures saved + Elems(keys[..i + 1]) == (saved + Elems(keys[..i])) + {keys[i]}
    ensures keys[i] in saved ==> (saved + Elems(keys[..i])) + {keys[i]} == saved + Elems(keys[..i])
  {
    assert keys[..i + 1] == keys[..i] + [keys[i]];
  }

  lemma AbsentStep(before: Table, quotes: Table, quotes': Table, fetch: Fetch, smoke: Smoke, now: int, done: set<Key>, k: Key)
    requires Progress(before, quotes, fetch, smoke, now, done) && k !in done && k.name !in ValidNames(fetch, smoke)
    requires forall j: Key :: j != k ==> At(quotes', j) == At(quotes, j)
    requires At(quotes', k) == Observe(At(quotes, k), if k.name in fetch.unsupported then Unsupported else Missing)
    ensures Progress(before, quotes', fetch, smoke, now, done + {k})
  {
    ValidNamesComplete(fetch, smoke, k.name);
  }

  function KeysFor(channelID: int, names: set<string>): (r: set<Key>)
    ensures forall k: Key :: k in r <==> k.channelID == channelID && k.name in names
  {
    var r := set n | n in names :: Key(channelID, n);
    assert forall k: Key :: k in r <==> k.channelID == channelID && k.name in names by {
      forall k: Key ensures k in r <==> k.channelID == channelID && k.name in names {
        if k.channelID == channelID && k.name in names { assert k == Key(channelID, k.name); }
      }
    }
    r
  }

  /** The fetched data restricted to the given models; fields left empty are dropped. */
  function FilterData(data: SyncData, names: set<string>): (r: SyncData)
    ensures forall n :: n in ModelsOf(r) <==> n in names && n in ModelsOf(data)
    ensures forall n :: n in names ==> ColumnOf(r, n) == ColumnOf(data, n)
  {
    var r := map f | f in data && KeptIn(data[f], names) != map[] :: KeptIn(data[f], names);
    assert forall n :: n in names ==> ColumnOf(r, n) == ColumnOf(data, n) by {
      forall n | n in names ensures ColumnOf(r, n) == ColumnOf(data, n) {
        assert forall f :: f in data && n in data[f] ==> n in KeptIn(data[f], names);
      }
    }
    assert forall n :: n in ModelsOf(r) <==> n in names && n in ModelsOf(data) by {
      forall n | n in names && n in ModelsOf(data) ensures n in ModelsOf(r) {
        var f :| f in data && n in data[f];
        assert n in KeptIn(data[f], names);
        assert f in r && n in r[f];
      }
    }
    r
  }

  function KeptIn(table: map<string, Value>, names: set<string>): map<string, Value> {
    map n | n in table && n in names :: table[n]
  }

  // ---------- Every run of fetches ----------

  /** A source was fetched, or it was removed and its quotes with it. */
  datatype Event = Event(channelID: int, fetch: Fetch, now: int) | Dropped(channelID: int)

  /** What the source has shown of the model since it was last removed. */
  ghost function History(events: seq<Event>, k: Key, smoke: Smoke): seq<Sighting> {
    if events == [] then []
    else
      var front, last := History(events[..|events| - 1], k, smoke), events[|events| - 1];
      if last.channelID != k.channelID then front
      else if last.Dropped? then []
      else front + [SightingOf(last.fetch, k.name, smoke, last.now)]
  }

  /** The table is what the given fetches, in order, left behind. */
  ghost predicate Records(table: Table, events: seq<Event>, smoke: Smoke) {
    forall k: Key :: At(table, k) == ObserveAll(History(events, k, smoke))
  }

  lemma {:induction false} RecordsStep(before: Table, events: seq<Event>, e: Event, smoke: Smoke, after: Table)
    requires Records(before, events, smoke) && e.Event?
    requires Confirms(before, e.channelID, e.fetch, smoke, e.now, after)
    ensures Records(after, events + [e], smoke)
  {
    var all := events + [e];
    assert all[..|all| - 1] == events;
    forall k: Key ensures At(after, k) == ObserveAll(History(all, k, smoke)) {
      var h, front := History(all, k, smoke), History(events, k, smoke);
      if e.channelID == k.channelID {
        assert h == front + [SightingOf(e.fetch, k.name, smoke, e.now)];
        assert h[..|h| - 1] == front;
      } else {
        assert h == front;
      }
    }
  }

  function WithoutSource(table: Table, channelID: int): Table {
    map k | k in table && k.channelID != channelID :: table[k]
  }

  lemma {:induction false} DropStep(table: Table, events: seq<Event>, channelID: int, smoke: Smoke)
    requires Records(table, events, smoke)
    ensures Records(WithoutSource(table, channelID), events + [Dropped(channelID)], smoke)
  {
    var all := events + [Dropped(channelID)];
    assert all[..|all| - 1] == events;
    forall k: Key ensures At(WithoutSource(table, channelID), k) == ObserveAll(History(all, k, smoke)) {
      assert At(table, k) == ObserveAll(History(events, k, smoke));
    }
  }

  /**
   Whatever was fetched, a source's confirmed snapshot shows a contract only if
   the source's last two sightings of the model since any absence were that
   very contract, and never shows a model the source counts as missing.
   */
  lemma {:induction false} SnapshotTwiceSighted(table: Table, events: seq<Event>, smoke: Smoke, channelID: int, name: string)
    requires Records(table, events, smoke)
    requires ConfirmedContract(table, channelID, name) != map[]
    ensures var sighted := Sighted(AfterLastMissing(History(events, Key(channelID, name), smoke)));
            && |sighted| >= 2
            && sighted[|sighted| - 1] == sighted[|sighted| - 2] == ConfirmedContract(table, channelID, name)
    ensures At(table, Key(channelID, name)).value.missing == 0
  {
    var h := History(events, Key(channelID, name), smoke);
    assert At(table, Key(channelID, name)) == ObserveAll(h);
    MissingExcludesConfirmed(h);
    ConfirmedTwice(h);
  }

  lemma {:induction false} ConfirmedTwice(h: seq<Sighting>)
    requires Confirmed(ObserveAll(h))
    ensures var sighted := Sighted(AfterLastMissing(h));
            |sighted| >= 2 && sighted[|sighted| - 1] == sighted[|sighted| - 2] == ObserveAll(h).value.contract
  {
    QuoteDescribesHistory(h);
    SinceSuffix(h);
  }

  // ---------- Answers that repeat ----------

  /** The same answer, whenever it was given. */
  predicate SameAnswer(a: Sighting, b: Sighting) {
    match a
    case Valid(c, _) => b.Valid? && b.contract == c
    case Unsupported => b.Unsupported?
    case Missing => b.Missing?
  }

  /** The last two sightings were this answer already. */
  predicate Repeats(h: seq<Sighting>, s: Sighting) {
    |h| >= 2 && SameAnswer(h[|h| - 1], s) && SameAnswer(h[|h| - 2], s)
  }

  /** What a run reads off a quote: the confirmed contract, and whether the model counts as missing. */
  function Standing(quote: Option<Quote>): (Column, bool) {
    (if Confirmed(quote) then quote.value.contract else map[], quote.Some? && quote.value.missing >= 2)
  }

  /** An answer given a third time in a row changes nothing a run reads off the quote. */
  lemma {:induction false} ThirdAnswerSettled(h: seq<Sighting>, s: Sighting)
    requires Repeats(h, s)
    ensures Standing(ObserveAll(h + [s])) == Standing(ObserveAll(h))
  {
    var k := |h| - 1;
    var older := ObserveAll(h[..k][..k - 1]);
    assert (h + [s])[..|h|] == h;
    assert ObserveAll(h) == Observe(Observe(older, h[k - 1]), h[k]);
  }

  /** Every new fetch tells of every model what the last two fetches of its source told. */
  ghost predicate AllRepeat(events: seq<Event>, more: seq<Event>, smoke: Smoke) {
    forall e, n | e in more :: RepeatsOf(events, e, n, smoke)
  }

  ghost predicate RepeatsOf(events: seq<Event>, e: Event, n: string, smoke: Smoke) {
    e.Event? && Repeats(History(events, Key(e.channelID, n), smoke), SightingOf(e.fetch, n, smoke, e.now))
  }

  lemma {:induction false} HistorySnoc(events: seq<Event>, e: Event, k: Key, smoke: Smoke)
    requires e.Event?
    ensures History(events + [e], k, smoke) ==
            History(events, k, smoke) + if e.channelID == k.channelID then [SightingOf(e.fetch, k.name, smoke, e.now)] else []
  {
    assert (events + [e])[..|events|] == events;
  }

  /** Fetches that repeat keep an answer repeated. */
  lemma {:induction false} RepeatsKept(events: seq<Event>, more: seq<Event>, smoke: Smoke, k: Key, s: Sighting)
    requires AllRepeat(events, more, smoke) && Repeats(History(events, k, smoke), s)
    ensures Repeats(History(events + more, k, smoke), s)
  {
    if more == [] {
      assert events + more == events;
    } else {
      var front, e := more[..|more| - 1], more[|more| - 1];
      assert e in more && RepeatsOf(events, e, k.name, smoke);
      assert forall x :: x in front ==> x in more;
      RepeatsKept(events, front, smoke, k, s);
      assert events + more == (events + front) + [e];
      HistorySnoc(events + front, e, k, smoke);
    }
  }

  /** After fetches that repeat, every quote stands where it stood. */
  lemma {:induction false} RepeatsSettled(events: seq<Event>, more: seq<Event>, smoke: Smoke, k: Key)
    requires AllRepeat(events, more, smoke)
    ensures Standing(ObserveAll(History(events + more, k, smoke))) == Standing(ObserveAll(History(events, k, smoke)))
  {
    if more == [] {
      assert events + more == events;
    } else {
      var front, e := more[..|more| - 1], more[|more| - 1];
      assert e in more && RepeatsOf(events, e, k.name, smoke);
      assert forall x :: x in front ==> x in more;
      RepeatsSettled(events, front, smoke, k);
      assert events + more == (events + front) + [e];
      HistorySnoc(events + front, e, k, smoke);
      if e.channelID == k.channelID {
        var s := SightingOf(e.fetch, k.name, smoke, e.now);
        RepeatsKept(events, front, smoke, k, s);
        ThirdAnswerSettled(History(events + front, k, smoke), s);
      } else {
        assert History(events + more, k, smoke) == History(events + front, k, smoke);
      }
    }
  }

  ghost predicate SameStanding(a: Table, b: Table) {
    forall k: Key :: Standing(At(a, k)) == Standing(At(b, k))
  }

  lemma {:induction false} TablesSettled(a: Table, events: seq<Event>, b: Table, more: seq<Event>, smoke: Smoke)
    requires Records(a, events, smoke) && Records(b, events + more, smoke) && AllRepeat(events, more, smoke)
    ensures SameStanding(a, b)
  {
    forall k: Key ensures Standing(At(a, k)) == Standing(At(b, k)) {
      RepeatsSettled(events, more, smoke, k);
    }
  }

  /** The snapshot depends on the standing of the quotes only. */
  lemma SameSnapshot(a: Table, b: Table, channelID: int)
    requires SameStanding(a, b)
    ensures Snapshot(a, channelID) == Snapshot(b, channelID)
  {
    forall n ensures ConfirmedContract(a, channelID, n) == ConfirmedContract(b, channelID, n) {
      assert Standing(At(a, Key(channelID, n))) == Standing(At(b, Key(channelID, n)));
    }
    forall f: Field ensures SnapshotField(a, channelID, f) == SnapshotField(b, channelID, f) {
      forall n ensures n in SnapshotField(a, channelID, f) <==> n in SnapshotField(b, channelID, f) {
      }
    }
  }
}
