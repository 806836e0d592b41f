/**
 The model states a sync run writes beside the prices: which sources a model's
 price came from, and whether those sources agree.
 */
module SyncStates {
  import opened Names
  import opened PricingData
  import opened PriceMerge
  import opened Patches
  import opened PatchBuilder
  import opened Quotes

  datatype Status = Ready | Conflict | Stale | Unavailable

  datatype Details = NoDetails | Disputed(ids: seq<int>) | Contracted(contracts: map<int, Column>)

  /** provenance is None when the stored text cannot be decoded. */
  datatype ModelState = ModelState(
    preference: Preference, provenance: Option<seq<int>>, status: Status, details: Details, lastAppliedAt: int)

  datatype Named = Named(name: string, state: ModelState)

  type States = map<string, ModelState>

  function Preferences(states: States): map<string, Preference> {
    map n | n in states :: states[n].preference
  }

  // ---------- Models whose source has dropped them ----------

  predicate MissingFrom(active: set<int>, table: Table, channelID: int, name: string) {
    var quote := At(table, Key(channelID, name));
    channelID in active && quote.Some? && quote.value.missing >= 2
  }

  predicate Lost(active: set<int>, table: Table, name: string, state: ModelState) {
    match state.preference.mode
    case Manual => false
    case Channel => MissingFrom(active, table, state.preference.channelID, name)
    case General => state.provenance.Some? && exists c :: c in state.provenance.value && MissingFrom(active, table, c, name)
  }

  /** pricingSyncMissingModels */
  function MissingModels(active: set<int>, table: Table, states: States): set<string> {
    set n | n in states && Lost(active, table, n, states[n])
  }

  // ---------- Models whose source is stale ----------

  predicate Relies(state: ModelState, stale: set<int>) {
    && state.preference.mode != Manual
    && ((state.preference.mode == Channel && state.preference.channelID in stale)
        || (state.provenance.Some? && exists c :: c in state.provenance.value && c in stale))
  }

  function MarkStale(states: States, stale: set<int>): States {
    map n | n in states :: if Relies(states[n], stale) then states[n].(status := Stale) else states[n]
  }

  /** Marking changes no pin and no provenance, so a run proposes the same with or without it. */
  lemma MarkStaleKeeps(active: set<int>, table: Table, states: States, stale: set<int>)
    ensures Preferences(MarkStale(states, stale)) == Preferences(states)
    ensures MissingModels(active, table, MarkStale(states, stale)) == MissingModels(active, table, states)
  {
    var marked := MarkStale(states, stale);
    forall n | n in states ensures Lost(active, table, n, marked[n]) == Lost(active, table, n, states[n]) {
      assert marked[n].preference == states[n].preference && marked[n].provenance == states[n].provenance;
    }
    assert forall n :: n in MissingModels(active, table, marked) <==> n in MissingModels(active, table, states);
  }

  /** MarkPricingSyncSourcesStale: the names are collected first, then updated in one statement. */
  method MarkSourcesStale(states: States, stale: set<int>) returns (r: States)
    ensures r == MarkStale(states, stale)
  {
    var all := Keys(states.Keys);
    assert forall n :: n in all <==> n in Elems(all);
    var names: set<string> := {};
    for i := 0 to |all|
      invariant forall n :: n in names <==> n in all[..i] && Relies(states[n], stale)
    {
      assert all[..i + 1] == all[..i] + [all[i]];
      assert all[i] in Elems(all);
      if Relies(states[all[i]], stale) { names := names + {all[i]}; }
    }
    assert all[..|all|] == all;
    r := map n | n in states :: if n in names then states[n].(status := Stale) else states[n];
  }

  // ---------- Removing lost models ----------

  /** removeUnavailablePricingSyncModels, visiting the lost models in the given order */
  function RemoveAll(patches: map<Field, Patch>, order: seq<string>): map<Field, Patch> {
    if order == [] then patches
    else map f: Field | true :: Patch(PatchAt(patches, f).sets - Gone(order), PatchAt(patches, f).deletes + order)
  }

  function Gone(order: seq<string>): set<string> {
    set n | n in order
  }

  /** Lost models are deleted in every option, whatever the builder wanted; the others keep their edits. */
  lemma RemoveAllEdits(patches: map<Field, Patch>, order: seq<string>, name: string, f: Field)
    ensures EditIn(RemoveAll(patches, order), name, f) == if name in order then Drop else EditIn(patches, name, f)
  {
  }

  method RemoveUnavailable(patches: map<Field, Patch>, unavailable: set<string>)
    returns (r: map<Field, Patch>, order: seq<string>)
    ensures Elems(order) == unavailable && Distinct(order)
    ensures r == RemoveAll(patches, order)
  {
    order := Keys(unavailable);
    r := patches;
    for i := 0 to |order|
      invariant r == RemoveAll(patches, order[..i])
    {
      assert order[..i + 1] == order[..i] + [order[i]];
      RemoveSnoc(patches, order[..i], order[i]);
      r := RemoveModel(r, order[i]);
    }
    assert order[..|order|] == order;
  }

  function Removed(patches: map<Field, Patch>, name: string): map<Field, Patch> {
    map f: Field | true :: RemovedAt(patches, name, f)
  }

  function RemovedAt(patches: map<Field, Patch>, name: string, f: Field): Patch {
    Patch(PatchAt(patches, f).sets - {name}, PatchAt(patches, f).deletes + [name])
  }

  /** One model leaves every option. */
  method RemoveModel(patches: map<Field, Patch>, name: string) returns (r: map<Field, Patch>)
    ensures r == Removed(patches, name)
  {
    r := patches;
    for j := 0 to |FIELDS|
      invariant forall f :: f in FIELDS[..j] ==> f in r && r[f] == RemovedAt(patches, name, f)
      invariant forall f :: f !in FIELDS[..j] ==> (f in r <==> f in patches) && (f in r ==> r[f] == patches[f])
    {
      assert FIELDS[..j + 1] == FIELDS[..j] + [FIELDS[j]];
      FieldsDistinct(j);
      var patch := PatchAt(r, FIELDS[j]);
      r := r[FIELDS[j] := Patch(patch.sets - {name}, patch.deletes + [name])];
    }
    assert FIELDS[..|FIELDS|] == FIELDS;
    forall f: Field ensures f in r && r[f] == RemovedAt(patches, name, f) {
      FieldsComplete(f);
    }
  }

  lemma FieldsDistinct(j: nat)
    requires j < |FIELDS|
    ensures FIELDS[j] !in FIELDS[..j]
  {
    assert FIELDS == [ModelRatio, CompletionRatio, CacheRatio, CreateCacheRatio, ImageRatio, AudioRatio,
                      AudioCompletionRatio, ModelPrice, BillingMode, BillingExpr];
  }

  lemma RemoveSnoc(patches: map<Field, Patch>, order: seq<string>, name: string)
    ensures RemoveAll(patches, order + [name]) == Removed(RemoveAll(patches, order), name)
  {
    var more := order + [name];
    assert Gone(more) == Gone(order) + {name};
    forall f: Field ensures RemoveAll(patches, more)[f] == RemovedAt(RemoveAll(patches, order), name, f) {
      assert order == [] ==> Gone(order) == {} && more == [name];
      assert PatchAt(patches, f).deletes + more == (PatchAt(patches, f).deletes + order) + [name];
      assert PatchAt(patches, f).sets - Gone(more) == (PatchAt(patches, f).sets - Gone(order)) - {name};
    }
  }

  // ---------- The sources behind one model ----------

  datatype Quoting = Quoting(id: int, contract: Column)

  predicate Counts(preference: Preference, id: int, c: Column) {
    CategoryOf(c) != NoCategory && (preference.mode == Channel ==> id == preference.channelID)
  }

  /** The considered sources that expose a model, with their contracts. */
  function QuotingSources(ids: seq<int>, columns: seq<Column>, preference: Preference): seq<Quoting> {
    if ids == [] || columns == [] then []
    else
      (if Counts(preference, ids[0], columns[0]) then [Quoting(ids[0], columns[0])] else []) +
      QuotingSources(ids[1..], columns[1..], preference)
  }

  function IdsOf(quoting: seq<Quoting>): seq<int> {
    Map(quoting, (q: Quoting) => q.id)
  }

  function ContractsOf(quoting: seq<Quoting>): seq<Column> {
    Map(quoting, (q: Quoting) => q.contract)
  }

  function Signatures(quoting: seq<Quoting>): set<Column> {
    set q | q in quoting :: q.contract
  }

  function Categories(quoting: seq<Quoting>): set<Category> {
    set q | q in quoting :: CategoryOf(q.contract)
  }

  /** The mode a written state carries: a channel pin is kept, everything else is general. */
  function Kept(previous: Option<Preference>): Preference {
    if previous.None? then Preference(General, 0)
    else if previous.value.mode == Channel then previous.value
    else Preference(General, previous.value.channelID)
  }

  /** The states' view of the exposing sources is the builder's. */
  lemma QuotingExposes(ids: seq<int>, columns: seq<Column>, previous: Option<Preference>)
    requires |ids| == |columns|
    requires previous.Some? ==> previous.value.mode != Manual
    ensures ContractsOf(QuotingSources(ids, columns, Kept(previous))) == Exposing(Considered(ids, columns, previous))
  {
    if Kept(previous).mode == Channel {
      QuotingPinned(ids, columns, Kept(previous));
    } else {
      QuotingGeneral(ids, columns, Kept(previous));
    }
  }

  lemma {:induction false} QuotingGeneral(ids: seq<int>, columns: seq<Column>, preference: Preference)
    requires |ids| == |columns| && preference.mode != Channel
    ensures ContractsOf(QuotingSources(ids, columns, preference)) == Exposing(columns)
  {
    if ids != [] {
      QuotingGeneral(ids[1..], columns[1..], preference);
    }
  }

  lemma {:induction false} QuotingPinned(ids: seq<int>, columns: seq<Column>, preference: Preference)
    requires |ids| == |columns| && preference.mode == Channel
    ensures ContractsOf(QuotingSources(ids, columns, preference)) == Exposing(PickBySource(ids, columns, preference.channelID))
  {
    if ids != [] {
      QuotingPinned(ids[1..], columns[1..], preference);
      var head := if ids[0] == preference.channelID then [columns[0]] else [];
      FilterAppend(head, PickBySource(ids[1..], columns[1..], preference.channelID), (c: Column) => CategoryOf(c) != NoCategory);
    }
  }

  // ---------- Applied states ----------

  datatype Context = Context(inp: Inputs, unavailable: set<string>, stale: set<int>, now: int)

  function QuotingFor(ctx: Context, name: string): seq<Quoting> {
    QuotingSources(ctx.inp.ids, ColumnsOf(ctx.inp.upstreams, name), Kept(PreferenceOf(ctx.inp, name)))
  }

  predicate AnyStale(quoting: seq<Quoting>, stale: set<int>) {
    exists q :: q in quoting && q.id in stale
  }

  function AppliedState(ctx: Context, name: string): ModelState {
    var quoting := QuotingFor(ctx, name);
    var ids := Uniq(IdsOf(quoting));
    var status :=
      if name in ctx.unavailable then Unavailable
      else if AnyStale(quoting, ctx.stale) then Stale
      else if |Signatures(quoting)| > 1 then Conflict
      else Ready;
    ModelState(Kept(PreferenceOf(ctx.inp, name)), Some(ids), status, if status == Conflict then Disputed(ids) else NoDetails, ctx.now)
  }

  predicate Exposed(upstreams: seq<SyncData>, name: string) {
    exists u :: u in upstreams && CategoryOf(ColumnOf(u, name)) != NoCategory
  }

  function PatchedModels(patches: map<Field, Patch>): set<string> {
    (set f, n | f in patches && n in patches[f].sets :: n) + (set f, n | f in patches && n in patches[f].deletes :: n)
  }

  predicate ManualIn(preferences: map<string, Preference>, name: string) {
    name in preferences && preferences[name].mode == Manual
  }

  function AppliedNames(ctx: Context, patches: map<Field, Patch>): set<string> {
    PatchedModels(patches) +
    set n | n in ctx.inp.preferences && !ManualIn(ctx.inp.preferences, n) && Exposed(ctx.inp.upstreams, n)
  }

  // ---------- Incompatible states ----------

  function DetailsOf(quoting: seq<Quoting>): map<int, Column> {
    if quoting == [] then map[]
    else
      var last := quoting[|quoting| - 1];
      DetailsOf(quoting[..|quoting| - 1])[last.id := last.contract]
  }

  predicate Incompatible(quoting: seq<Quoting>, strategy: Strategy) {
    quoting != [] &&
    var category := CategoryOf(quoting[0].contract);
    if |Categories(quoting)| != 1 then true
    else if category == Tiered then |DetailsOf(quoting).Values| > 1
    else Resolve(ContractsOf(quoting), category, strategy).None?
  }

  function IncompatibleState(ctx: Context, name: string): Option<ModelState> {
    var quoting := QuotingFor(ctx, name);
    if ManualIn(ctx.inp.preferences, name) || !Incompatible(quoting, ctx.inp.strategy) then None
    else Some(ModelState(
      Kept(PreferenceOf(ctx.inp, name)), Some(Uniq(IdsOf(quoting))),
      if AnyStale(quoting, ctx.stale) then Stale else Conflict, Contracted(DetailsOf(quoting)), ctx.now))
  }

  /** The state the run writes for a model, if any: an incompatibility replaces the applied state. */
  function FinalState(ctx: Context, patches: map<Field, Patch>, name: string): Option<ModelState> {
    var bad := IncompatibleState(ctx, name);
    if name in AllModels(ctx.inp.upstreams) && bad.Some? then bad
    else if name in AppliedNames(ctx, patches) then Some(AppliedState(ctx, name))
    else None
  }

  // ---------- No silent conflict ----------

  lemma SingletonSize<T>(s: set<T>, x: T)
    requires x in s
    ensures |s| == 1 <==> forall y :: y in s ==> y == x
  {
    assert |s| == |s - {x}| + 1;
    if forall y :: y in s ==> y == x {
      assert s == {x};
    } else {
      var y :| y in s && y != x;
      assert y in s - {x};
    }
  }

  lemma CategoriesAgree(quoting: seq<Quoting>)
    requires quoting != []
    ensures |Categories(quoting)| == 1 <==> SameCategory(ContractsOf(quoting))
  {
    var contracts := ContractsOf(quoting);
    assert quoting[0] in quoting;
    SingletonSize(Categories(quoting), CategoryOf(quoting[0].contract));
    forall c | c in contracts ensures CategoryOf(c) in Categories(quoting) {
      var i :| 0 <= i < |contracts| && contracts[i] == c;
      assert quoting[i] in quoting;
    }
    forall q | q in quoting ensures q.contract in contracts {
      var i :| 0 <= i < |quoting| && quoting[i] == q;
      assert contracts[i] == q.contract;
    }
  }

  lemma DetailsValues(quoting: seq<Quoting>)
    requires Distinct(IdsOf(quoting))
    ensures forall q :: q in quoting ==> q.id in DetailsOf(quoting) && DetailsOf(quoting)[q.id] == q.contract
    ensures forall id :: id in DetailsOf(quoting) ==> id in IdsOf(quoting)
    ensures DetailsOf(quoting).Values == Signatures(quoting)
  {
    DetailsKeys(quoting);
    DetailsSignatures(quoting);
    forall q | q in quoting ensures q.id in DetailsOf(quoting) && DetailsOf(quoting)[q.id] == q.contract {
      var i :| 0 <= i < |quoting| && quoting[i] == q;
      DetailsAt(quoting, i);
    }
  }

  lemma {:induction false} DetailsKeys(quoting: seq<Quoting>)
    ensures forall id :: id in DetailsOf(quoting) ==> id in IdsOf(quoting)
  {
    if quoting != [] {
      var n := |quoting| - 1;
      assert IdsOf(quoting[..n]) == IdsOf(quoting)[..n] && IdsOf(quoting)[n] == quoting[n].id;
      DetailsKeys(quoting[..n]);
    }
  }

  lemma {:induction false} DetailsAt(quoting: seq<Quoting>, i: nat)
    requires Distinct(IdsOf(quoting)) && i < |quoting|
    ensures quoting[i].id in DetailsOf(quoting) && DetailsOf(quoting)[quoting[i].id] == quoting[i].contract
  {
    var n := |quoting| - 1;
    if i < n {
      assert IdsOf(quoting[..n]) == IdsOf(quoting)[..n];
      assert IdsOf(quoting)[i] == quoting[i].id && IdsOf(quoting)[n] == quoting[n].id;
      DetailsAt(quoting[..n], i);
    }
  }

  lemma {:induction false} DetailsSignatures(quoting: seq<Quoting>)
    requires Distinct(IdsOf(quoting))
    ensures DetailsOf(quoting).Values == Signatures(quoting)
  {
    if quoting != [] {
      var n := |quoting| - 1;
      var front, last := quoting[..n], quoting[n];
      assert IdsOf(front) == IdsOf(quoting)[..n] && IdsOf(quoting)[n] == last.id;
      DetailsSignatures(front);
      DetailsKeys(front);
      ValuesExtend(DetailsOf(front), last.id, last.contract);
      assert quoting == front + [last];
      SignaturesSnoc(front, last);
    }
  }

  lemma SignaturesSnoc(front: seq<Quoting>, last: Quoting)
    ensures Signatures(front + [last]) == Signatures(front) + {last.contract}
  {
    assert last in front + [last];
  }

  lemma {:induction false} QuotingIds(ids: seq<int>, columns: seq<Column>, preference: Preference)
    requires Distinct(ids)
    ensures forall q :: q in QuotingSources(ids, columns, preference) ==> q.id in ids
    ensures Distinct(IdsOf(QuotingSources(ids, columns, preference)))
  {
    if ids != [] && columns != [] {
      QuotingIds(ids[1..], columns[1..], preference);
      var rest := QuotingSources(ids[1..], columns[1..], preference);
      forall i | 0 <= i < |rest| ensures rest[i].id != ids[0] {
        assert rest[i] in rest;
      }
    }
  }

  /** Identical contracts never clash. */
  lemma IdenticalMerge(exposing: seq<Column>)
    requires exposing != [] && forall c :: c in exposing ==> c == exposing[0]
    ensures MergeTiered(exposing) == Some(exposing[0])
  {
    forall f: Field ensures MergeField(exposing, f) == if f in exposing[0] then Agreed(exposing[0][f]) else Absent {
      DeclaredCount(exposing, f);
      assert exposing[0] in exposing;
      var values := Declared(exposing, f);
      if f in exposing[0] {
        forall i | 0 <= i < |values| ensures values[i] == exposing[0][f] {
          assert exposing[i] in exposing;
        }
      }
    }
    assert forall f: Field :: !MergeField(exposing, f).Clash?;
    assert MergeTiered(exposing).value == exposing[0];
  }

  ghost predicate AllIdentical(exposing: seq<Column>) {
    exposing != [] ==> forall c :: c in exposing ==> c == exposing[0]
  }

  /**
   Exactly which models get an incompatible state: those with an exposing
   source that the builder skipped, and tiered ones whose contracts the builder
   merged although they differ within the tolerance.
   */
  lemma IncompatibleExactly(ctx: Context, name: string)
    requires |ctx.inp.ids| == |ctx.inp.upstreams| && Distinct(ctx.inp.ids)
    requires !ManualIn(ctx.inp.preferences, name)
    ensures var exposing := Exposing(Considered(ctx.inp.ids, ColumnsOf(ctx.inp.upstreams, name), PreferenceOf(ctx.inp, name)));
            IncompatibleState(ctx, name).Some? <==>
            exposing != [] &&
            (PlanOf(ctx.inp, name).None? || (CategoryOf(exposing[0]) == Tiered && !AllIdentical(exposing)))
  {
    var columns, previous := ColumnsOf(ctx.inp.upstreams, name), PreferenceOf(ctx.inp, name);
    var exposing := Exposing(Considered(ctx.inp.ids, columns, previous));
    var quoting := QuotingFor(ctx, name);
    QuotingExposes(ctx.inp.ids, columns, previous);
    assert ContractsOf(quoting) == exposing;
    if quoting != [] {
      CategoriesAgree(quoting);
      assert exposing[0] == quoting[0].contract && exposing[0] in exposing;
      QuotingIds(ctx.inp.ids, columns, Kept(previous));
      IncompatibleTarget(quoting, ctx.inp.strategy);
    }
  }

  /** Two tiered contracts that agree within the tolerance without being identical are planned, and flagged all the same. */
  lemma NearTieredFlagged(ctx: Context, name: string, c: Column, d: Column)
    requires |ctx.inp.ids| == |ctx.inp.upstreams| && Distinct(ctx.inp.ids)
    requires ColumnsOf(ctx.inp.upstreams, name) == [c, d] && name !in ctx.inp.preferences
    requires CategoryOf(c) == CategoryOf(d) == Tiered && c != d
    requires c.Keys == d.Keys && forall f :: f in c ==> ValuesEqual(c[f], d[f])
    ensures PlanOf(ctx.inp, name).Some? && IncompatibleState(ctx, name).Some?
  {
    FilterAll([c, d], (x: Column) => CategoryOf(x) != NoCategory);
    NearTieredMerge(c, d);
    IncompatibleExactly(ctx, name);
    assert c in [c, d] && d in [c, d];
  }

  lemma NearTieredMerge(c: Column, d: Column)
    requires c.Keys == d.Keys && forall f :: f in c ==> ValuesEqual(c[f], d[f])
    ensures MergeTiered([c, d]).Some?
  {
    var columns := [c, d];
    forall f: Field ensures !MergeField(columns, f).Clash? {
      DeclaredCount(columns, f);
      assert c in columns && d in columns;
      if f in c { assert Declared(columns, f)[0] == c[f] && Declared(columns, f)[1] == d[f]; }
    }
  }

  /** Such a pair exists: the same expression, with ratios half a tolerance apart. */
  lemma NearTieredExample(name: string) returns (ctx: Context)
    ensures PlanOf(ctx.inp, name).Some? && IncompatibleState(ctx, name).Some?
  {
    var c, d := NearPair();
    ctx := PairContext(name, c, d);
    NearTieredFlagged(ctx, name, c, d);
  }

  lemma PairContext(name: string, c: Column, d: Column) returns (ctx: Context)
    ensures |ctx.inp.ids| == |ctx.inp.upstreams| && Distinct(ctx.inp.ids)
    ensures ColumnsOf(ctx.inp.upstreams, name) == [c, d] && name !in ctx.inp.preferences
  {
    PairColumns(name, c, d);
    ctx := Context(Inputs(map[], [OneModel(name, c), OneModel(name, d)], [1, 2], map[], Highest), {}, {}, 0);
  }

  lemma NearPair() returns (c: Column, d: Column)
    ensures CategoryOf(c) == CategoryOf(d) == Tiered && c != d
    ensures c.Keys == d.Keys && forall f :: f in c ==> ValuesEqual(c[f], d[f])
  {
    c := map[BillingMode := Str(TIERED_EXPR), BillingExpr := Str("p"), ModelRatio := Num(1.0)];
    d := c[ModelRatio := Num(1.0 + EPSILON / 2.0)];
    assert c[ModelRatio] != d[ModelRatio];
  }

  lemma PairColumns(name: string, c: Column, d: Column)
    ensures ColumnsOf([OneModel(name, c), OneModel(name, d)], name) == [c, d]
  {
    assert ColumnOf(OneModel(name, c), name) == c && ColumnOf(OneModel(name, d), name) == d;
  }

  function OneModel(name: string, c: Column): SyncData {
    map f | f in c :: map[name := c[f]]
  }

  lemma IncompatibleTarget(quoting: seq<Quoting>, strategy: Strategy)
    requires quoting != [] && Distinct(IdsOf(quoting))
    requires forall c :: c in ContractsOf(quoting) ==> CategoryOf(c) != NoCategory
    ensures var exposing := ContractsOf(quoting);
            Incompatible(quoting, strategy) <==>
            Target(exposing, strategy).None? || (CategoryOf(exposing[0]) == Tiered && !AllIdentical(exposing))
  {
    var exposing := ContractsOf(quoting);
    assert exposing[0] == quoting[0].contract && exposing[0] in exposing;
    CategoriesAgree(quoting);
    if CategoryOf(exposing[0]) == Tiered {
      DetailsValues(quoting);
      SignaturesIdentical(quoting);
      if AllIdentical(exposing) { IdenticalMerge(exposing); }
    }
  }

  lemma SignaturesIdentical(quoting: seq<Quoting>)
    requires quoting != []
    ensures |Signatures(quoting)| >= 1
    ensures |Signatures(quoting)| == 1 <==> AllIdentical(ContractsOf(quoting))
  {
    var contracts := ContractsOf(quoting);
    assert quoting[0] in quoting;
    SingletonSize(Signatures(quoting), quoting[0].contract);
    assert |Signatures(quoting)| == |Signatures(quoting) - {quoting[0].contract}| + 1;
    forall c ensures c in contracts <==> c in Signatures(quoting) {
      if c in contracts {
        var i :| 0 <= i < |contracts| && contracts[i] == c;
        assert quoting[i] in quoting;
      }
      if c in Signatures(quoting) {
        var q :| q in quoting && q.contract == c;
        var i :| 0 <= i < |quoting| && quoting[i] == q;
        assert contracts[i] == c;
      }
    }
  }

  /** A model that is not manual was skipped although a considered source exposes it. */
  ghost predicate Contested(ctx: Context, name: string) {
    && !ManualIn(ctx.inp.preferences, name) && name in Build(ctx.inp).skipped
    && Exposing(Considered(ctx.inp.ids, ColumnsOf(ctx.inp.upstreams, name), PreferenceOf(ctx.inp, name))) != []
  }

  /** The state to be written for such a model is Conflict or Stale. */
  lemma ContestedState(ctx: Context, patches: map<Field, Patch>, name: string)
    requires |ctx.inp.ids| == |ctx.inp.upstreams| && Distinct(ctx.inp.ids) && Contested(ctx, name)
    ensures FinalState(ctx, patches, name).Some?
    ensures FinalState(ctx, patches, name).value.status in {Conflict, Stale}
  {
    BuildSkips(ctx.inp, name);
    IncompatibleExactly(ctx, name);
  }

  /** The update a run proposes: the builder's patch with the lost models deleted everywhere. */
  ghost predicate Proposes(ctx: Context, patches: map<Field, Patch>) {
    && (forall n :: n in ctx.unavailable ==> !ManualIn(ctx.inp.preferences, n))
    && exists order :: Elems(order) == ctx.unavailable && patches == RemoveAll(Build(ctx.inp).patches, order)
  }

  /** A manual model gets neither a patch nor a state. */
  lemma ManualUntouched(ctx: Context, patches: map<Field, Patch>, name: string)
    requires Proposes(ctx, patches) && ManualIn(ctx.inp.preferences, name)
    ensures forall f :: EditIn(patches, name, f) == Keep
    ensures name !in PatchedModels(patches)
    ensures FinalState(ctx, patches, name) == None
  {
    var order :| Elems(order) == ctx.unavailable && patches == RemoveAll(Build(ctx.inp).patches, order);
    assert name !in Elems(order);
    forall f: Field ensures EditIn(patches, name, f) == Keep {
      RemoveAllEdits(Build(ctx.inp).patches, order, name, f);
      BuildEdits(ctx.inp, name, f);
      assert PlanOf(ctx.inp, name).None?;
    }
    PatchedEdits(patches, name);
  }

  lemma PatchedEdits(patches: map<Field, Patch>, name: string)
    ensures name in PatchedModels(patches) <==> exists f: Field :: EditIn(patches, name, f) != Keep
  {
    if name in PatchedModels(patches) {
      var f :| f in patches && (name in patches[f].sets || name in patches[f].deletes);
      assert EditIn(patches, name, f) != Keep;
    }
  }

  /** A written state carries the model's own preference; a model without one becomes general. */
  lemma PreferenceWritten(ctx: Context, patches: map<Field, Patch>, name: string)
    requires Proposes(ctx, patches) && FinalState(ctx, patches, name).Some?
    ensures var written := FinalState(ctx, patches, name).value.preference;
            if name in ctx.inp.preferences then written == ctx.inp.preferences[name] else written.mode == General
  {
    if ManualIn(ctx.inp.preferences, name) { ManualUntouched(ctx, patches, name); }
  }

  // ---------- The loops ----------

  ghost function ListedNames(list: seq<Named>): set<string> {
    set s | s in list :: s.name
  }

  /** The list holds one entry for each model that should have a state, and no others. */
  ghost predicate Lists(list: seq<Named>, want: string -> Option<ModelState>) {
    && (forall i, j :: 0 <= i < j < |list| ==> list[i].name != list[j].name)
    && (forall s :: s in list ==> want(s.name) == Some(s.state))
    && (forall n :: want(n).Some? ==> n in ListedNames(list))
  }

  lemma NothingWritten(list: seq<Named>, ctx: Context, patches: map<Field, Patch>)
    requires Lists(list, n => FinalState(ctx, patches, n))
    ensures list == [] <==> forall n :: FinalState(ctx, patches, n).None?
  {
    var want := n => FinalState(ctx, patches, n);
    assert forall n :: want(n) == FinalState(ctx, patches, n);
    if list == [] {
      assert ListedNames(list) == {};
    } else {
      assert list[0] in list && want(list[0].name).Some?;
    }
  }

  lemma QuotingFrom(ids: seq<int>, columns: seq<Column>, preference: Preference, i: nat)
    requires |ids| == |columns| && i < |ids|
    ensures var rest := QuotingSources(ids[i + 1..], columns[i + 1..], preference);
            QuotingSources(ids[i..], columns[i..], preference) ==
            if Counts(preference, ids[i], columns[i]) then [Quoting(ids[i], columns[i])] + rest else rest
  {
    assert ids[i..][1..] == ids[i + 1..] && columns[i..][1..] == columns[i + 1..];
  }

  method CollectQuoting(ids: seq<int>, columns: seq<Column>, preference: Preference) returns (r: seq<Quoting>)
    requires |ids| == |columns|
    ensures r == QuotingSources(ids, columns, preference)
  {
    r := [];
    for index := 0 to |columns|
      invariant r + QuotingSources(ids[index..], columns[index..], preference) == QuotingSources(ids, columns, preference)
    {
      QuotingFrom(ids, columns, preference, index);
      if Counts(preference, ids[index], columns[index]) {
        ConcatAssoc(r, [Quoting(ids[index], columns[index])], QuotingSources(ids[index + 1..], columns[index + 1..], preference));
        r := r + [Quoting(ids[index], columns[index])];
      }
    }
  }

  /** pricingSyncAppliedStates */
  method AppliedStates(ctx: Context, patches: map<Field, Patch>) returns (list: seq<Named>)
    requires |ctx.inp.ids| == |ctx.inp.upstreams|
    ensures Lists(list, n => if n in AppliedNames(ctx, patches) then Some(AppliedState(ctx, n)) else None)
  {
    var names := Keys(AppliedNames(ctx, patches));
    assert forall n :: n in names <==> n in Elems(names);
    list := [];
    for i := 0 to |names|
      invariant |list| == i
      invariant forall k :: 0 <= k < i ==> list[k] == Named(names[k], AppliedState(ctx, names[k]))
    {
      var preference := Kept(PreferenceOf(ctx.inp, names[i]));
      var quoting := CollectQuoting(ctx.inp.ids, ColumnsOf(ctx.inp.upstreams, names[i]), preference);
      var ids := Uniq(IdsOf(quoting));
      var status, details := Ready, NoDetails;
      if names[i] in ctx.unavailable {
        status := Unavailable;
      } else if AnyStale(quoting, ctx.stale) {
        status := Stale;
      } else if |Signatures(quoting)| > 1 {
        status, details := Conflict, Disputed(ids);
      }
      list := list + [Named(names[i], ModelState(preference, Some(ids), status, details, ctx.now))];
    }
    forall n | n in AppliedNames(ctx, patches) ensures n in ListedNames(list) {
      var i :| 0 <= i < |names| && names[i] == n;
      assert list[i] in list;
    }
    forall s | s in list ensures s.name in AppliedNames(ctx, patches) && s.state == AppliedState(ctx, s.name) {
      var i :| 0 <= i < |list| && list[i] == s;
      assert names[i] in names;
    }
  }

  /** The list so far: one entry for each of these models that should have a state. */
  ghost predicate ListsOver(list: seq<Named>, names: seq<string>, want: string -> Option<ModelState>) {
    && (forall i, j :: 0 <= i < j < |list| ==> list[i].name != list[j].name)
    && (forall s :: s in list ==> s.name in names && want(s.name) == Some(s.state))
    && (forall n :: n in names && want(n).Some? ==> n in ListedNames(list))
  }

  lemma ListsSnoc(list: seq<Named>, names: seq<string>, name: string, want: string -> Option<ModelState>)
    requires ListsOver(list, names, want) && name !in names
    ensures want(name).None? ==> ListsOver(list, names + [name], want)
    ensures want(name).Some? ==> ListsOver(list + [Named(name, want(name).value)], names + [name], want)
  {
    if want(name).Some? {
      var entry := Named(name, want(name).value);
      assert ListedNames(list + [entry]) == ListedNames(list) + {name};
    }
  }

  /** pricingSyncIncompatibleStates */
  method IncompatibleStates(ctx: Context) returns (list: seq<Named>)
    requires |ctx.inp.ids| == |ctx.inp.upstreams|
    ensures Lists(list, n => if n in AllModels(ctx.inp.upstreams) then IncompatibleState(ctx, n) else None)
  {
    var all := CollectModels(ctx.inp.upstreams);
    var names := Keys(all);
    assert forall n :: n in names <==> n in Elems(names);
    ghost var want := n => IncompatibleState(ctx, n);
    list := [];
    for i := 0 to |names|
      invariant ListsOver(list, names[..i], want)
    {
      assert names[..i + 1] == names[..i] + [names[i]] && names[i] !in names[..i];
      ListsSnoc(list, names[..i], names[i], want);
      var state := IncompatibleOne(ctx, names[i]);
      if state.Some? { list := list + [Named(names[i], state.value)]; }
    }
    assert names[..|names|] == names;
  }

  method IncompatibleOne(ctx: Context, name: string) returns (state: Option<ModelState>)
    requires |ctx.inp.ids| == |ctx.inp.upstreams|
    ensures state == IncompatibleState(ctx, name)
  {
    if ManualIn(ctx.inp.preferences, name) { return None; }
    var preference := Kept(PreferenceOf(ctx.inp, name));
    var quoting := CollectQuoting(ctx.inp.ids, ColumnsOf(ctx.inp.upstreams, name), preference);
    var incompatible, details := CheckIncompatible(quoting, ctx.inp.strategy);
    if !incompatible { return None; }
    var status := if AnyStale(quoting, ctx.stale) then Stale else Conflict;
    state := Some(ModelState(preference, Some(Uniq(IdsOf(quoting))), status, Contracted(details), ctx.now));
  }

  method CheckIncompatible(quoting: seq<Quoting>, strategy: Strategy) returns (r: bool, details: map<int, Column>)
    ensures r <==> Incompatible(quoting, strategy)
    ensures details == DetailsOf(quoting)
  {
    var categories;
    categories, details := CollectDetails(quoting);
    if quoting == [] { return false, details; }
    if |categories| != 1 { return true, details; }
    var category := CategoryOf(quoting[0].contract);
    if category == Tiered {
      var signatures := CollectSignatures(details);
      return |signatures| > 1, details;
    }
    var lanes := ResolveComparable(ContractsOf(quoting), category, strategy);
    r := lanes.None?;
  }

  /** The categories met, and the last contract of each source. */
  method CollectDetails(quoting: seq<Quoting>) returns (categories: set<Category>, details: map<int, Column>)
    ensures categories == Categories(quoting) && details == DetailsOf(quoting)
  {
    categories, details := {}, map[];
    for i := 0 to |quoting|
      invariant categories == Categories(quoting[..i]) && details == DetailsOf(quoting[..i])
    {
      assert quoting[..i + 1] == quoting[..i] + [quoting[i]] && quoting[..i + 1][..i] == quoting[..i];
      CategoriesSnoc(quoting[..i], quoting[i]);
      categories := categories + {CategoryOf(quoting[i].contract)};
      details := details[quoting[i].id := quoting[i].contract];
    }
    assert quoting[..|quoting|] == quoting;
  }

  lemma CategoriesSnoc(quoting: seq<Quoting>, q: Quoting)
    ensures Categories(quoting + [q]) == Categories(quoting) + {CategoryOf(q.contract)}
  {
    assert q in quoting + [q];
  }

  /** The different contracts among the details. */
  method CollectSignatures(details: map<int, Column>) returns (signatures: set<Column>)
    ensures signatures == details.Values
  {
    signatures := {};
    var ids := Keys(details.Keys);
    for i := 0 to |ids|
      invariant signatures == ValuesAt(ids[..i], details)
    {
      assert ids[i] in Elems(ids);
      assert ids[..i + 1] == ids[..i] + [ids[i]];
      ValuesAtSnoc(ids[..i], ids[i], details);
      signatures := signatures + {details[ids[i]]};
    }
    assert ids[..|ids|] == ids;
    ValuesAtAll(ids, details);
  }

  /** Replaces the entry of the same model, or appends. */
  method Overwrite(list: seq<Named>, entry: Named, ghost want: string -> Option<ModelState>) returns (r: seq<Named>)
    requires Lists(list, want)
    ensures Lists(r, n => if n == entry.name then Some(entry.state) else want(n))
  {
    for index := 0 to |list|
      invariant forall k :: 0 <= k < index ==> list[k].name != entry.name
    {
      if list[index].name == entry.name {
        r := list[index := entry];
        forall s | s in r && s != entry ensures s in list && s.name != entry.name {
          var k :| 0 <= k < |r| && r[k] == s;
          assert r[k] == list[k];
        }
        forall n | want(n).Some? || n == entry.name ensures n in ListedNames(r) {
          if n == entry.name {
            assert r[index] in r;
          } else {
            var s :| s in list && s.name == n;
            var k :| 0 <= k < |list| && list[k] == s;
            assert r[k] == s && r[k] in r;
          }
        }
        return;
      }
    }
    r := list + [entry];
    assert ListedNames(r) == ListedNames(list) + {entry.name};
    assert forall s :: s in list ==> s.name != entry.name;
  }

  method OverwriteAll(list: seq<Named>, entries: seq<Named>, ghost want: string -> Option<ModelState>, ghost over: string -> Option<ModelState>)
    returns (r: seq<Named>)
    requires Lists(list, want) && Lists(entries, over)
    ensures Lists(r, n => if over(n).Some? then over(n) else want(n))
  {
    r := list;
    ghost var done := want;
    for i := 0 to |entries|
      invariant Lists(r, done)
      invariant forall n :: done(n) == if n in ListedNames(entries[..i]) then over(n) else want(n)
    {
      assert entries[..i + 1] == entries[..i] + [entries[i]];
      assert ListedNames(entries[..i + 1]) == ListedNames(entries[..i]) + {entries[i].name};
      r := Overwrite(r, entries[i], done);
      ghost var before := done;
      done := n => if n == entries[i].name then Some(entries[i].state) else before(n);
    }
    assert entries[..|entries|] == entries;
  }

  /** The states one run writes: at most one per model. */
  method WriteStates(ctx: Context, patches: map<Field, Patch>) returns (list: seq<Named>)
    requires |ctx.inp.ids| == |ctx.inp.upstreams|
    ensures Lists(list, n => FinalState(ctx, patches, n))
  {
    var applied := AppliedStates(ctx, patches);
    var bad := IncompatibleStates(ctx);
    list := OverwriteAll(applied, bad,
      n => if n in AppliedNames(ctx, patches) then Some(AppliedState(ctx, n)) else None,
      n => if n in AllModels(ctx.inp.upstreams) then IncompatibleState(ctx, n) else None);
  }
}
