/**
 The patch builder of the scheduled price sync: what each model's price should
 become given the sources that expose it, and the set/delete patch that turns
 the local tables into that.
 */
module PatchBuilder {
  import opened Names
  import opened PricingData
  import opened PriceMerge
  import opened Patches

  datatype Mode = Manual | General | Channel

  /** The persisted preference of a model; an absent row means the general rule. */
  datatype Preference = Preference(mode: Mode, channelID: int)

  datatype Inputs = Inputs(
    local: SyncData, upstreams: seq<SyncData>, ids: seq<int>,
    preferences: map<string, Preference>, strategy: Strategy)

  datatype Built = Built(patches: map<Field, Patch>, skipped: seq<string>, applied: nat)

  // ---------- What a model's price should become ----------

  function PickBySource(ids: seq<int>, columns: seq<Column>, channelID: int): seq<Column> {
    if ids == [] || columns == [] then []
    else (if ids[0] == channelID then [columns[0]] else []) + PickBySource(ids[1..], columns[1..], channelID)
  }

  /** The sources a model listens to: all of them, or only its pinned one. */
  function Considered(ids: seq<int>, columns: seq<Column>, preference: Option<Preference>): seq<Column> {
    if preference.Some? && preference.value.mode == Channel
    then PickBySource(ids, columns, preference.value.channelID) else columns
  }

  function Exposing(columns: seq<Column>): seq<Column> {
    Filter(columns, (c: Column) => CategoryOf(c) != NoCategory)
  }

  function Declared(columns: seq<Column>, f: Field): seq<Value> {
    if columns == [] then []
    else
      var front := Declared(columns[..|columns| - 1], f);
      var last := columns[|columns| - 1];
      if f in last then front + [last[f]] else front
  }

  /** Every value agrees with the one before it. */
  predicate Chained(values: seq<Value>) {
    forall i :: 0 < i < |values| ==> ValuesEqual(values[i - 1], values[i])
  }

  datatype Merged = Absent | Agreed(value: Value) | Clash

  /** One field of several tiered contracts: declared by none, or by all with agreeing values. */
  function MergeField(exposing: seq<Column>, f: Field): Merged {
    var values := Declared(exposing, f);
    if values == [] then Absent
    else if |values| != |exposing| || !Chained(values) then Clash
    else Agreed(values[|values| - 1])
  }

  function MergeTiered(exposing: seq<Column>): Option<Column> {
    if exists f: Field :: MergeField(exposing, f).Clash? then None
    else Some(map f: Field | MergeField(exposing, f).Agreed? :: MergeField(exposing, f).value)
  }

  predicate SameCategory(exposing: seq<Column>) {
    forall c :: c in exposing ==> CategoryOf(c) == CategoryOf(exposing[0])
  }

  function AsColumn(lanes: Lanes): Column {
    map f | f in lanes :: Num(lanes[f])
  }

  /** The contract the exposing sources resolve to, or None when the model must be skipped. */
  function Target(exposing: seq<Column>, strategy: Strategy): Option<Column> {
    if exposing == [] || !SameCategory(exposing) then None
    else if CategoryOf(exposing[0]) == Tiered then MergeTiered(exposing)
    else
      var lanes := Resolve(exposing, CategoryOf(exposing[0]), strategy);
      if lanes.None? then None else Some(AsColumn(lanes.value))
  }

  function Plan(ids: seq<int>, columns: seq<Column>, preference: Option<Preference>, strategy: Strategy): Option<Column> {
    if preference.Some? && preference.value.mode == Manual then None
    else Target(Exposing(Considered(ids, columns, preference)), strategy)
  }

  function PreferenceOf(inp: Inputs, name: string): Option<Preference> {
    if name in inp.preferences then Some(inp.preferences[name]) else None
  }

  function PlanOf(inp: Inputs, name: string): Option<Column> {
    Plan(inp.ids, ColumnsOf(inp.upstreams, name), PreferenceOf(inp, name), inp.strategy)
  }

  // ---------- The patch ----------

  function EditOf(current: Option<Value>, want: Option<Value>): Edit {
    if want.None? then (if current.Some? then Drop else Keep)
    else if current.Some? && ValuesEqual(current.value, want.value) then Keep
    else Put(want.value)
  }

  function EditAt(inp: Inputs, name: string, f: Field): Edit {
    var plan := PlanOf(inp, name);
    if plan.None? then Keep else EditOf(Lookup(ColumnOf(inp.local, name), f), Lookup(plan.value, f))
  }

  function SkippedOver(inp: Inputs, names: seq<string>): seq<string> {
    Filter(names, (n: string) => PlanOf(inp, n).None?)
  }

  function EditsOf(inp: Inputs): Edits {
    (name, f) => EditAt(inp, name, f)
  }

  function BuildOver(inp: Inputs, names: seq<string>): Built {
    Built(PatchesOver(EditsOf(inp), names), SkippedOver(inp, names), |ChangedOver(EditsOf(inp), names)|)
  }

  /** What buildUpstreamPricingSyncPatchesWithPreferences returns. */
  ghost function Build(inp: Inputs): Built {
    BuildOver(inp, SortedNames(AllModels(inp.upstreams)))
  }

  // ---------- The patch edits each model on its own ----------

  lemma UnmentionedSkips(inp: Inputs, name: string)
    requires name !in AllModels(inp.upstreams)
    ensures PlanOf(inp, name).None?
  {
    var columns := ColumnsOf(inp.upstreams, name);
    forall c | c in columns ensures CategoryOf(c) == NoCategory {
      AllModelsColumns(inp.upstreams, name);
      var i :| 0 <= i < |columns| && columns[i] == c;
      assert c == map[];
    }
    var preference := PreferenceOf(inp, name);
    if preference.Some? { PickMembers(inp.ids, columns, preference.value.channelID); }
    FilterNone(Considered(inp.ids, columns, preference), (c: Column) => CategoryOf(c) != NoCategory);
  }

  lemma {:induction false} PickMembers(ids: seq<int>, columns: seq<Column>, channelID: int)
    ensures forall c :: c in PickBySource(ids, columns, channelID) ==> c in columns
  {
    if ids != [] && columns != [] {
      PickMembers(ids[1..], columns[1..], channelID);
    }
  }

  lemma BuildEdits(inp: Inputs, name: string, f: Field)
    ensures EditIn(Build(inp).patches, name, f) == EditAt(inp, name, f)
  {
    var names := SortedNames(AllModels(inp.upstreams));
    assert name in names <==> name in Elems(names);
    if name !in names { UnmentionedSkips(inp, name); }
    PatchesEdit(EditsOf(inp), names, name, f);
  }

  /** No model is both set and deleted in one option, and deletes are listed once. */
  lemma BuildDisjoint(inp: Inputs, f: Field)
    ensures f in Build(inp).patches ==>
      var patch := Build(inp).patches[f];
      Ascending(patch.deletes) && forall n :: n in patch.deletes ==> n !in patch.sets
  {
    PatchesDisjoint(EditsOf(inp), SortedNames(AllModels(inp.upstreams)), f);
  }

  lemma BuildSkips(inp: Inputs, name: string)
    ensures name in Build(inp).skipped <==> name in AllModels(inp.upstreams) && PlanOf(inp, name).None?
  {
    var names := SortedNames(AllModels(inp.upstreams));
    assert name in names <==> name in Elems(names);
  }

  // ---------- Exact replacement ----------

  /** The column holds exactly the fields of the contract, each number within the tolerance. */
  ghost predicate Realises(c: Column, contract: Column) {
    c.Keys == contract.Keys && forall f :: f in contract ==> ValuesEqual(c[f], contract[f])
  }

  /**
   All or nothing: after the patch a planned model holds exactly the fields of
   its contract, and every other model is untouched in every field.
   */
  lemma ExactReplacement(inp: Inputs, name: string)
    ensures var before, after := ColumnOf(inp.local, name), ColumnOf(Apply(inp.local, Build(inp).patches), name);
            match PlanOf(inp, name)
            case Some(contract) => Realises(after, contract)
            case None => after == before
  {
    var before, after := ColumnOf(inp.local, name), ColumnOf(Apply(inp.local, Build(inp).patches), name);
    forall f ensures Lookup(after, f) == ApplyEdit(EditAt(inp, name, f), Lookup(before, f)) {
      ApplyLookup(inp.local, Build(inp).patches, name, f);
      BuildEdits(inp, name, f);
    }
    match PlanOf(inp, name)
    case None => ColumnExtensional(after, before);
    case Some(contract) => EditsRealise(before, after, contract);
  }

  lemma EditsRealise(before: Column, after: Column, contract: Column)
    requires forall f :: Lookup(after, f) == ApplyEdit(EditOf(Lookup(before, f), Lookup(contract, f)), Lookup(before, f))
    ensures Realises(after, contract)
  {
    forall f ensures f in after <==> f in contract {
      assert Lookup(after, f) == ApplyEdit(EditOf(Lookup(before, f), Lookup(contract, f)), Lookup(before, f));
    }
    forall f | f in contract ensures ValuesEqual(after[f], contract[f]) {
      assert Lookup(after, f) == ApplyEdit(EditOf(Lookup(before, f), Lookup(contract, f)), Lookup(before, f));
    }
  }

  lemma {:induction false} DeclaredCount(columns: seq<Column>, f: Field)
    ensures |Declared(columns, f)| <= |columns|
    ensures |Declared(columns, f)| == |columns| <==> forall c :: c in columns ==> f in c
    ensures |Declared(columns, f)| == |columns| ==> forall i :: 0 <= i < |columns| ==> Declared(columns, f)[i] == columns[i][f]
    ensures Declared(columns, f) == [] <==> forall c :: c in columns ==> f !in c
  {
    if columns != [] {
      var front, last := columns[..|columns| - 1], columns[|columns| - 1];
      DeclaredCount(front, f);
      assert columns == front + [last];
    }
  }

  /** The planned contract, and so the local column afterwards, bills in the category the sources agree on. */
  lemma PlanCategory(exposing: seq<Column>, strategy: Strategy, contract: Column, c: Column)
    requires forall d :: d in exposing ==> CategoryOf(d) != NoCategory
    requires Target(exposing, strategy) == Some(contract) && Realises(c, contract)
    ensures CategoryOf(c) == CategoryOf(exposing[0])
  {
    if CategoryOf(exposing[0]) == Tiered {
      TieredCategory(exposing, contract);
    } else {
      assert exposing[0] in exposing;
      var lanes := Resolve(exposing, CategoryOf(exposing[0]), strategy).value;
      NumericCategory(exposing, CategoryOf(exposing[0]), strategy, lanes, c);
    }
  }

  lemma TieredCategory(exposing: seq<Column>, contract: Column)
    requires exposing != [] && forall c :: c in exposing ==> CategoryOf(c) == Tiered
    requires MergeTiered(exposing) == Some(contract)
    ensures BillingMode in contract && contract[BillingMode] == Str(TIERED_EXPR)
  {
    DeclaredCount(exposing, BillingMode);
    assert exposing[|exposing| - 1] in exposing;
    assert MergeField(exposing, BillingMode) == Agreed(Str(TIERED_EXPR));
  }

  lemma NumericCategory(exposing: seq<Column>, category: Category, strategy: Strategy, lanes: Lanes, c: Column)
    requires category == Price || category == Ratio
    requires Resolve(exposing, category, strategy) == Some(lanes) && c.Keys == lanes.Keys
    requires forall f :: f in c ==> c[f].Num?
    ensures CategoryOf(c) == category
  {
    MergePrices(exposing, category, strategy, lanes, ModelRatio);
    var contracts := Contracts(exposing, category);
    assert contracts[0] in contracts;
    if category == Price {
      PriceContracts(exposing);
    } else {
      RatioContracts(exposing);
      assert ModelRatio in c && RATIO_FIELDS[0] == ModelRatio;
    }
  }

  // ---------- Fixpoint ----------

  lemma EditSettles(current: Option<Value>, want: Option<Value>)
    ensures EditOf(ApplyEdit(EditOf(current, want), current), want) == Keep
  {
  }

  /**
   Fixpoint: rebuilding from the patched tables and the same inputs yields no
   patch, no applied model, and the same skipped list.
   */
  lemma BuildFixpoint(inp: Inputs)
    ensures Build(inp.(local := Apply(inp.local, Build(inp).patches))) == Built(map[], Build(inp).skipped, 0)
  {
    var again := inp.(local := Apply(inp.local, Build(inp).patches));
    var names := SortedNames(AllModels(inp.upstreams));
    forall name, f: Field ensures EditsOf(again)(name, f) == Keep {
      Settled(inp, name, f);
    }
    PatchesEmpty(EditsOf(again), names);
    FilterSame(names, (n: string) => PlanOf(again, n).None?, (n: string) => PlanOf(inp, n).None?);
  }

  lemma Settled(inp: Inputs, name: string, f: Field)
    ensures EditAt(inp.(local := Apply(inp.local, Build(inp).patches)), name, f) == Keep
  {
    ApplyLookup(inp.local, Build(inp).patches, name, f);
    BuildEdits(inp, name, f);
    if PlanOf(inp, name).Some? {
      EditSettles(Lookup(ColumnOf(inp.local, name), f), Lookup(PlanOf(inp, name).value, f));
    }
  }

  // ---------- Non-interference ----------

  /** A model's edits depend only on its own column of the local data, the sources and the preferences. */
  lemma NonInterference(a: Inputs, b: Inputs, name: string, f: Field)
    requires ColumnOf(a.local, name) == ColumnOf(b.local, name)
    requires ColumnsOf(a.upstreams, name) == ColumnsOf(b.upstreams, name)
    requires a.ids == b.ids && a.strategy == b.strategy
    requires PreferenceOf(a, name) == PreferenceOf(b, name)
    ensures EditIn(Build(a).patches, name, f) == EditIn(Build(b).patches, name, f)
    ensures name in Build(a).skipped <==> name in Build(b).skipped
  {
    BuildEdits(a, name, f);
    BuildEdits(b, name, f);
    BuildSkips(a, name);
    BuildSkips(b, name);
    var ca, cb := ColumnsOf(a.upstreams, name), ColumnsOf(b.upstreams, name);
    AllModelsColumns(a.upstreams, name);
    AllModelsColumns(b.upstreams, name);
    if i :| 0 <= i < |a.upstreams| && ColumnOf(a.upstreams[i], name) != map[] {
      assert ca[i] == cb[i] == ColumnOf(b.upstreams[i], name);
    }
    if i :| 0 <= i < |b.upstreams| && ColumnOf(b.upstreams[i], name) != map[] {
      assert ca[i] == cb[i] == ColumnOf(a.upstreams[i], name);
    }
  }

  lemma {:induction false} PickAgrees(ids: seq<int>, xs: seq<Column>, ys: seq<Column>, channelID: int)
    requires |xs| == |ys|
    requires forall i :: 0 <= i < |ids| && i < |xs| && ids[i] == channelID ==> xs[i] == ys[i]
    ensures PickBySource(ids, xs, channelID) == PickBySource(ids, ys, channelID)
  {
    if ids != [] && xs != [] {
      forall i | 0 <= i < |ids[1..]| && i < |xs[1..]| && ids[1..][i] == channelID ensures xs[1..][i] == ys[1..][i] {
        assert ids[i + 1] == channelID;
      }
      PickAgrees(ids[1..], xs[1..], ys[1..], channelID);
    }
  }

  /** For a pinned model, the data of every other source is irrelevant. */
  lemma PinIsolation(a: Inputs, b: Inputs, name: string, f: Field, channelID: int)
    requires PreferenceOf(a, name) == PreferenceOf(b, name) == Some(Preference(Channel, channelID))
    requires a.ids == b.ids && a.strategy == b.strategy && |a.upstreams| == |b.upstreams|
    requires ColumnOf(a.local, name) == ColumnOf(b.local, name)
    requires forall i :: 0 <= i < |a.ids| && i < |a.upstreams| && a.ids[i] == channelID ==>
               ColumnOf(a.upstreams[i], name) == ColumnOf(b.upstreams[i], name)
    ensures EditIn(Build(a).patches, name, f) == EditIn(Build(b).patches, name, f)
  {
    PinnedPlanOf(a, b, name, channelID);
    SamePlanEdits(a, b, name, f);
  }

  lemma SamePlanEdits(a: Inputs, b: Inputs, name: string, f: Field)
    requires ColumnOf(a.local, name) == ColumnOf(b.local, name) && PlanOf(a, name) == PlanOf(b, name)
    ensures EditIn(Build(a).patches, name, f) == EditIn(Build(b).patches, name, f)
  {
    BuildEdits(a, name, f);
    BuildEdits(b, name, f);
  }

  lemma PinnedPlanOf(a: Inputs, b: Inputs, name: string, channelID: int)
    requires PreferenceOf(a, name) == PreferenceOf(b, name) == Some(Preference(Channel, channelID))
    requires a.ids == b.ids && a.strategy == b.strategy && |a.upstreams| == |b.upstreams|
    requires forall i :: 0 <= i < |a.ids| && i < |a.upstreams| && a.ids[i] == channelID ==>
               ColumnOf(a.upstreams[i], name) == ColumnOf(b.upstreams[i], name)
    ensures PlanOf(a, name) == PlanOf(b, name)
  {
    PinnedPlan(a.ids, ColumnsOf(a.upstreams, name), ColumnsOf(b.upstreams, name), channelID, a.strategy);
  }

  lemma PinnedPlan(ids: seq<int>, xs: seq<Column>, ys: seq<Column>, channelID: int, strategy: Strategy)
    requires |xs| == |ys|
    requires forall i :: 0 <= i < |ids| && i < |xs| && ids[i] == channelID ==> xs[i] == ys[i]
    ensures Plan(ids, xs, Some(Preference(Channel, channelID)), strategy) == Plan(ids, ys, Some(Preference(Channel, channelID)), strategy)
  {
    PickAgrees(ids, xs, ys, channelID);
  }

  // ---------- The loops ----------

  method SelectUpstreams(ids: seq<int>, columns: seq<Column>, channelID: int) returns (r: seq<Column>)
    ensures r == PickBySource(ids, columns, channelID)
  {
    r := [];
    for index := 0 to |ids|
      invariant index <= |columns| ==> r + PickBySource(ids[index..], columns[index..], channelID) == PickBySource(ids, columns, channelID)
      invariant index > |columns| ==> r == PickBySource(ids, columns, channelID)
    {
      if ids[index] == channelID && index < |columns| {
        r := r + [columns[index]];
      }
      if index < |columns| {
        assert ids[index..][1..] == ids[index + 1..] && columns[index..][1..] == columns[index + 1..];
      }
    }
  }

  lemma ExposingSplit(columns: seq<Column>, i: nat)
    requires i < |columns|
    ensures Exposing(columns[..i + 1]) == Exposing(columns[..i]) + if CategoryOf(columns[i]) != NoCategory then [columns[i]] else []
    ensures Exposing(columns[..i + 1]) <= Exposing(columns)
  {
    var priced := (c: Column) => CategoryOf(c) != NoCategory;
    assert columns[..i + 1] == columns[..i] + [columns[i]];
    FilterSnoc(columns[..i], columns[i], priced);
    assert columns == columns[..i + 1] + columns[i + 1..];
    FilterAppend(columns[..i + 1], columns[i + 1..], priced);
  }

  method CollectExposing(columns: seq<Column>) returns (exposing: seq<Column>, conflict: bool)
    ensures conflict <==> !SameCategory(Exposing(columns))
    ensures !conflict ==> exposing == Exposing(columns)
  {
    exposing, conflict := [], false;
    var category := NoCategory;
    for i := 0 to |columns|
      invariant exposing == Exposing(columns[..i])
      invariant forall k :: 0 <= k < |exposing| ==> CategoryOf(exposing[k]) == category != NoCategory
      invariant exposing == [] ==> category == NoCategory
    {
      ExposingSplit(columns, i);
      var own := CategoryOf(columns[i]);
      if own != NoCategory {
        exposing := exposing + [columns[i]];
        if category != NoCategory && category != own {
          assert Exposing(columns)[0] == exposing[0] && Exposing(columns)[|exposing| - 1] == columns[i];
          return exposing, true;
        }
        category := own;
      }
    }
    assert columns[..|columns|] == columns;
  }

  /** The comparison of one field across tiered contracts. */
  method CompareField(exposing: seq<Column>, f: Field) returns (r: Merged)
    ensures r == MergeField(exposing, f)
  {
    var expected, present := None, 0;
    for i := 0 to |exposing|
      invariant present == |Declared(exposing[..i], f)| && Chained(Declared(exposing[..i], f))
      invariant expected == if present == 0 then None else Some(Declared(exposing[..i], f)[present - 1])
    {
      var upstream := exposing[i];
      assert exposing[..i + 1][..i] == exposing[..i];
      if f in upstream {
        ghost var next := Declared(exposing[..i + 1], f);
        assert next == Declared(exposing[..i], f) + [upstream[f]];
        if expected.Some? && !ValuesEqual(expected.value, upstream[f]) {
          assert !ValuesEqual(next[present - 1], next[present]);
          DeclaredPrefix(exposing, i + 1, f);
          return Clash;
        }
        expected, present := Some(upstream[f]), present + 1;
      }
    }
    assert exposing[..|exposing|] == exposing;
    if expected.None? { return Absent; }
    if present != |exposing| { return Clash; }
    return Agreed(expected.value);
  }

  lemma {:induction false} DeclaredPrefix(columns: seq<Column>, k: nat, f: Field)
    requires k <= |columns|
    ensures Declared(columns[..k], f) <= Declared(columns, f)
  {
    if k == |columns| {
      assert columns[..k] == columns;
    } else {
      var front := columns[..|columns| - 1];
      DeclaredPrefix(front, k, f);
      assert front[..k] == columns[..k];
    }
  }

  method CompareTiered(exposing: seq<Column>) returns (r: Option<Column>)
    ensures r == MergeTiered(exposing)
  {
    var expected: Column := map[];
    for j := 0 to |FIELDS|
      invariant forall f :: f in FIELDS[..j] ==> !MergeField(exposing, f).Clash?
      invariant forall f :: f in expected <==> f in FIELDS[..j] && MergeField(exposing, f).Agreed?
      invariant forall f :: f in expected ==> expected[f] == MergeField(exposing, f).value
    {
      assert FIELDS[..j + 1] == FIELDS[..j] + [FIELDS[j]];
      var merged := CompareField(exposing, FIELDS[j]);
      if merged.Clash? { return None; }
      if merged.Agreed? { expected := expected[FIELDS[j] := merged.value]; }
    }
    assert FIELDS[..|FIELDS|] == FIELDS;
    forall f ensures f in FIELDS { FieldsComplete(f); }
    assert forall f: Field :: !MergeField(exposing, f).Clash?;
    assert expected == map f: Field | MergeField(exposing, f).Agreed? :: MergeField(exposing, f).value;
    return Some(expected);
  }

  method PlanModel(ids: seq<int>, columns: seq<Column>, preference: Option<Preference>, strategy: Strategy)
    returns (r: Option<Column>)
    ensures r == Plan(ids, columns, preference, strategy)
  {
    var considered := columns;
    if preference.Some? {
      match preference.value.mode
      case Manual => return None;
      case Channel =>
        considered := SelectUpstreams(ids, columns, preference.value.channelID);
        if considered == [] { return None; }
      case General =>
    }
    var exposing, conflict := CollectExposing(considered);
    if conflict || exposing == [] { return None; }
    assert exposing[0] in exposing;
    if CategoryOf(exposing[0]) == Tiered {
      r := CompareTiered(exposing);
    } else {
      var lanes := ResolveComparable(exposing, CategoryOf(exposing[0]), strategy);
      if lanes.None? { return None; }
      r := Some(AsColumn(lanes.value));
    }
  }

  /** The field loop: the edits of one model. */
  method DiffModel(current: Column, contract: Column) returns (edits: map<Field, Edit>)
    ensures forall f :: EditOf(Lookup(current, f), Lookup(contract, f)) == if f in edits then edits[f] else Keep
    ensures forall f :: f in edits ==> edits[f] != Keep
  {
    edits := map[];
    for j := 0 to |FIELDS|
      invariant forall f :: f in edits ==> f in FIELDS[..j] && edits[f] != Keep
      invariant forall f :: f in FIELDS[..j] ==> EditOf(Lookup(current, f), Lookup(contract, f)) == if f in edits then edits[f] else Keep
    {
      var field := FIELDS[j];
      assert FIELDS[..j + 1] == FIELDS[..j] + [field];
      if field !in contract {
        if field in current { edits := edits[field := Drop]; }
      } else if !(field in current && ValuesEqual(current[field], contract[field])) {
        edits := edits[field := Put(contract[field])];
      }
    }
    assert FIELDS[..|FIELDS|] == FIELDS;
    forall f ensures f in FIELDS { FieldsComplete(f); }
  }

  method CollectModels(upstreams: seq<SyncData>) returns (all: set<string>)
    ensures all == AllModels(upstreams)
  {
    all := {};
    for i := 0 to |upstreams|
      invariant all == AllModels(upstreams[..i])
    {
      assert upstreams[..i + 1] == upstreams[..i] + [upstreams[i]];
      all := all + ModelsOf(upstreams[i]);
    }
    assert upstreams[..|upstreams|] == upstreams;
  }

  lemma CountSnoc(inp: Inputs, names: seq<string>, name: string)
    ensures SkippedOver(inp, names + [name]) == SkippedOver(inp, names) + if PlanOf(inp, name).None? then [name] else []
    ensures |ChangedOver(EditsOf(inp), names + [name])| ==
            |ChangedOver(EditsOf(inp), names)| + if Changes(EditsOf(inp), name) then 1 else 0
  {
    FilterSnoc(names, name, (n: string) => PlanOf(inp, n).None?);
    FilterSnoc(names, name, (n: string) => Changes(EditsOf(inp), n));
  }

  lemma SkippedDistinct(inp: Inputs, names: seq<string>)
    requires Distinct(names)
    ensures Uniq(SkippedOver(inp, names)) == SkippedOver(inp, names)
  {
    FilterDistinct(names, (n: string) => PlanOf(inp, n).None?);
    UniqDistinct(SkippedOver(inp, names));
  }

  /** buildUpstreamPricingSyncPatchesWithPreferences */
  method BuildPatches(inp: Inputs) returns (r: Built)
    ensures r == Build(inp)
  {
    var all := CollectModels(inp.upstreams);
    var models := SortedKeys(all);
    AscendingDistinct(models);
    r := BuildAll(inp, models);
    SkippedDistinct(inp, models);
    r := r.(skipped := Uniq(r.skipped));
  }

  method BuildAll(inp: Inputs, models: seq<string>) returns (r: Built)
    requires Distinct(models)
    ensures r == BuildOver(inp, models)
  {
    r := BuildNothing(inp);
    for i := 0 to |models|
      invariant r == BuildOver(inp, models[..i])
    {
      NextOf(models, i);
      r := BuildModel(inp, models[..i], r, models[i]);
    }
    assert models[..|models|] == models;
  }

  method BuildNothing(ghost inp: Inputs) returns (r: Built)
    ensures r == BuildOver(inp, [])
  {
    r := Built(map[], [], 0);
  }

  method BuildModel(inp: Inputs, ghost done: seq<string>, built: Built, name: string) returns (r: Built)
    requires built == BuildOver(inp, done) && name !in done
    ensures r == BuildOver(inp, done + [name])
  {
    CountSnoc(inp, done, name);
    var skip, own := PatchModel(inp, name);
    var patches := MergeStep(EditsOf(inp), done, built.patches, name, own);
    r := Built(patches, if skip then built.skipped + [name] else built.skipped, if own != map[] then built.applied + 1 else built.applied);
  }

  /** The body of the model loop. */
  method PatchModel(inp: Inputs, name: string) returns (skip: bool, own: map<Field, Edit>)
    ensures skip <==> PlanOf(inp, name).None?
    ensures forall f: Field :: EditsOf(inp)(name, f) == if f in own then own[f] else Keep
    ensures forall f :: f in own ==> own[f] != Keep
    ensures Changes(EditsOf(inp), name) <==> own != map[]
  {
    var contract := PlanModel(inp.ids, ColumnsOf(inp.upstreams, name), PreferenceOf(inp, name), inp.strategy);
    skip, own := contract.None?, map[];
    if !skip {
      own := DiffModel(ColumnOf(inp.local, name), contract.value);
    }
    if own != map[] {
      var f :| f in own.Keys;
      assert EditsOf(inp)(name, f) != Keep;
    }
  }
}
