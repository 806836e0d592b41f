/**
 Set/delete patches over the pricing tables, and how they act on one model.
 */
module Patches {
  import opened Names
  import opened PricingData

  /** JSONObjectPatch: deletes are applied first, then sets. */
  datatype Patch = Patch(sets: map<string, Value>, deletes: seq<string>)

  datatype Edit = Keep | Put(value: Value) | Drop

  type Edits = (string, Field) -> Edit

  function Lookup(c: Column, f: Field): Option<Value> {
    if f in c then Some(c[f]) else None
  }

  lemma ColumnExtensional(c: Column, d: Column)
    requires forall f :: Lookup(c, f) == Lookup(d, f)
    ensures c == d
  {
    forall f ensures f in c <==> f in d {
      assert Lookup(c, f) == Lookup(d, f);
    }
    forall f | f in c ensures c[f] == d[f] {
      assert Lookup(c, f) == Lookup(d, f);
    }
  }

  // ---------- Applying a patch ----------

  function ApplyPatch(table: map<string, Value>, patch: Patch): map<string, Value> {
    (table - (set n | n in patch.deletes)) + patch.sets
  }

  function TableOf(data: SyncData, f: Field): map<string, Value> {
    if f in data then data[f] else map[]
  }

  function Apply(data: SyncData, patches: map<Field, Patch>): SyncData {
    map f: Field | f in data || f in patches ::
      if f in patches then ApplyPatch(TableOf(data, f), patches[f]) else data[f]
  }

  /** What a patch says about one model in one field. */
  function EditIn(patches: map<Field, Patch>, name: string, f: Field): Edit {
    if f !in patches then Keep
    else if name in patches[f].sets then Put(patches[f].sets[name])
    else if name in patches[f].deletes then Drop
    else Keep
  }

  function ApplyEdit(edit: Edit, current: Option<Value>): Option<Value> {
    match edit
    case Keep => current
    case Put(v) => Some(v)
    case Drop => None
  }

  lemma ApplyLookup(data: SyncData, patches: map<Field, Patch>, name: string, f: Field)
    ensures Lookup(ColumnOf(Apply(data, patches), name), f) ==
            ApplyEdit(EditIn(patches, name, f), Lookup(ColumnOf(data, name), f))
  {
  }

  // ---------- The patch that performs given edits ----------

  function SetsOver(edits: Edits, names: seq<string>, f: Field): map<string, Value> {
    map n | n in names && edits(n, f).Put? :: edits(n, f).value
  }

  function DropsOver(edits: Edits, names: seq<string>, f: Field): seq<string> {
    Filter(names, (n: string) => edits(n, f).Drop?)
  }

  function PatchesOver(edits: Edits, names: seq<string>): map<Field, Patch> {
    map f: Field | SetsOver(edits, names, f) != map[] || DropsOver(edits, names, f) != [] ::
      Patch(SetsOver(edits, names, f), DropsOver(edits, names, f))
  }

  function ChangedOver(edits: Edits, names: seq<string>): seq<string> {
    Filter(names, (n: string) => Changes(edits, n))
  }

  predicate Changes(edits: Edits, name: string) {
    exists f: Field :: edits(name, f) != Keep
  }

  lemma PatchesEdit(edits: Edits, names: seq<string>, name: string, f: Field)
    ensures EditIn(PatchesOver(edits, names), name, f) == if name in names then edits(name, f) else Keep
  {
    var drops := DropsOver(edits, names, f);
    assert name in drops <==> name in names && edits(name, f).Drop?;
    if name in drops { assert drops != []; }
    if name in names && edits(name, f).Put? { assert name in SetsOver(edits, names, f); }
  }

  /** No model is both set and deleted in one option, and deletes are listed once. */
  lemma PatchesDisjoint(edits: Edits, names: seq<string>, f: Field)
    requires Ascending(names)
    ensures f in PatchesOver(edits, names) ==>
      var patch := PatchesOver(edits, names)[f];
      Ascending(patch.deletes) && forall n :: n in patch.deletes ==> n !in patch.sets
  {
    FilterAscending(names, (n: string) => edits(n, f).Drop?);
  }

  /** Edits that do nothing leave no trace, so an empty patch means no model changes. */
  lemma PatchesEmpty(edits: Edits, names: seq<string>)
    ensures PatchesOver(edits, names) == map[] <==> forall n :: n in names ==> !Changes(edits, n)
    ensures ChangedOver(edits, names) == [] <==> forall n :: n in names ==> !Changes(edits, n)
  {
    FilterNone(names, (n: string) => Changes(edits, n));
    var patches := PatchesOver(edits, names);
    forall n | n in names && Changes(edits, n) ensures patches != map[] {
      var f: Field :| edits(n, f) != Keep;
      PatchesEdit(edits, names, n, f);
      assert f in patches;
    }
    forall f | f in patches ensures exists n :: n in names && Changes(edits, n) {
      var n := PatchedModel(edits, names, f);
    }
    if patches != map[] {
      var f :| f in patches.Keys;
    }
  }

  lemma PatchedModel(edits: Edits, names: seq<string>, f: Field) returns (n: string)
    requires f in PatchesOver(edits, names)
    ensures n in names && Changes(edits, n)
  {
    if SetsOver(edits, names, f) != map[] {
      n :| n in SetsOver(edits, names, f).Keys;
    } else {
      n := DropsOver(edits, names, f)[0];
      assert n in DropsOver(edits, names, f);
    }
    assert edits(n, f) != Keep;
  }

  // ---------- Accumulating a patch model by model ----------

  function PatchAt(patches: map<Field, Patch>, f: Field): Patch {
    if f in patches then patches[f] else Patch(map[], [])
  }

  function Extend(patch: Patch, name: string, edit: Edit): Patch {
    match edit
    case Keep => patch
    case Put(v) => patch.(sets := patch.sets[name := v])
    case Drop => patch.(deletes := patch.deletes + [name])
  }

  lemma PatchAtOver(edits: Edits, names: seq<string>, f: Field)
    ensures PatchAt(PatchesOver(edits, names), f) == Patch(SetsOver(edits, names, f), DropsOver(edits, names, f))
    ensures f in PatchesOver(edits, names) <==> SetsOver(edits, names, f) != map[] || DropsOver(edits, names, f) != []
  {
  }

  lemma SetsSnoc(edits: Edits, names: seq<string>, name: string, f: Field)
    requires name !in names
    ensures SetsOver(edits, names + [name], f) ==
            if edits(name, f).Put? then SetsOver(edits, names, f)[name := edits(name, f).value] else SetsOver(edits, names, f)
  {
    assert forall n :: n in names + [name] <==> n in names || n == name;
  }

  lemma PatchesSnoc(edits: Edits, names: seq<string>, name: string, f: Field)
    requires name !in names
    ensures PatchAt(PatchesOver(edits, names + [name]), f) == Extend(PatchAt(PatchesOver(edits, names), f), name, edits(name, f))
    ensures f in PatchesOver(edits, names + [name]) <==> f in PatchesOver(edits, names) || edits(name, f) != Keep
  {
    PatchAtOver(edits, names, f);
    PatchAtOver(edits, names + [name], f);
    SetsSnoc(edits, names, name, f);
    FilterSnoc(names, name, (n: string) => edits(n, f).Drop?);
    assert DropsOver(edits, names + [name], f) ==
      DropsOver(edits, names, f) + if edits(name, f).Drop? then [name] else [];
    if edits(name, f).Put? { assert name in SetsOver(edits, names + [name], f); }
  }

  /** Adds one model's edits to the accumulated patches. */
  method MergePatches(patches: map<Field, Patch>, name: string, edits: map<Field, Edit>) returns (r: map<Field, Patch>)
    ensures forall f :: f !in edits ==> (f in r <==> f in patches) && (f in r ==> r[f] == patches[f])
    ensures forall f :: f in edits ==> f in r && r[f] == Extend(PatchAt(patches, f), name, edits[f])
  {
    r := patches;
    var keys := Keys(edits.Keys);
    for k := 0 to |keys|
      invariant forall f :: f !in keys[..k] ==> (f in r <==> f in patches) && (f in r ==> r[f] == patches[f])
      invariant forall f :: f in keys[..k] ==> f in edits && f in r && r[f] == Extend(PatchAt(patches, f), name, edits[f])
    {
      var field := keys[k];
      assert field in Elems(keys);
      assert keys[..k + 1] == keys[..k] + [field];
      assert field !in keys[..k];
      r := r[field := Extend(PatchAt(r, field), name, edits[field])];
    }
    assert keys[..|keys|] == keys;
    assert forall f :: f in keys <==> f in Elems(keys);
  }

  /** One step of the accumulation. */
  method MergeStep(ghost edits: Edits, ghost names: seq<string>, patches: map<Field, Patch>, name: string, own: map<Field, Edit>)
    returns (r: map<Field, Patch>)
    requires name !in names && patches == PatchesOver(edits, names)
    requires forall f: Field :: edits(name, f) == if f in own then own[f] else Keep
    requires forall f :: f in own ==> own[f] != Keep
    ensures r == PatchesOver(edits, names + [name])
  {
    r := MergePatches(patches, name, own);
    ghost var want := PatchesOver(edits, names + [name]);
    forall f: Field ensures (f in r <==> f in want) && (f in r ==> r[f] == want[f]) {
      PatchesSnoc(edits, names, name, f);
      assert edits(name, f) == if f in own then own[f] else Keep;
    }
  }
}
