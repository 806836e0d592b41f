/**
 Turning a provider's list of price items into per-field tables: each model
 name is either priced under one billing category or reported as unsupported.
 */
module PricingItems {
  import opened Names
  import opened PricingData
  import opened TierExpr

  /** The smoke test of a billing expression, and the text of an emitted one. */
  datatype Billing = Billing(smoke: string -> bool, render: seq<Token> -> string)

  function With(c: Column, f: Field, x: Option<real>): Column {
    if x.Some? then c[f := Num(x.value)] else c
  }

  function CreateCacheLane(item: Item): Option<real> {
    if item.cacheCreationRatio.Some? then item.cacheCreationRatio else item.createCacheRatio
  }

  /** The optional lanes a flat item publishes beside its base price. */
  function WithLanes(c: Column, item: Item): Column {
    With(With(With(With(With(c, CacheRatio, item.cacheRatio), CreateCacheRatio, CreateCacheLane(item)),
      ImageRatio, item.imageRatio), AudioRatio, item.audioRatio), AudioCompletionRatio, item.audioCompletionRatio)
  }

  function TieredColumn(expr: string): Column {
    map[BillingMode := Str(TIERED_EXPR), BillingExpr := Str(expr)]
  }

  /** What one item on its own contributes, or None when it must be blocked. */
  function ItemColumn(item: Item, b: Billing): Option<Column> {
    var explicit := Trim(item.billingExpr);
    if !ValidOptional(item) then None
    else if item.billingMode == TIERED_EXPR && explicit != "" then
      if b.smoke(explicit) then Some(TieredColumn(explicit)) else None
    else if item.steps != [] || (item.quotaType != 1 && ExplicitCacheCreation(item)) then
      var tokens := Emit(item);
      if tokens.Some? && b.smoke(b.render(tokens.value)) then Some(TieredColumn(b.render(tokens.value))) else None
    else if item.billingMode == TIERED_EXPR then None
    else if item.quotaType == 1 then
      if item.modelPrice >= 0.0 then Some(WithLanes(map[ModelPrice := Num(item.modelPrice)], item)) else None
    else if item.modelRatio >= 0.0 && item.completionRatio >= 0.0 then
      Some(WithLanes(map[ModelRatio := Num(item.modelRatio), CompletionRatio := Num(item.completionRatio)], item))
    else None
  }

  // ---------- The outcome per name ----------

  predicate IsNamed(item: Item, name: string) {
    Trim(item.modelName) == name
  }

  function Occurrences(items: seq<Item>, name: string): seq<Item> {
    Filter(items, (it: Item) => IsNamed(it, name))
  }

  predicate Priced(items: seq<Item>, name: string, b: Billing) {
    var own := Occurrences(items, name);
    name != "" && |own| == 1 && ItemColumn(own[0], b).Some?
  }

  predicate Unsupported(items: seq<Item>, name: string, b: Billing) {
    name != "" && Occurrences(items, name) != [] && !Priced(items, name, b)
  }

  function PricedColumn(items: seq<Item>, name: string, b: Billing): Column {
    if Priced(items, name, b) then ItemColumn(Occurrences(items, name)[0], b).value else map[]
  }

  /** The column bills in the given category and holds no base field of another. */
  ghost predicate PureCategory(c: Column, category: Category) {
    && CategoryOf(c) == category
    && match category
       case Tiered => c.Keys == {BillingMode, BillingExpr}
       case Price => ModelPrice in c && ModelRatio !in c && CompletionRatio !in c && BillingMode !in c && BillingExpr !in c
       case Ratio => ModelRatio in c && CompletionRatio in c && ModelPrice !in c && BillingMode !in c && BillingExpr !in c
       case NoCategory => false
  }

  lemma WithLanesKeys(c: Column, item: Item, f: Field)
    requires f in {ModelRatio, CompletionRatio, ModelPrice, BillingMode, BillingExpr}
    ensures f in WithLanes(c, item) <==> f in c
    ensures f in c ==> WithLanes(c, item)[f] == c[f]
  {
  }

  lemma ItemColumnCategory(item: Item, b: Billing)
    requires ItemColumn(item, b).Some?
    ensures exists category :: PureCategory(ItemColumn(item, b).value, category)
  {
    var c := ItemColumn(item, b).value;
    if BillingMode in c && c == TieredColumn(c[BillingExpr].s) {
      assert PureCategory(c, Tiered);
    } else if item.quotaType == 1 {
      var base: Column := map[ModelPrice := Num(item.modelPrice)];
      assert c == WithLanes(base, item);
      forall f | f in {ModelRatio, CompletionRatio, ModelPrice, BillingMode, BillingExpr} ensures f in c <==> f in base {
        WithLanesKeys(base, item, f);
      }
      assert PureCategory(c, Price);
    } else {
      var base: Column := map[ModelRatio := Num(item.modelRatio), CompletionRatio := Num(item.completionRatio)];
      assert c == WithLanes(base, item);
      forall f | f in {ModelRatio, CompletionRatio, ModelPrice, BillingMode, BillingExpr} ensures f in c <==> f in base {
        WithLanesKeys(base, item, f);
      }
      assert RATIO_FIELDS[0] == ModelRatio;
      assert PureCategory(c, Ratio);
    }
  }

  /**
   Normalisation partitions the names: a non-blank name that occurs is either
   unsupported and absent from every table, or priced under exactly one
   category; a name that occurs twice is unsupported.
   */
  lemma NamesPartitioned(items: seq<Item>, name: string, b: Billing)
    requires name != "" && Occurrences(items, name) != []
    ensures Unsupported(items, name, b) <==> PricedColumn(items, name, b) == map[]
    ensures !Unsupported(items, name, b) ==> exists category :: PureCategory(PricedColumn(items, name, b), category)
    ensures |Occurrences(items, name)| >= 2 ==> Unsupported(items, name, b)
  {
    if Priced(items, name, b) {
      ItemColumnCategory(Occurrences(items, name)[0], b);
    }
  }

  /** The outcome of every name is the same in whatever order the items arrive. */
  lemma ItemOrderIrrelevant(xs: seq<Item>, ys: seq<Item>, name: string, b: Billing)
    requires multiset(xs) == multiset(ys)
    ensures PricedColumn(xs, name, b) == PricedColumn(ys, name, b)
    ensures Unsupported(xs, name, b) <==> Unsupported(ys, name, b)
  {
    OccurrencesPermuted(xs, ys, name);
  }

  lemma OccurrencesPermuted(xs: seq<Item>, ys: seq<Item>, name: string)
    requires multiset(xs) == multiset(ys)
    ensures |Occurrences(xs, name)| == |Occurrences(ys, name)|
    ensures |Occurrences(xs, name)| == 1 ==> Occurrences(xs, name) == Occurrences(ys, name)
  {
    FilterPermutation(xs, ys, (it: Item) => IsNamed(it, name));
    var ox, oy := Occurrences(xs, name), Occurrences(ys, name);
    MultisetMember(ox, oy);
    if |ox| == 1 { assert ox[0] in oy; }
  }

  // ---------- The loop ----------

  /** The put closure, for every field of the column. */
  function PutColumn(fields: SyncData, name: string, c: Column): (r: SyncData)
    ensures forall n :: ColumnOf(r, n) == if n == name then ColumnOf(fields, n) + c else ColumnOf(fields, n)
  {
    map f: Field | f in fields || f in c ::
      if f !in c then fields[f] else if f in fields then fields[f][name := c[f]] else map[name := c[f]]
  }

  /** The block closure: the name disappears from every table. */
  function DropName(fields: SyncData, name: string): (r: SyncData)
    ensures forall n :: ColumnOf(r, n) == if n == name then map[] else ColumnOf(fields, n)
  {
    map f | f in fields :: fields[f] - {name}
  }

  ghost predicate Holds(items: seq<Item>, b: Billing, fields: SyncData, unsupported: seq<string>) {
    && (forall n :: ColumnOf(fields, n) == PricedColumn(items, n, b))
    && (forall n :: n in unsupported <==> Unsupported(items, n, b))
  }

  lemma OccurrencesSnoc(items: seq<Item>, item: Item, name: string)
    ensures Occurrences(items + [item], name) == Occurrences(items, name) + if IsNamed(item, name) then [item] else []
  {
    FilterSnoc(items, item, (it: Item) => IsNamed(it, name));
  }

  /** A name other than the new item's keeps its outcome. */
  lemma OutcomeKept(items: seq<Item>, item: Item, name: string, b: Billing)
    requires !IsNamed(item, name) || name == ""
    ensures PricedColumn(items + [item], name, b) == PricedColumn(items, name, b)
    ensures Unsupported(items + [item], name, b) <==> Unsupported(items, name, b)
  {
    OccurrencesSnoc(items, item, name);
  }

  lemma OutcomeOf(items: seq<Item>, item: Item, name: string, b: Billing)
    requires IsNamed(item, name) && name != ""
    ensures var own := if Occurrences(items, name) == [] then ItemColumn(item, b) else None;
            && PricedColumn(items + [item], name, b) == (if own.Some? then own.value else map[])
            && (Unsupported(items + [item], name, b) <==> own.None?)
  {
    OccurrencesSnoc(items, item, name);
  }

  /** Only the name's own outcome changes, to the given column or to unsupported. */
  ghost predicate Placed(data: SyncData, unsupported: seq<string>, data': SyncData, unsupported': seq<string>,
                         name: string, own: Option<Column>)
  {
    && (forall n :: n != name ==> ColumnOf(data', n) == ColumnOf(data, n) && (n in unsupported' <==> n in unsupported))
    && ColumnOf(data', name) == (if own.Some? then own.value else map[])
    && (name in unsupported' <==> own.None?)
  }

  method Place(data: SyncData, unsupported: seq<string>, name: string, own: Option<Column>)
    returns (data': SyncData, unsupported': seq<string>)
    requires own.Some? ==> ColumnOf(data, name) == map[] && name !in unsupported
    ensures Placed(data, unsupported, data', unsupported', name, own)
  {
    if own.None? {
      data', unsupported' := DropName(data, name), unsupported + [name];
    } else {
      data', unsupported' := PutColumn(data, name, own.value), unsupported;
    }
  }

  lemma HoldsSnoc(items: seq<Item>, item: Item, b: Billing, data: SyncData, unsupported: seq<string>,
                  data': SyncData, unsupported': seq<string>)
    requires Holds(items, b, data, unsupported)
    requires var name := Trim(item.modelName);
             if name == "" then data' == data && unsupported' == unsupported
             else Placed(data, unsupported, data', unsupported', name,
                         if Occurrences(items, name) == [] then ItemColumn(item, b) else None)
    ensures Holds(items + [item], b, data', unsupported')
  {
    var name := Trim(item.modelName);
    forall n ensures ColumnOf(data', n) == PricedColumn(items + [item], n, b)
             ensures n in unsupported' <==> Unsupported(items + [item], n, b)
    {
      if name != "" && n == name { OutcomeOf(items, item, n, b); } else { OutcomeKept(items, item, n, b); }
    }
  }

  /** A name not met before has no outcome yet. */
  lemma Unmet(items: seq<Item>, b: Billing, data: SyncData, unsupported: seq<string>, name: string)
    requires Holds(items, b, data, unsupported) && Occurrences(items, name) == []
    ensures ColumnOf(data, name) == map[] && name !in unsupported
  {
    assert ColumnOf(data, name) == PricedColumn(items, name, b);
    assert name in unsupported <==> Unsupported(items, name, b);
  }

  /** The names met so far. */
  ghost predicate Seen(items: seq<Item>, seen: set<string>) {
    forall n :: n in seen <==> n != "" && Occurrences(items, n) != []
  }

  lemma SeenSnoc(items: seq<Item>, seen: set<string>, item: Item)
    requires Seen(items, seen)
    ensures var name := Trim(item.modelName);
            Seen(items + [item], if name == "" then seen else seen + {name})
  {
    forall n ensures Occurrences(items + [item], n) == Occurrences(items, n) + if IsNamed(item, n) then [item] else [] {
      OccurrencesSnoc(items, item, n);
    }
  }

  /** upstreamPricingItemsToSyncData */
  method ItemsToSyncData(items: seq<Item>, b: Billing) returns (data: SyncData, unsupported: seq<string>)
    ensures Holds(items, b, data, unsupported)
    ensures Distinct(unsupported)
  {
    data, unsupported := map[], [];
    var seen: set<string> := {};
    for i := 0 to |items|
      invariant Holds(items[..i], b, data, unsupported)
      invariant Seen(items[..i], seen)
    {
      var name := Trim(items[i].modelName);
      assert items[..i + 1] == items[..i] + [items[i]];
      SeenSnoc(items[..i], seen, items[i]);
      ghost var data0, unsupported0 := data, unsupported;
      if name != "" {
        var own := None;
        if name !in seen {
          own := ItemColumn(items[i], b);
          Unmet(items[..i], b, data, unsupported, name);
        }
        seen := seen + {name};
        data, unsupported := Place(data, unsupported, name, own);
      }
      HoldsSnoc(items[..i], items[i], b, data0, unsupported0, data, unsupported);
    }
    assert items[..|items|] == items;
    unsupported := Uniq(unsupported);
  }
}
