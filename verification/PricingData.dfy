/**
 The shape of pricing data: one table of model values per pricing field. A
 model's column is everything the tables say about that model.
 */
module PricingData {
  import opened Names

  datatype Value = Num(n: real) | Str(s: string)

  datatype Field =
    | ModelRatio | CompletionRatio | CacheRatio | CreateCacheRatio
    | ImageRatio | AudioRatio | AudioCompletionRatio
    | ModelPrice | BillingMode | BillingExpr

  const RATIO_FIELDS: seq<Field> :=
    [ModelRatio, CompletionRatio, CacheRatio, CreateCacheRatio, ImageRatio, AudioRatio, AudioCompletionRatio]

  /** pricingSyncFields */
  const FIELDS: seq<Field> := RATIO_FIELDS + [ModelPrice, BillingMode, BillingExpr]

  lemma FieldsComplete(f: Field)
    ensures f in FIELDS
  {
    assert FIELDS == [ModelRatio, CompletionRatio, CacheRatio, CreateCacheRatio, ImageRatio, AudioRatio,
                      AudioCompletionRatio, ModelPrice, BillingMode, BillingExpr];
    match f
    case ModelRatio => assert FIELDS[0] == f;
    case CompletionRatio => assert FIELDS[1] == f;
    case CacheRatio => assert FIELDS[2] == f;
    case CreateCacheRatio => assert FIELDS[3] == f;
    case ImageRatio => assert FIELDS[4] == f;
    case AudioRatio => assert FIELDS[5] == f;
    case AudioCompletionRatio => assert FIELDS[6] == f;
    case ModelPrice => assert FIELDS[7] == f;
    case BillingMode => assert FIELDS[8] == f;
    case BillingExpr => assert FIELDS[9] == f;
  }

  type Column = map<Field, Value>
  type SyncData = map<Field, map<string, Value>>

  const TIERED_EXPR := "tiered_expr"
  const EPSILON := 0.000000001

  function ColumnOf(data: SyncData, name: string): Column {
    map f | f in data && name in data[f] :: data[f][name]
  }

  function ColumnsOf(upstreams: seq<SyncData>, name: string): (r: seq<Column>)
    ensures |r| == |upstreams|
    ensures forall i :: 0 <= i < |r| ==> r[i] == ColumnOf(upstreams[i], name)
  {
    seq(|upstreams|, i requires 0 <= i < |upstreams| => ColumnOf(upstreams[i], name))
  }

  /** Every model some field mentions. */
  function ModelsOf(data: SyncData): set<string> {
    set f, name | f in data && name in data[f] :: name
  }

  function AllModels(upstreams: seq<SyncData>): set<string> {
    set u, f, name | u in upstreams && f in u && name in u[f] :: name
  }

  lemma AllModelsColumns(upstreams: seq<SyncData>, name: string)
    ensures name in AllModels(upstreams) <==> exists i :: 0 <= i < |upstreams| && ColumnOf(upstreams[i], name) != map[]
  {
    if name in AllModels(upstreams) {
      var u, f :| u in upstreams && f in u && name in u[f];
      var i :| 0 <= i < |upstreams| && upstreams[i] == u;
      assert f in ColumnOf(upstreams[i], name);
    }
    if i :| 0 <= i < |upstreams| && ColumnOf(upstreams[i], name) != map[] {
      var f :| f in ColumnOf(upstreams[i], name).Keys;
      assert upstreams[i] in upstreams;
    }
  }

  predicate NearlyEqual(a: real, b: real) {
    if a > b then a - b < EPSILON else b - a < EPSILON
  }

  predicate ValuesEqual(a: Value, b: Value) {
    if a.Num? && b.Num? then NearlyEqual(a.n, b.n) else a == b
  }

  datatype Category = NoCategory | Tiered | Price | Ratio

  /** pricingCategory */
  function CategoryOf(c: Column): Category {
    if BillingMode in c && c[BillingMode] == Str(TIERED_EXPR) then Tiered
    else if ModelPrice in c then Price
    else if exists f :: f in RATIO_FIELDS && f in c then Ratio
    else NoCategory
  }

  /** validPricingSyncContract, with the billing-expression smoke test as a parameter. */
  predicate ValidContract(c: Column, smoke: string -> bool) {
    match CategoryOf(c)
    case Price => ModelPrice in c && c[ModelPrice].Num? && c[ModelPrice].n > 0.0
    case Ratio => ModelRatio in c && c[ModelRatio].Num? && c[ModelRatio].n > 0.0
    case Tiered => BillingExpr in c && c[BillingExpr].Str? && Trim(c[BillingExpr].s) != "" && smoke(c[BillingExpr].s)
    case NoCategory => false
  }
}
