/**
 Context-priced items are compiled to a billing expression. The source emits
 text; here it emits the tokens of that text, and a separate parser and
 evaluator for the expression language give the tokens their meaning.
 */
module TierExpr {
  import opened Names

  // ---------- The expression language ----------

  datatype Var = Len | P | C | Cr | Cc | Cc1h | Cc12h | Img | Ai | Ao | Rt

  datatype Token =
    | Ident(v: Var) | Number(x: real) | LessEq | AndAnd | Plus | Times | Question | Colon
    | TierOpen(name: string) | Close

  datatype Expr =
    | Lit(x: real) | Use(v: Var) | Add(l: Expr, r: Expr) | Mul(l: Expr, r: Expr) | AtMost(l: Expr, r: Expr)
    | And(l: Expr, r: Expr) | Cond(c: Expr, yes: Expr, no: Expr) | Tier(name: string, cost: Expr)

  datatype Parsed = Parsed(e: Expr, rest: seq<Token>)

  /** cond := and ['?' cond ':' cond] */
  function ParseCond(ts: seq<Token>): (r: Option<Parsed>)
    ensures r.Some? ==> |r.value.rest| < |ts|
    decreases |ts|, 5
  {
    var c := ParseAnd(ts);
    if c.None? || !Starts(c.value.rest, Question) then c
    else
      var yes := ParseCond(c.value.rest[1..]);
      if yes.None? || !Starts(yes.value.rest, Colon) then None
      else
        var no := ParseCond(yes.value.rest[1..]);
        if no.None? then None else Some(Parsed(Cond(c.value.e, yes.value.e, no.value.e), no.value.rest))
  }

  /** and := cmp {'&&' cmp} */
  function ParseAnd(ts: seq<Token>): (r: Option<Parsed>)
    ensures r.Some? ==> |r.value.rest| < |ts|
    decreases |ts|, 4
  {
    var l := ParseCmp(ts);
    if l.None? then None else AndTail(l.value.e, l.value.rest)
  }

  function AndTail(acc: Expr, ts: seq<Token>): (r: Option<Parsed>)
    ensures r.Some? ==> |r.value.rest| <= |ts|
    decreases |ts|, 6
  {
    if !Starts(ts, AndAnd) then Some(Parsed(acc, ts))
    else
      var r := ParseCmp(ts[1..]);
      if r.None? then None else AndTail(And(acc, r.value.e), r.value.rest)
  }

  /** cmp := sum ['<=' sum] */
  function ParseCmp(ts: seq<Token>): (r: Option<Parsed>)
    ensures r.Some? ==> |r.value.rest| < |ts|
    decreases |ts|, 3
  {
    var l := ParseSum(ts);
    if l.None? || !Starts(l.value.rest, LessEq) then l
    else
      var r := ParseSum(l.value.rest[1..]);
      if r.None? then None else Some(Parsed(AtMost(l.value.e, r.value.e), r.value.rest))
  }

  /** sum := prod {'+' prod} */
  function ParseSum(ts: seq<Token>): (r: Option<Parsed>)
    ensures r.Some? ==> |r.value.rest| < |ts|
    decreases |ts|, 2
  {
    var l := ParseProd(ts);
    if l.None? then None else SumTail(l.value.e, l.value.rest)
  }

  function SumTail(acc: Expr, ts: seq<Token>): (r: Option<Parsed>)
    ensures r.Some? ==> |r.value.rest| <= |ts|
    decreases |ts|, 6
  {
    if !Starts(ts, Plus) then Some(Parsed(acc, ts))
    else
      var r := ParseProd(ts[1..]);
      if r.None? then None else SumTail(Add(acc, r.value.e), r.value.rest)
  }

  /** prod := prim {'*' prim} */
  function ParseProd(ts: seq<Token>): (r: Option<Parsed>)
    ensures r.Some? ==> |r.value.rest| < |ts|
    decreases |ts|, 1
  {
    var l := ParsePrim(ts);
    if l.None? then None else ProdTail(l.value.e, l.value.rest)
  }

  function ProdTail(acc: Expr, ts: seq<Token>): (r: Option<Parsed>)
    ensures r.Some? ==> |r.value.rest| <= |ts|
    decreases |ts|, 6
  {
    if !Starts(ts, Times) then Some(Parsed(acc, ts))
    else
      var r := ParsePrim(ts[1..]);
      if r.None? then None else ProdTail(Mul(acc, r.value.e), r.value.rest)
  }

  /** prim := number | name | tier '(' name ',' cond ')' */
  function ParsePrim(ts: seq<Token>): (r: Option<Parsed>)
    ensures r.Some? ==> |r.value.rest| < |ts|
    decreases |ts|, 0
  {
    if ts == [] then None
    else match ts[0]
      case Number(x) => Some(Parsed(Lit(x), ts[1..]))
      case Ident(v) => Some(Parsed(Use(v), ts[1..]))
      case TierOpen(name) =>
        var cost := ParseCond(ts[1..]);
        if cost.None? || !Starts(cost.value.rest, Close) then None
        else Some(Parsed(Tier(name, cost.value.e), cost.value.rest[1..]))
      case _ => None
  }

  predicate Starts(ts: seq<Token>, t: Token) {
    ts != [] && ts[0] == t
  }

  datatype Outcome = Amount(x: real) | Truth(b: bool) | Charged(name: string, x: real) | Stuck

  type Usage = Var -> real

  function Eval(e: Expr, u: Usage): Outcome {
    match e
    case Lit(x) => Amount(x)
    case Use(v) => Amount(u(v))
    case Add(l, r) =>
      var (a, b) := (Eval(l, u), Eval(r, u));
      if a.Amount? && b.Amount? then Amount(a.x + b.x) else Stuck
    case Mul(l, r) =>
      var (a, b) := (Eval(l, u), Eval(r, u));
      if a.Amount? && b.Amount? then Amount(a.x * b.x) else Stuck
    case AtMost(l, r) =>
      var (a, b) := (Eval(l, u), Eval(r, u));
      if a.Amount? && b.Amount? then Truth(a.x <= b.x) else Stuck
    case And(l, r) =>
      var (a, b) := (Eval(l, u), Eval(r, u));
      if a.Truth? && b.Truth? then Truth(a.b && b.b) else Stuck
    case Cond(c, yes, no) =>
      var b := Eval(c, u);
      if !b.Truth? then Stuck else if b.b then Eval(yes, u) else Eval(no, u)
    case Tier(name, cost) =>
      var a := Eval(cost, u);
      if a.Amount? then Charged(name, a.x) else Stuck
  }

  // ---------- Items and their compilation ----------

  datatype Step = Step(
    size: int, completionSize: int, prompt: real, completion: real, cache: real,
    promptThinking: real, completionThinking: real)

  datatype Item = Item(
    modelName: string, quotaType: int, modelRatio: real, modelPrice: real, completionRatio: real,
    cacheRatio: Option<real>, createCacheRatio: Option<real>, cacheCreationRatio: Option<real>,
    cacheCreation5m: Option<real>, cacheCreation1h: Option<real>, cacheCreation12h: Option<real>,
    imageRatio: Option<real>, audioRatio: Option<real>, audioCompletionRatio: Option<real>,
    billingMode: string, billingExpr: string, steps: seq<Step>)

  const CACHE_CREATION_1H_MULTIPLIER := 6.0 / 3.75

  function Or(x: Option<real>, default: real): real {
    if x.Some? then x.value else default
  }

  predicate OptionalOk(x: Option<real>) {
    x.Some? ==> x.value >= 0.0
  }

  /** validOptionalPricingRatios */
  predicate ValidOptional(item: Item) {
    && OptionalOk(item.cacheRatio) && OptionalOk(item.createCacheRatio) && OptionalOk(item.cacheCreationRatio)
    && OptionalOk(item.cacheCreation5m) && OptionalOk(item.cacheCreation1h) && OptionalOk(item.cacheCreation12h)
    && OptionalOk(item.imageRatio) && OptionalOk(item.audioRatio) && OptionalOk(item.audioCompletionRatio)
  }

  /** hasExplicitCacheCreationRatios */
  predicate ExplicitCacheCreation(item: Item) {
    item.cacheCreation5m.Some? || item.cacheCreation1h.Some? || item.cacheCreation12h.Some?
  }

  datatype Term = Term(v: Var, price: real)

  /** The price of one lane; ratios are half-prices. */
  function Lane(base: real, ratio: real, step: real): (r: real)
    ensures base >= 0.0 && ratio >= 0.0 && step >= 0.0 ==> r >= 0.0
  {
    ProductNonNegative(base, ratio);
    ProductNonNegative(base * ratio * 2.0, step);
    base * ratio * 2.0 * step
  }

  lemma ProductNonNegative(a: real, b: real)
    ensures a >= 0.0 && b >= 0.0 ==> a * b >= 0.0
  {
  }

  /** The terms of upstreamTokenCostExpr. */
  function CostTerms(item: Item, step: Step): (r: seq<Term>)
    ensures r != []
  {
    TokenTerms(item, step) + (CreationTerms(item, step) + (MediaTerms(item, step) + ThinkingTerms(item, step)))
  }

  function TokenTerms(item: Item, step: Step): seq<Term> {
    [ Term(P, Lane(item.modelRatio, 1.0, step.prompt)),
      Term(C, Lane(item.modelRatio, item.completionRatio, step.completion)),
      Term(Cr, Lane(item.modelRatio, Or(item.cacheRatio, 1.0), step.cache)) ]
  }

  function CreationTerms(item: Item, step: Step): seq<Term> {
    var createCache := Or(item.cacheCreation5m, Or(item.cacheCreationRatio, Or(item.createCacheRatio, 1.25)));
    var creation := Lane(item.modelRatio, createCache, step.cache);
    var creation1h :=
      if item.cacheCreation1h.Some? then Lane(item.modelRatio, item.cacheCreation1h.value, step.cache)
      else creation * CACHE_CREATION_1H_MULTIPLIER;
    [Term(Cc, creation), Term(Cc1h, creation1h)]
    + (if item.cacheCreation12h.Some? then [Term(Cc12h, Lane(item.modelRatio, item.cacheCreation12h.value, step.cache))] else [])
  }

  function MediaTerms(item: Item, step: Step): seq<Term> {
    var audio := Or(item.audioRatio, 1.0);
    (if item.imageRatio.Some? then [Term(Img, Lane(item.modelRatio, item.imageRatio.value, step.prompt))] else [])
    + [ Term(Ai, Lane(item.modelRatio, audio, step.prompt)),
        Term(Ao, Lane(item.modelRatio * audio, Or(item.audioCompletionRatio, 1.0), step.completion)) ]
  }

  function ThinkingTerms(item: Item, step: Step): seq<Term> {
    if step.completionThinking != 0.0 then [Term(Rt, Lane(item.modelRatio, item.completionRatio, step.completionThinking))] else []
  }

  function EmitTerm(t: Term): seq<Token> {
    [Ident(t.v), Times, Number(t.price)]
  }

  function EmitTail(terms: seq<Term>): seq<Token> {
    if terms == [] then [] else [Plus] + EmitTerm(terms[0]) + EmitTail(terms[1..])
  }

  function EmitTier(name: string, terms: seq<Term>): seq<Token>
    requires terms != []
  {
    [TierOpen(name)] + (EmitTerm(terms[0]) + EmitTail(terms[1..]) + [Close])
  }

  function EmitGuard(step: Step): seq<Token> {
    [Ident(Len), LessEq, Number(step.size as real)] +
    if step.completionSize > 0
    then [AndAnd, Ident(C), Plus, Ident(Ao), Plus, Ident(Rt), LessEq, Number(step.completionSize as real)] else []
  }

  /** completionStepAfter */
  predicate CompletionAfter(previous: int, current: int) {
    previous != -1 && (current == -1 || current > previous)
  }

  predicate StepOk(step: Step) {
    && step.size > 0 && step.prompt >= 0.0 && step.completion >= 0.0 && step.cache >= 0.0
    && step.completionSize != 0 && step.completionSize >= -1
    && step.promptThinking >= 0.0 && step.completionThinking >= 0.0
    && (step.promptThinking != 0.0 ==> step.promptThinking == step.prompt)
  }

  predicate InOrder(previous: Step, step: Step) {
    step.size > previous.size || (step.size == previous.size && CompletionAfter(previous.completionSize, step.completionSize))
  }

  predicate StepsOk(steps: seq<Step>) {
    && (forall i :: 0 <= i < |steps| ==> StepOk(steps[i]))
    && (forall i :: 0 < i < |steps| ==> InOrder(steps[i - 1], steps[i]))
  }

  predicate Compilable(item: Item) {
    && item.quotaType != 1 && (item.steps != [] || ExplicitCacheCreation(item))
    && item.modelRatio >= 0.0 && item.completionRatio >= 0.0 && ValidOptional(item)
    && StepsOk(item.steps)
  }

  const BASE_STEP := Step(0, 0, 1.0, 1.0, 1.0, 0.0, 0.0)

  function StepLabel(index: nat): string {
    "step_" + Itoa(index + 1)
  }

  /** One priced step. */
  datatype Priced = Priced(step: Step, terms: seq<Term>)

  predicate AllPriced(ps: seq<Priced>) {
    forall i :: 0 <= i < |ps| ==> ps[i].terms != []
  }

  function PricedSteps(item: Item): (r: seq<Priced>)
    ensures |r| == |item.steps| && AllPriced(r)
    ensures forall i :: 0 <= i < |r| ==> r[i] == Priced(item.steps[i], CostTerms(item, item.steps[i]))
  {
    seq(|item.steps|, i requires 0 <= i < |item.steps| => Priced(item.steps[i], CostTerms(item, item.steps[i])))
  }

  function EmitPart(ps: seq<Priced>, index: nat): seq<Token>
    requires index < |ps| && AllPriced(ps)
  {
    var tier := EmitTier(StepLabel(index), ps[index].terms);
    if index == |ps| - 1 then tier else EmitGuard(ps[index].step) + [Question] + tier + [Colon]
  }

  /** The parts from the given step on, joined. */
  function EmitFrom(ps: seq<Priced>, index: nat): seq<Token>
    requires index <= |ps| && AllPriced(ps)
    decreases |ps| - index
  {
    if index == |ps| then [] else EmitPart(ps, index) + EmitFrom(ps, index + 1)
  }

  /** What pricingStepRatiosExpr emits. */
  function Emit(item: Item): Option<seq<Token>> {
    if !Compilable(item) then None
    else if item.steps == [] then Some(EmitTier("base", CostTerms(item, BASE_STEP)))
    else Some(EmitFrom(PricedSteps(item), 0))
  }

  /** pricingStepRatiosExpr */
  method CompileSteps(item: Item) returns (r: Option<seq<Token>>)
    ensures r == Emit(item)
  {
    if item.quotaType == 1 || (item.steps == [] && !ExplicitCacheCreation(item)) ||
       item.modelRatio < 0.0 || item.completionRatio < 0.0 || !ValidOptional(item) {
      return None;
    }
    if item.steps == [] {
      return Some(EmitTier("base", CostTerms(item, BASE_STEP)));
    }
    var ok, parts := CompileParts(PricedSteps(item), item.steps);
    if !ok { return None; }
    return Some(parts);
  }

  /** strings.Join with an empty separator. */
  function Flatten(parts: seq<seq<Token>>): seq<Token> {
    if parts == [] then [] else parts[0] + Flatten(parts[1..])
  }

  ghost function AllParts(ps: seq<Priced>): (r: seq<seq<Token>>)
    requires AllPriced(ps)
    ensures |r| == |ps|
  {
    seq(|ps|, k requires 0 <= k < |ps| => EmitPart(ps, k))
  }

  ghost predicate PartsOf(ps: seq<Priced>, parts: seq<seq<Token>>)
    requires AllPriced(ps)
  {
    |parts| <= |ps| && parts == AllParts(ps)[..|parts|]
  }

  lemma {:induction false} FlattenParts(ps: seq<Priced>, parts: seq<seq<Token>>, index: nat)
    requires AllPriced(ps) && PartsOf(ps, parts) && |parts| == |ps| && index <= |ps|
    ensures Flatten(parts[index..]) == EmitFrom(ps, index)
    decreases |ps| - index
  {
    if index < |ps| {
      FlattenParts(ps, parts, index + 1);
      FlattenFrom(parts, index);
    }
  }

  lemma FlattenFrom(parts: seq<seq<Token>>, index: nat)
    requires index < |parts|
    ensures Flatten(parts[index..]) == parts[index] + Flatten(parts[index + 1..])
  {
    assert parts[index..][1..] == parts[index + 1..];
  }

  lemma StepsSnoc(steps: seq<Step>, index: nat)
    requires index < |steps| && StepsOk(steps[..index]) && StepOk(steps[index])
    requires index > 0 ==> InOrder(steps[index - 1], steps[index])
    ensures StepsOk(steps[..index + 1])
  {
    var more := steps[..index + 1];
    forall i | 0 <= i < |more| ensures StepOk(more[i]) {
      if i < index { assert more[i] == steps[..index][i]; }
    }
    forall i | 0 < i < |more| ensures InOrder(more[i - 1], more[i]) {
      if i < index { assert more[i - 1] == steps[..index][i - 1] && more[i] == steps[..index][i]; }
    }
  }

  method CheckStep(steps: seq<Step>, index: nat) returns (ok: bool)
    requires index < |steps| && StepsOk(steps[..index])
    ensures if ok then StepsOk(steps[..index + 1]) else !StepsOk(steps)
  {
    var step := steps[index];
    if !StepOk(step) { return false; }
    if index > 0 && !InOrder(steps[index - 1], step) { return false; }
    StepsSnoc(steps, index);
    ok := true;
  }

  method CompileParts(ps: seq<Priced>, steps: seq<Step>) returns (ok: bool, r: seq<Token>)
    requires AllPriced(ps) && |ps| == |steps| && forall i :: 0 <= i < |ps| ==> ps[i].step == steps[i]
    ensures ok <==> StepsOk(steps)
    ensures ok ==> r == EmitFrom(ps, 0)
  {
    var parts: seq<seq<Token>> := [];
    for index := 0 to |ps|
      invariant StepsOk(steps[..index])
      invariant |parts| == index && PartsOf(ps, parts)
    {
      var accepted := CheckStep(steps, index);
      if !accepted { return false, []; }
      PartsSnoc(ps, parts);
      parts := parts + [EmitPart(ps, index)];
    }
    assert steps[..|steps|] == steps && parts[0..] == parts;
    FlattenParts(ps, parts, 0);
    return true, Flatten(parts);
  }

  lemma PartsSnoc(ps: seq<Priced>, parts: seq<seq<Token>>)
    requires AllPriced(ps) && PartsOf(ps, parts) && |parts| < |ps|
    ensures PartsOf(ps, parts + [EmitPart(ps, |parts|)])
  {
    var all := AllParts(ps);
    assert all[..|parts| + 1] == all[..|parts|] + [all[|parts|]];
  }

  // ---------- The tokens parse to the intended tree ----------

  function TermExpr(t: Term): Expr {
    Mul(Use(t.v), Lit(t.price))
  }

  function SumExpr(acc: Expr, terms: seq<Term>): Expr
    decreases |terms|
  {
    if terms == [] then acc else SumExpr(Add(acc, TermExpr(terms[0])), terms[1..])
  }

  function CostExpr(terms: seq<Term>): Expr
    requires terms != []
  {
    SumExpr(TermExpr(terms[0]), terms[1..])
  }

  function GuardExpr(step: Step): Expr {
    var input := AtMost(Use(Len), Lit(step.size as real));
    if step.completionSize > 0
    then And(input, AtMost(Add(Add(Use(C), Use(Ao)), Use(Rt)), Lit(step.completionSize as real))) else input
  }

  function TierAt(ps: seq<Priced>, index: nat): Expr
    requires index < |ps| && AllPriced(ps)
  {
    Tier(StepLabel(index), CostExpr(ps[index].terms))
  }

  /** The right-nested conditional. */
  function Nested(ps: seq<Priced>, index: nat): Expr
    requires index < |ps| && AllPriced(ps)
    decreases |ps| - index
  {
    if index == |ps| - 1 then TierAt(ps, index)
    else Cond(GuardExpr(ps[index].step), TierAt(ps, index), Nested(ps, index + 1))
  }

  /** No operator that could extend a finished operand follows. */
  predicate Ends(ts: seq<Token>) {
    !Starts(ts, Times) && !Starts(ts, Plus) && !Starts(ts, LessEq) && !Starts(ts, AndAnd)
  }

  lemma ParseTerm(t: Term, rest: seq<Token>)
    requires !Starts(rest, Times)
    ensures ParseProd(EmitTerm(t) + rest) == Some(Parsed(TermExpr(t), rest))
  {
    var ts := EmitTerm(t) + rest;
    assert ts[1..] == [Times, Number(t.price)] + rest;
    assert ts[1..][1..] == [Number(t.price)] + rest;
    assert ([Number(t.price)] + rest)[1..] == rest;
    assert ParsePrim(ts) == Some(Parsed(Use(t.v), ts[1..]));
    assert ParsePrim(ts[1..][1..]) == Some(Parsed(Lit(t.price), rest));
    assert ProdTail(TermExpr(t), rest) == Some(Parsed(TermExpr(t), rest));
  }

  lemma {:induction false} ParseTail(acc: Expr, terms: seq<Term>, rest: seq<Token>)
    requires Ends(rest)
    ensures SumTail(acc, EmitTail(terms) + rest) == Some(Parsed(SumExpr(acc, terms), rest))
    decreases |terms|
  {
    if terms == [] {
      assert EmitTail(terms) + rest == rest;
    } else {
      var more := EmitTail(terms[1..]) + rest;
      var ts := EmitTail(terms) + rest;
      assert ts == [Plus] + (EmitTerm(terms[0]) + more);
      assert ts[1..] == EmitTerm(terms[0]) + more;
      assert !Starts(more, Times) by { if terms[1..] != [] { assert more[0] == Plus; } else { assert more == rest; } }
      ParseTerm(terms[0], more);
      ParseTail(Add(acc, TermExpr(terms[0])), terms[1..], rest);
    }
  }

  lemma ParseCost(terms: seq<Term>, rest: seq<Token>)
    requires terms != [] && Ends(rest) && !Starts(rest, Question)
    ensures ParseCond(EmitTerm(terms[0]) + EmitTail(terms[1..]) + rest) == Some(Parsed(CostExpr(terms), rest))
  {
    var more := EmitTail(terms[1..]) + rest;
    var ts := EmitTerm(terms[0]) + EmitTail(terms[1..]) + rest;
    assert ts == EmitTerm(terms[0]) + more;
    assert !Starts(more, Times) by { if terms[1..] != [] { assert more[0] == Plus; } else { assert more == rest; } }
    ParseTerm(terms[0], more);
    ParseTail(TermExpr(terms[0]), terms[1..], rest);
    ClimbFromSum(ts, CostExpr(terms), rest);
  }

  lemma ClimbFromSum(ts: seq<Token>, e: Expr, rest: seq<Token>)
    requires ParseSum(ts) == Some(Parsed(e, rest)) && Ends(rest) && !Starts(rest, Question)
    ensures ParseCond(ts) == Some(Parsed(e, rest))
  {
    assert ParseCmp(ts) == Some(Parsed(e, rest));
    assert AndTail(e, rest) == Some(Parsed(e, rest));
    assert ParseAnd(ts) == Some(Parsed(e, rest));
  }

  lemma ParseTier(name: string, terms: seq<Term>, rest: seq<Token>)
    requires terms != [] && Ends(rest) && !Starts(rest, Question)
    ensures ParseCond(EmitTier(name, terms) + rest) == Some(Parsed(Tier(name, CostExpr(terms)), rest))
  {
    var ts := EmitTier(name, terms) + rest;
    var cost := EmitTerm(terms[0]) + EmitTail(terms[1..]);
    assert ts[1..] == cost + ([Close] + rest);
    ParseCost(terms, [Close] + rest);
    assert ([Close] + rest)[1..] == rest;
    var e := Tier(name, CostExpr(terms));
    assert ParsePrim(ts) == Some(Parsed(e, rest));
    assert ProdTail(e, rest) == Some(Parsed(e, rest));
    assert ParseProd(ts) == Some(Parsed(e, rest));
    assert SumTail(e, rest) == Some(Parsed(e, rest));
    ClimbFromSum(ts, e, rest);
  }

  lemma ParseName(v: Var, rest: seq<Token>)
    requires !Starts(rest, Times)
    ensures ParseProd([Ident(v)] + rest) == Some(Parsed(Use(v), rest))
  {
    assert ([Ident(v)] + rest)[1..] == rest;
    assert ParsePrim([Ident(v)] + rest) == Some(Parsed(Use(v), rest));
  }

  lemma ParseNumber(x: real, rest: seq<Token>)
    requires !Starts(rest, Times) && !Starts(rest, Plus)
    ensures ParseSum([Number(x)] + rest) == Some(Parsed(Lit(x), rest))
  {
    assert ([Number(x)] + rest)[1..] == rest;
    assert ParsePrim([Number(x)] + rest) == Some(Parsed(Lit(x), rest));
    assert ParseProd([Number(x)] + rest) == Some(Parsed(Lit(x), rest));
  }

  /** A comparison whose left operand is already parsed. */
  lemma ParseBound(ts: seq<Token>, e: Expr, x: real, rest: seq<Token>)
    requires ParseSum(ts) == Some(Parsed(e, [LessEq, Number(x)] + rest))
    requires !Starts(rest, Times) && !Starts(rest, Plus)
    ensures ParseCmp(ts) == Some(Parsed(AtMost(e, Lit(x)), rest))
  {
    assert ([LessEq, Number(x)] + rest)[1..] == [Number(x)] + rest;
    ParseNumber(x, rest);
  }

  lemma ParseOutputBound(x: real, rest: seq<Token>)
    requires !Starts(rest, Times) && !Starts(rest, Plus)
    ensures ParseCmp([Ident(C), Plus, Ident(Ao), Plus, Ident(Rt), LessEq, Number(x)] + rest) ==
            Some(Parsed(AtMost(Add(Add(Use(C), Use(Ao)), Use(Rt)), Lit(x)), rest))
  {
    var bound := [LessEq, Number(x)] + rest;
    var ts3 := [Ident(Rt)] + bound;
    var ts2 := [Ident(Ao)] + ([Plus] + ts3);
    var ts1 := [Ident(C)] + ([Plus] + ts2);
    assert [Ident(C), Plus, Ident(Ao), Plus, Ident(Rt), LessEq, Number(x)] + rest == ts1;
    ParseName(C, [Plus] + ts2);
    ParseName(Ao, [Plus] + ts3);
    ParseName(Rt, bound);
    assert ([Plus] + ts2)[1..] == ts2 && ([Plus] + ts3)[1..] == ts3;
    var e2, e3 := Add(Use(C), Use(Ao)), Add(Add(Use(C), Use(Ao)), Use(Rt));
    assert SumTail(e3, bound) == Some(Parsed(e3, bound));
    assert SumTail(e2, [Plus] + ts3) == Some(Parsed(e3, bound));
    assert SumTail(Use(C), [Plus] + ts2) == Some(Parsed(e3, bound));
    ParseBound(ts1, e3, x, rest);
  }

  lemma ParseGuard(step: Step, rest: seq<Token>)
    requires Starts(rest, Question)
    ensures ParseAnd(EmitGuard(step) + rest) == Some(Parsed(GuardExpr(step), rest))
  {
    var n, ts := step.size as real, EmitGuard(step) + rest;
    if step.completionSize > 0 {
      var bound := [Ident(C), Plus, Ident(Ao), Plus, Ident(Rt), LessEq, Number(step.completionSize as real)] + rest;
      assert ts == [Ident(Len)] + ([LessEq, Number(n)] + ([AndAnd] + bound));
      ParseInputBound(ts, n, [AndAnd] + bound);
      ParseOutputBound(step.completionSize as real, rest);
      var output := AtMost(Add(Add(Use(C), Use(Ao)), Use(Rt)), Lit(step.completionSize as real));
      ParseBoth(AtMost(Use(Len), Lit(n)), bound, output, rest);
    } else {
      assert ts == [Ident(Len)] + ([LessEq, Number(n)] + rest);
      ParseInputBound(ts, n, rest);
    }
  }

  lemma ParseInputBound(ts: seq<Token>, n: real, more: seq<Token>)
    requires ts == [Ident(Len)] + ([LessEq, Number(n)] + more)
    requires Starts(more, Question) || Starts(more, AndAnd)
    ensures ParseCmp(ts) == Some(Parsed(AtMost(Use(Len), Lit(n)), more))
  {
    ParseName(Len, [LessEq, Number(n)] + more);
    assert ParseSum(ts) == Some(Parsed(Use(Len), [LessEq, Number(n)] + more));
    ParseBound(ts, Use(Len), n, more);
  }

  lemma ParseBoth(input: Expr, bound: seq<Token>, output: Expr, rest: seq<Token>)
    requires Starts(rest, Question) && ParseCmp(bound) == Some(Parsed(output, rest))
    ensures AndTail(input, [AndAnd] + bound) == Some(Parsed(And(input, output), rest))
  {
    assert ([AndAnd] + bound)[1..] == bound;
    assert AndTail(And(input, output), rest) == Some(Parsed(And(input, output), rest));
  }

  /** The flat concatenation of parts reads back as the right-nested conditional. */
  lemma {:induction false} ParseNested(ps: seq<Priced>, index: nat)
    requires index < |ps| && AllPriced(ps)
    ensures ParseCond(EmitFrom(ps, index)) == Some(Parsed(Nested(ps, index), []))
    decreases |ps| - index
  {
    var terms := ps[index].terms;
    var tier := EmitTier(StepLabel(index), terms);
    if index == |ps| - 1 {
      assert EmitFrom(ps, index) == tier + [];
      ParseTier(StepLabel(index), terms, []);
    } else {
      ParseNested(ps, index + 1);
      var no := EmitFrom(ps, index + 1);
      var branches := [Question] + (tier + ([Colon] + no));
      assert EmitFrom(ps, index) == EmitGuard(ps[index].step) + branches;
      ParseGuard(ps[index].step, branches);
      ParseTier(StepLabel(index), terms, [Colon] + no);
      ParseBranches(EmitFrom(ps, index), GuardExpr(ps[index].step), tier, TierAt(ps, index), no, Nested(ps, index + 1));
    }
  }

  lemma ParseBranches(ts: seq<Token>, guard: Expr, yes: seq<Token>, yesExpr: Expr, no: seq<Token>, noExpr: Expr)
    requires ParseAnd(ts) == Some(Parsed(guard, [Question] + (yes + ([Colon] + no))))
    requires ParseCond(yes + ([Colon] + no)) == Some(Parsed(yesExpr, [Colon] + no))
    requires ParseCond(no) == Some(Parsed(noExpr, []))
    ensures ParseCond(ts) == Some(Parsed(Cond(guard, yesExpr, noExpr), []))
  {
    assert ([Question] + (yes + ([Colon] + no)))[1..] == yes + ([Colon] + no);
    assert ([Colon] + no)[1..] == no;
  }

  // ---------- What the expression charges ----------

  function Charge(terms: seq<Term>, u: Usage): real {
    if terms == [] then 0.0 else u(terms[0].v) * terms[0].price + Charge(terms[1..], u)
  }

  lemma {:induction false} EvalSum(acc: Expr, terms: seq<Term>, u: Usage)
    requires Eval(acc, u).Amount?
    ensures Eval(SumExpr(acc, terms), u) == Amount(Eval(acc, u).x + Charge(terms, u))
    decreases |terms|
  {
    if terms != [] {
      var next := Add(acc, TermExpr(terms[0]));
      assert Eval(TermExpr(terms[0]), u) == Amount(u(terms[0].v) * terms[0].price);
      EvalSum(next, terms[1..], u);
    }
  }

  lemma EvalCost(terms: seq<Term>, u: Usage)
    requires terms != []
    ensures Eval(CostExpr(terms), u) == Amount(Charge(terms, u))
  {
    EvalSum(TermExpr(terms[0]), terms[1..], u);
  }

  /** The request fits the step's input bound and, where it has one, its output bound. */
  predicate Fits(step: Step, u: Usage) {
    u(Len) <= step.size as real && (step.completionSize > 0 ==> u(C) + u(Ao) + u(Rt) <= step.completionSize as real)
  }

  /** The step is the first that fits, or the last one when none before it does. */
  predicate Selected(steps: seq<Step>, u: Usage, i: nat) {
    i < |steps| && (forall j :: 0 <= j < i ==> !Fits(steps[j], u)) && (i == |steps| - 1 || Fits(steps[i], u))
  }

  lemma EvalGuard(step: Step, u: Usage)
    ensures Eval(GuardExpr(step), u) == Truth(Fits(step, u))
  {
    assert Eval(AtMost(Use(Len), Lit(step.size as real)), u) == Truth(u(Len) <= step.size as real);
    assert Eval(Add(Use(C), Use(Ao)), u) == Amount(u(C) + u(Ao));
    var total := Add(Add(Use(C), Use(Ao)), Use(Rt));
    assert Eval(total, u) == Amount(u(C) + u(Ao) + u(Rt));
    var bound := Lit(step.completionSize as real);
    assert Eval(AtMost(total, bound), u) == Truth(u(C) + u(Ao) + u(Rt) <= step.completionSize as real);
  }

  lemma {:induction false} EvalNested(ps: seq<Priced>, steps: seq<Step>, u: Usage, index: nat, i: nat)
    requires AllPriced(ps) && |ps| == |steps| && forall k :: 0 <= k < |ps| ==> ps[k].step == steps[k]
    requires index <= i && Selected(steps, u, i)
    ensures Eval(Nested(ps, index), u) == Charged(StepLabel(i), Charge(ps[i].terms, u))
    decreases i - index
  {
    EvalTier(ps, index, u);
    if index < |ps| - 1 {
      EvalCond(ps, index, u);
      if index < i {
        assert !Fits(steps[index], u);
        EvalNested(ps, steps, u, index + 1, i);
      }
    }
  }

  lemma EvalTier(ps: seq<Priced>, index: nat, u: Usage)
    requires index < |ps| && AllPriced(ps)
    ensures Eval(TierAt(ps, index), u) == Charged(StepLabel(index), Charge(ps[index].terms, u))
  {
    EvalCost(ps[index].terms, u);
  }

  lemma EvalCond(ps: seq<Priced>, index: nat, u: Usage)
    requires index < |ps| - 1 && AllPriced(ps)
    ensures Eval(Nested(ps, index), u) == if Fits(ps[index].step, u) then Eval(TierAt(ps, index), u) else Eval(Nested(ps, index + 1), u)
  {
    EvalGuard(ps[index].step, u);
  }

  /**
   Compilation preserves meaning: the emitted tokens parse, and on every usage
   the expression charges the first step whose bounds hold, the last step
   catching everything beyond the published maximum.
   */
  lemma TierMeaning(item: Item, u: Usage, i: nat)
    requires Emit(item).Some? && Selected(item.steps, u, i)
    ensures exists e :: ParseCond(Emit(item).value) == Some(Parsed(e, [])) &&
                        Eval(e, u) == Charged(StepLabel(i), Charge(CostTerms(item, item.steps[i]), u))
  {
    var ps := PricedSteps(item);
    ParseNested(ps, 0);
    EvalNested(ps, item.steps, u, 0, i);
  }

  lemma BaseMeaning(item: Item, u: Usage)
    requires Emit(item).Some? && item.steps == []
    ensures exists e :: ParseCond(Emit(item).value) == Some(Parsed(e, [])) &&
                        Eval(e, u) == Charged("base", Charge(CostTerms(item, BASE_STEP), u))
  {
    var terms := CostTerms(item, BASE_STEP);
    assert EmitTier("base", terms) + [] == EmitTier("base", terms);
    ParseTier("base", terms, []);
    EvalCost(terms, u);
  }

  /** Every usage selects exactly one step. */
  lemma {:induction false} SelectedExists(steps: seq<Step>, u: Usage) returns (i: nat)
    requires steps != []
    ensures Selected(steps, u, i)
    ensures forall k :: Selected(steps, u, k) ==> k == i
  {
    i := 0;
    while i < |steps| - 1 && !Fits(steps[i], u)
      invariant i < |steps| && forall j :: 0 <= j < i ==> !Fits(steps[j], u)
    {
      i := i + 1;
    }
  }

  lemma {:induction false} OrderedSizes(steps: seq<Step>, j: nat, i: nat)
    requires StepsOk(steps) && j < i < |steps|
    ensures steps[j].size <= steps[i].size
    ensures steps[j].size == steps[i].size ==> CompletionAfter(steps[j].completionSize, steps[i].completionSize)
    decreases i
  {
    assert InOrder(steps[i - 1], steps[i]);
    if j < i - 1 { OrderedSizes(steps, j, i - 1); }
  }

  /** A point that selects the given step: input exactly at its bound, output just at its own. */
  function Probe(steps: seq<Step>, i: nat): Usage
    requires i < |steps|
  {
    var output :=
      if steps[i].completionSize > 0 then steps[i].completionSize
      else if i > 0 && steps[i - 1].completionSize > 0 then steps[i - 1].completionSize + 1 else 0;
    v => if v == Len then steps[i].size as real else if v == C then output as real else 0.0
  }

  /** No accepted step is dead: each is selected by some non-negative usage. */
  lemma StepReachable(steps: seq<Step>, i: nat)
    requires StepsOk(steps) && i < |steps|
    ensures Selected(steps, Probe(steps, i), i)
    ensures forall v :: Probe(steps, i)(v) >= 0.0
  {
    var u := Probe(steps, i);
    assert StepOk(steps[i]);
    forall j | 0 <= j < i ensures !Fits(steps[j], u) {
      OrderedSizes(steps, j, i);
      assert StepOk(steps[j]) && StepOk(steps[i - 1]);
      if steps[j].size == steps[i].size && steps[i].completionSize == -1 && j < i - 1 {
        OrderedSizes(steps, i - 1, i);
        OrderedSizes(steps, j, i - 1);
      }
    }
  }

  ghost predicate NonNegative(terms: seq<Term>) {
    forall t :: t in terms ==> t.price >= 0.0
  }

  lemma {:induction false} ChargeNonNegative(terms: seq<Term>, u: Usage)
    requires NonNegative(terms)
    requires forall v :: u(v) >= 0.0
    ensures Charge(terms, u) >= 0.0
  {
    if terms != [] {
      assert forall t :: t in terms[1..] ==> t in terms;
      ChargeNonNegative(terms[1..], u);
      assert terms[0] in terms;
      ProductNonNegative(u(terms[0].v), terms[0].price);
    }
  }

  /** An accepted item compiles to an expression that never charges a negative amount. */
  lemma NeverNegative(item: Item, u: Usage)
    requires Emit(item).Some? && forall v :: u(v) >= 0.0
    ensures exists e, name, x :: ParseCond(Emit(item).value) == Some(Parsed(e, [])) && Eval(e, u) == Charged(name, x) && x >= 0.0
  {
    if item.steps == [] {
      BaseMeaning(item, u);
      StepNonNegative(item, BASE_STEP, u);
    } else {
      var i := SelectedExists(item.steps, u);
      TierMeaning(item, u, i);
      StepNonNegative(item, item.steps[i], u);
    }
  }

  lemma StepNonNegative(item: Item, step: Step, u: Usage)
    requires Compilable(item) && (step in item.steps || step == BASE_STEP)
    requires forall v :: u(v) >= 0.0
    ensures Charge(CostTerms(item, step), u) >= 0.0
  {
    PricesNonNegative(item, step);
    ChargeNonNegative(CostTerms(item, step), u);
  }

  lemma PricesNonNegative(item: Item, step: Step)
    requires Compilable(item) && (step in item.steps || step == BASE_STEP)
    ensures NonNegative(CostTerms(item, step))
  {
    assert step in item.steps ==> StepOk(step);
    TokensNonNegative(item, step);
    CreationNonNegative(item, step);
    MediaNonNegative(item, step);
    AppendNonNegative(MediaTerms(item, step), ThinkingTerms(item, step));
    AppendNonNegative(CreationTerms(item, step), MediaTerms(item, step) + ThinkingTerms(item, step));
    AppendNonNegative(TokenTerms(item, step), CreationTerms(item, step) + (MediaTerms(item, step) + ThinkingTerms(item, step)));
  }

  /** No price or multiplier the terms are made of is negative. */
  ghost predicate Sane(item: Item, step: Step) {
    && item.modelRatio >= 0.0 && item.completionRatio >= 0.0 && ValidOptional(item)
    && step.prompt >= 0.0 && step.completion >= 0.0 && step.cache >= 0.0 && step.completionThinking >= 0.0
  }

  lemma AppendNonNegative(a: seq<Term>, b: seq<Term>)
    requires NonNegative(a) && NonNegative(b)
    ensures NonNegative(a + b)
  {
  }

  lemma TokensNonNegative(item: Item, step: Step)
    requires Sane(item, step)
    ensures NonNegative(TokenTerms(item, step)) && NonNegative(ThinkingTerms(item, step))
  {
  }

  lemma CreationNonNegative(item: Item, step: Step)
    requires Sane(item, step)
    ensures NonNegative(CreationTerms(item, step))
  {
    var createCache := Or(item.cacheCreation5m, Or(item.cacheCreationRatio, Or(item.createCacheRatio, 1.25)));
    ProductNonNegative(Lane(item.modelRatio, createCache, step.cache), CACHE_CREATION_1H_MULTIPLIER);
  }

  lemma MediaNonNegative(item: Item, step: Step)
    requires Sane(item, step)
    ensures NonNegative(MediaTerms(item, step))
  {
    ProductNonNegative(item.modelRatio, Or(item.audioRatio, 1.0));
  }
}
