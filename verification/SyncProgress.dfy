/**
 What one sync run leaves for the next: which models stay lost once an update
 has been applied, what the next run proposes from the same quotes, and when
 the sync comes to rest.
 */
module SyncProgress {
  import opened Names
  import opened PricingData
  import opened Patches
  import opened PriceMerge
  import opened PatchBuilder
  import opened Quotes
  import opened SyncStates
  import opened SyncRun

  /** The context was drawn from these quotes and states. */
  ghost predicate FromQuotes(ctx: Context, active: set<int>, table: Table, states: States) {
    && ctx.inp.upstreams == Snapshots(table, ctx.inp.ids)
    && ctx.unavailable == MissingModels(active, table, states)
    && ctx.inp.preferences == Preferences(states)
  }

  /** The update was proposed from these quotes and states, and applied. */
  ghost predicate AppliedFrom(update: Update, active: set<int>, table: Table, pricing: SyncData, states: States,
                              pricing': SyncData, states': States)
  {
    && FromQuotes(update.ctx, active, table, states) && Proposes(update.ctx, update.patches)
    && Lands(update, pricing, states, pricing', states')
  }

  // ---------- Which models stay lost ----------

  /** A source that speaks for a model does not count it as missing. */
  lemma SpeakingIsNotMissing(ctx: Context, active: set<int>, table: Table, n: string, q: Quoting)
    requires ctx.inp.upstreams == Snapshots(table, ctx.inp.ids) && q in QuotingFor(ctx, n)
    ensures !MissingFrom(active, table, q.id, n)
  {
    var j := QuotingAt(ctx.inp.ids, ColumnsOf(ctx.inp.upstreams, n), Kept(PreferenceOf(ctx.inp, n)), q);
    SnapshotColumn(table, ctx.inp.ids[j], n);
  }

  lemma LostIsPatched(update: Update, n: string)
    requires Proposes(update.ctx, update.patches) && n in update.ctx.unavailable
    ensures FinalState(update.ctx, update.patches, n).Some?
    ensures forall f: Field :: EditIn(update.patches, n, f) == Drop
  {
    var order :| Elems(order) == update.ctx.unavailable && update.patches == RemoveAll(Build(update.ctx.inp).patches, order);
    assert n in Elems(order);
    forall f: Field ensures EditIn(update.patches, n, f) == Drop {
      RemoveAllEdits(Build(update.ctx.inp).patches, order, n, f);
    }
    assert EditIn(update.patches, n, ModelRatio) != Keep;
    PatchedEdits(update.patches, n);
  }

  /** A written state names the speaking sources, whatever it says of them. */
  lemma ProvenanceWritten(ctx: Context, patches: map<Field, Patch>, n: string)
    requires FinalState(ctx, patches, n).Some?
    ensures FinalState(ctx, patches, n).value.provenance == Some(Uniq(IdsOf(QuotingFor(ctx, n))))
  {
  }

  /**
   After an applied update a model is lost, by the same quotes, exactly when it
   was lost before and is pinned: the provenance of a general model has been
   rewritten to the sources that still speak for it. The nameless model keeps
   its state, so it stays lost too.
   */
  lemma LostAfter(update: Update, active: set<int>, table: Table, pricing: SyncData, states: States,
                  pricing': SyncData, states': States, n: string)
    requires AppliedFrom(update, active, table, pricing, states, pricing', states')
    ensures n in MissingModels(active, table, states') <==>
            n in update.ctx.unavailable && (n == "" || states[n].preference.mode == Channel)
  {
    LandingKeepsPins(update, pricing, states, pricing', states');
    assert StateAt(states', n) ==
           if n != "" && FinalState(update.ctx, update.patches, n).Some? then FinalState(update.ctx, update.patches, n)
           else StateAt(MarkStale(states, update.ctx.stale), n);
    if n != "" && FinalState(update.ctx, update.patches, n).Some? {
      ProvenanceWritten(update.ctx, update.patches, n);
      PreferenceWritten(update.ctx, update.patches, n);
      NoSpeakerMissing(update.ctx, active, table, n);
      if n in states { assert Lost(active, table, n, states'[n]) <==> states[n].preference.mode == Channel && Lost(active, table, n, states[n]); }
    } else {
      if n != "" && n in update.ctx.unavailable { LostIsPatched(update, n); }
      MarkStaleKeeps(active, table, states, update.ctx.stale);
      MissingByState(active, table, MarkStale(states, update.ctx.stale), states', n);
    }
  }

  lemma NoSpeakerMissing(ctx: Context, active: set<int>, table: Table, n: string)
    requires ctx.inp.upstreams == Snapshots(table, ctx.inp.ids)
    ensures forall c :: c in Uniq(IdsOf(QuotingFor(ctx, n))) ==> !MissingFrom(active, table, c, n)
  {
    var quoting := QuotingFor(ctx, n);
    forall c | c in Uniq(IdsOf(quoting)) ensures !MissingFrom(active, table, c, n) {
      assert c in IdsOf(quoting);
      var i :| 0 <= i < |quoting| && IdsOf(quoting)[i] == c;
      assert quoting[i] in quoting;
      SpeakingIsNotMissing(ctx, active, table, n, quoting[i]);
    }
  }

  lemma MissingByState(active: set<int>, table: Table, states: States, states': States, n: string)
    requires StateAt(states, n) == StateAt(states', n)
    ensures n in MissingModels(active, table, states) <==> n in MissingModels(active, table, states')
  {
  }

  // ---------- What the next run proposes ----------

  /** The inputs of the next run, if the quotes stay as they are. */
  function NextInputs(inp: Inputs, pricing': SyncData, states': States): Inputs {
    inp.(local := pricing', preferences := Preferences(states'))
  }

  /** New rows are general, which is what no row means: every model keeps its plan. */
  lemma SamePlan(inp: Inputs, states: States, pricing': SyncData, states': States, n: string)
    requires inp.preferences == Preferences(states) && PinsKept(states, states')
    ensures PlanOf(NextInputs(inp, pricing', states'), n) == PlanOf(inp, n)
  {
    var next := NextInputs(inp, pricing', states');
    if n in states {
      assert PreferenceOf(next, n) == PreferenceOf(inp, n);
    } else {
      assert PreferenceOf(inp, n) == None;
      assert PreferenceOf(next, n).Some? ==> PreferenceOf(next, n).value.mode == General;
    }
  }

  /** A plan names at least one field. */
  lemma PlanNonEmpty(inp: Inputs, n: string)
    requires PlanOf(inp, n).Some?
    ensures PlanOf(inp, n).value != map[]
  {
    var exposing := Exposing(Considered(inp.ids, ColumnsOf(inp.upstreams, n), PreferenceOf(inp, n)));
    var contract := PlanOf(inp, n).value;
    forall f | f in contract ensures ValuesEqual(contract[f], contract[f]) {
    }
    PlanCategory(exposing, inp.strategy, contract, contract);
    assert exposing[0] in exposing;
  }

  /**
   From the same quotes, the next builder run prices again every lost model that
   still has a plan, in full, and leaves every other model alone.
   */
  lemma NextEdit(update: Update, active: set<int>, table: Table, pricing: SyncData, states: States,
                 pricing': SyncData, states': States, n: string, f: Field)
    requires AppliedFrom(update, active, table, pricing, states, pricing', states')
    ensures var plan := PlanOf(update.ctx.inp, n);
            EditAt(NextInputs(update.ctx.inp, pricing', states'), n, f) ==
            if n in update.ctx.unavailable && plan.Some? && f in plan.value then Put(plan.value[f]) else Keep
  {
    var inp := update.ctx.inp;
    LandingKeepsPins(update, pricing, states, pricing', states');
    SamePlan(inp, states, pricing', states', n);
    ApplyLookup(pricing, update.patches, n, f);
    if n in update.ctx.unavailable {
      LostIsPatched(update, n);
    } else {
      EditBesideLost(update, n, f);
      if PlanOf(inp, n).Some? { EditSettles(Lookup(ColumnOf(pricing, n), f), Lookup(PlanOf(inp, n).value, f)); }
    }
  }

  lemma EditBesideLost(update: Update, n: string, f: Field)
    requires Proposes(update.ctx, update.patches) && n !in update.ctx.unavailable
    ensures EditIn(update.patches, n, f) == EditAt(update.ctx.inp, n, f)
  {
    var inp := update.ctx.inp;
    var order :| Elems(order) == update.ctx.unavailable && update.patches == RemoveAll(Build(inp).patches, order);
    assert n !in Elems(order);
    RemoveAllEdits(Build(inp).patches, order, n, f);
    BuildEdits(inp, n, f);
  }

  /** A lost model that gives the next run something to do: it stays lost, or it can be priced again. */
  ghost predicate Restless(ctx: Context, n: string) {
    && n in ctx.unavailable
    && (n == "" || (n in ctx.inp.preferences && ctx.inp.preferences[n].mode == Channel) || PlanOf(ctx.inp, n).Some?)
  }

  /** The model has an edit or a deletion in the proposal. */
  ghost predicate Busy(ctx: Context, n: string) {
    n in ctx.unavailable || exists f: Field :: EditAt(ctx.inp, n, f) != Keep
  }

  lemma ProposesNothing(update: Update)
    requires Proposes(update.ctx, update.patches)
    ensures update.patches == map[] <==> forall n :: !Busy(update.ctx, n)
  {
    var inp := update.ctx.inp;
    var order :| Elems(order) == update.ctx.unavailable && update.patches == RemoveAll(Build(inp).patches, order);
    ElemsEmpty(order);
    if order == [] {
      BuildsNothing(inp);
      BusyWithoutLost(update.ctx);
    } else {
      assert ModelRatio in update.patches;
      assert order[0] in Elems(order);
      assert Busy(update.ctx, order[0]);
    }
  }

  lemma BusyWithoutLost(ctx: Context)
    requires ctx.unavailable == {}
    ensures (forall n :: !Busy(ctx, n)) <==> forall n, f: Field :: EditAt(ctx.inp, n, f) == Keep
  {
    if forall n :: !Busy(ctx, n) {
      forall n, f: Field ensures EditAt(ctx.inp, n, f) == Keep { assert !Busy(ctx, n); }
    }
  }

  lemma BuildsNothing(inp: Inputs)
    ensures Build(inp).patches == map[] <==> forall n, f: Field :: EditAt(inp, n, f) == Keep
  {
    PatchesEmpty(EditsOf(inp), SortedNames(AllModels(inp.upstreams)));
    if Build(inp).patches == map[] {
      forall n, f: Field ensures EditAt(inp, n, f) == Keep { BuildEdits(inp, n, f); }
    }
  }

  /**
   The proposal that follows an applied update, from the same quotes and
   strategy, is empty if and only if the update had no restless lost model.
   */
  lemma NextProposalExactly(update: Update, active: set<int>, table: Table, pricing: SyncData, states: States,
                            pricing': SyncData, states': States, next: Update)
    requires AppliedFrom(update, active, table, pricing, states, pricing', states')
    requires next.ctx.inp == NextInputs(update.ctx.inp, pricing', states')
    requires next.ctx.unavailable == MissingModels(active, table, states') && Proposes(next.ctx, next.patches)
    ensures next.patches == map[] <==> forall n :: !Restless(update.ctx, n)
  {
    ProposesNothing(next);
    forall n ensures Restless(update.ctx, n) <==> Busy(next.ctx, n) {
      RestlessExactly(update, active, table, pricing, states, pricing', states', next.ctx, n);
    }
  }

  lemma RestlessExactly(update: Update, active: set<int>, table: Table, pricing: SyncData, states: States,
                        pricing': SyncData, states': States, next: Context, n: string)
    requires AppliedFrom(update, active, table, pricing, states, pricing', states')
    requires next.inp == NextInputs(update.ctx.inp, pricing', states') && next.unavailable == MissingModels(active, table, states')
    ensures Restless(update.ctx, n) <==> Busy(next, n)
  {
    var plan := PlanOf(update.ctx.inp, n);
    LostAfter(update, active, table, pricing, states, pricing', states', n);
    forall f: Field ensures EditAt(next.inp, n, f) ==
        if n in update.ctx.unavailable && plan.Some? && f in plan.value then Put(plan.value[f]) else Keep
    {
      NextEdit(update, active, table, pricing, states, pricing', states', n, f);
    }
    if n in update.ctx.unavailable && plan.Some? {
      PlanNonEmpty(update.ctx.inp, n);
      var f :| f in plan.value.Keys;
      assert EditAt(next.inp, n, f) != Keep;
    }
  }

  /** A lost model that has a plan is deleted everywhere, and in the next run set again in every field of that plan. */
  lemma DeletedThenPriced(update: Update, active: set<int>, table: Table, pricing: SyncData, states: States,
                          pricing': SyncData, states': States, n: string)
    requires AppliedFrom(update, active, table, pricing, states, pricing', states')
    requires n in update.ctx.unavailable && PlanOf(update.ctx.inp, n).Some?
    ensures ColumnOf(pricing', n) == map[]
    ensures forall f :: f in PlanOf(update.ctx.inp, n).value ==>
      EditAt(NextInputs(update.ctx.inp, pricing', states'), n, f) == Put(PlanOf(update.ctx.inp, n).value[f])
  {
    LostIsPatched(update, n);
    forall f: Field ensures Lookup(ColumnOf(pricing', n), f) == None {
      ApplyLookup(pricing, update.patches, n, f);
    }
    ColumnExtensional(ColumnOf(pricing', n), map[]);
    forall f | f in PlanOf(update.ctx.inp, n).value
      ensures EditAt(NextInputs(update.ctx.inp, pricing', states'), n, f) == Put(PlanOf(update.ctx.inp, n).value[f])
    {
      NextEdit(update, active, table, pricing, states, pricing', states', n, f);
    }
  }

  // ---------- A lost model that comes back ----------

  const TWO_SOURCES := {1, 2}

  /** Confirmed at the second source, missing twice at the first. */
  function HalfLost(n: string, c: Column): Table {
    map[Key(1, n) := Quote(c, 0, 2, 0), Key(2, n) := Quote(c, 2, 0, 0)]
  }

  /**
   A general model priced from two active sources, one of which has dropped it:
   the run finds it lost and yet has a plan for it, so an applied update deletes
   it everywhere and the one after sets its price again.
   */
  lemma LostModelReturns(n: string, price: real, sources: seq<Source>, world: World, strategy: Strategy, at: int)
    requires price >= 0.0 && |sources| == 2 && sources[0].channelID == 1 && sources[1].channelID == 2
    requires Active(world, 0, sources[0]) && Active(world, 1, sources[1])
    ensures var c: Column := map[ModelPrice := Num(price)];
            var states: States := map[n := ModelState(Preference(General, 0), Some([1, 2]), Ready, NoDetails, at)];
            var ctx := ContextOf(sources, HalfLost(n, c), map[ModelPrice := map[n := Num(price)]], states, strategy, world);
            n in ctx.unavailable && ctx.inp.ids == [2] && PlanOf(ctx.inp, n) == Some(c)
  {
    var c: Column := map[ModelPrice := Num(price)];
    var table := HalfLost(n, c);
    var states: States := map[n := ModelState(Preference(General, 0), Some([1, 2]), Ready, NoDetails, at)];
    BothActive(sources, world);
    assert 1 in [1, 2] && MissingFrom(TWO_SOURCES, table, 1, n);
    NothingConfirmed(n, c);
    SecondConfirmed(n, c);
    SecondContributes(sources, table);
    LonePlan(Snapshots(table, [2]), n, c, price, Preferences(states), strategy);
  }

  lemma BothActive(sources: seq<Source>, world: World)
    requires |sources| == 2 && sources[0].channelID == 1 && sources[1].channelID == 2
    requires Active(world, 0, sources[0]) && Active(world, 1, sources[1])
    ensures ActiveIds(sources, world) == TWO_SOURCES
  {
    assert 1 in ActiveIds(sources, world) && 2 in ActiveIds(sources, world);
  }

  lemma SecondConfirmed(n: string, c: Column)
    requires ModelPrice in c
    ensures Snapshot(HalfLost(n, c), 2) != map[] && ColumnOf(Snapshot(HalfLost(n, c), 2), n) == c
  {
    SnapshotColumn(HalfLost(n, c), 2, n);
    assert ModelPrice in ColumnOf(Snapshot(HalfLost(n, c), 2), n);
  }

  lemma SecondContributes(sources: seq<Source>, table: Table)
    requires |sources| == 2 && sources[0].channelID == 1 && sources[1].channelID == 2
    requires sources[1].enabled && sources[1].interval != 0 && Snapshot(table, 1) == map[] && Snapshot(table, 2) != map[]
    ensures Contributing(sources, table, TWO_SOURCES) == [2]
  {
    var front := sources[..1];
    assert front[..0] == [] && Contributing(front, table, TWO_SOURCES) == [];
  }

  lemma NothingConfirmed(n: string, c: Column)
    ensures Snapshot(HalfLost(n, c), 1) == map[]
  {
    var table := HalfLost(n, c);
    forall f: Field ensures SnapshotField(table, 1, f) == map[] {
      forall m ensures m !in SnapshotField(table, 1, f) {
        assert Key(1, m) in table ==> m == n;
      }
    }
  }

  lemma LonePlan(upstreams: seq<SyncData>, n: string, c: Column, price: real, preferences: map<string, Preference>, strategy: Strategy)
    requires |upstreams| == 1 && ColumnOf(upstreams[0], n) == c == map[ModelPrice := Num(price)] && price >= 0.0
    requires n in preferences ==> preferences[n].mode == General
    ensures PlanOf(Inputs(map[], upstreams, [2], preferences, strategy), n) == Some(c)
  {
    assert ColumnsOf(upstreams, n) == [c];
    FilterOne(c, (x: Column) => CategoryOf(x) != NoCategory);
    LoneTarget(c, price, strategy);
  }

  lemma LoneTarget(c: Column, price: real, strategy: Strategy)
    requires c == map[ModelPrice := Num(price)] && price >= 0.0
    ensures CategoryOf(c) == Price && Target([c], strategy) == Some(c)
  {
    assert c in [c];
    MergeSingle(c, Price, strategy);
    assert AsColumn(LanesOf(c, Price)) == c;
  }

  // ---------- Consecutive runs ----------

  /** The sources as a completed fetch loop leaves them. */
  function SourcesOf(sources: seq<Source>, world: World): (r: seq<Source>)
    ensures |r| == |sources| && forall i :: 0 <= i < |r| ==> r[i] == SourceAfter(world, i, sources[i])
  {
    seq(|sources|, i requires 0 <= i < |sources| => SourceAfter(world, i, sources[i]))
  }

  /** The second run is clean and finds the same sources active. */
  ghost predicate QuietAfter(sources: seq<Source>, first: World, second: World) {
    var after := SourcesOf(sources, first);
    Clean(after, second) && ActiveIds(after, second) == ActiveIds(sources, first)
  }

  /** Every source that is fetched in the second run repeats its last two answers. */
  ghost predicate NothingNew(events: seq<Event>, sources: seq<Source>, first: World, second: World, smoke: Smoke) {
    AllRepeat(events + NewEvents(sources, first), NewEvents(SourcesOf(sources, first), second), smoke)
  }

  /** What a run works from depends on the standing of the quotes only. */
  lemma SameContext(sources: seq<Source>, a: Table, b: Table, pricing: SyncData, states: States, strategy: Strategy, world: World)
    requires SameStanding(a, b)
    ensures ContextOf(sources, a, pricing, states, strategy, world) == ContextOf(sources, b, pricing, states, strategy, world)
  {
    var active := ActiveIds(sources, world);
    forall id ensures Snapshot(a, id) == Snapshot(b, id) { SameSnapshot(a, b, id); }
    SameSources(sources, a, b, active);
    SameMissing(active, a, b, states);
  }

  lemma {:induction false} SameSources(sources: seq<Source>, a: Table, b: Table, active: set<int>)
    requires forall id :: Snapshot(a, id) == Snapshot(b, id)
    ensures Contributing(sources, a, active) == Contributing(sources, b, active)
  {
    if sources != [] { SameSources(sources[..|sources| - 1], a, b, active); }
  }

  lemma SameMissing(active: set<int>, a: Table, b: Table, states: States)
    requires SameStanding(a, b)
    ensures MissingModels(active, a, states) == MissingModels(active, b, states)
  {
    forall id, n ensures MissingFrom(active, a, id, n) <==> MissingFrom(active, b, id, n) {
      assert Standing(At(a, Key(id, n))) == Standing(At(b, Key(id, n)));
    }
  }

  lemma {:induction false} SameContributing(sources: seq<Source>, sources': seq<Source>, table: Table, active: set<int>)
    requires |sources| == |sources'|
    requires forall i :: 0 <= i < |sources| ==>
      sources[i].channelID == sources'[i].channelID && sources[i].enabled == sources'[i].enabled && sources[i].interval == sources'[i].interval
    ensures Contributing(sources, table, active) == Contributing(sources', table, active)
  {
    if sources != [] {
      SameContributing(sources[..|sources| - 1], sources'[..|sources| - 1], table, active);
    }
  }

  /** Proposals from the same inputs and lost models are the same candidate, whatever the order of deletes. */
  lemma SameCandidate(a: Update, b: Update)
    requires a.ctx.inp == b.ctx.inp && a.ctx.unavailable == b.ctx.unavailable
    requires Proposes(a.ctx, a.patches) && Proposes(b.ctx, b.patches)
    ensures CandidateFor(a) == CandidateFor(b)
    ensures forall data :: Apply(data, a.patches) == Apply(data, b.patches)
  {
    var built := Build(a.ctx.inp).patches;
    var x :| Elems(x) == a.ctx.unavailable && a.patches == RemoveAll(built, x);
    var y :| Elems(y) == b.ctx.unavailable && b.patches == RemoveAll(built, y);
    SamePatchesByOrder(built, x, y);
    var names := SourceNames(a.ctx.inp.ids);
    CanonicalExactly(names, a.patches, names, b.patches);
    forall data ensures Apply(data, a.patches) == Apply(data, b.patches) {
      CanonicalEffect(names, a.patches, names, b.patches, data);
    }
  }

  lemma SamePatchesByOrder(built: map<Field, Patch>, x: seq<string>, y: seq<string>)
    requires Elems(x) == Elems(y)
    ensures SamePatches(RemoveAll(built, x), RemoveAll(built, y))
  {
    ElemsEmpty(x);
    ElemsEmpty(y);
    assert forall n :: n in x <==> n in Elems(x);
    assert forall n :: n in y <==> n in Elems(y);
    assert Gone(x) == Gone(y);
  }

  // ---------- Progress ----------

  /** From the same quotes, unchanged prices and states that differ in marks only, the same update is proposed. */
  lemma ProposedAgain(sources: seq<Source>, w1: World, w2: World, table: Table, pricing: SyncData, states: States,
                      strategy: Strategy, a: Update, b: Update)
    requires QuietAfter(sources, w1, w2)
    requires a.ctx == ContextOf(sources, table, pricing, states, strategy, w1)
    requires b.ctx == ContextOf(SourcesOf(sources, w1), table, pricing, StatesMarked(sources, w1, states), strategy, w2)
    requires Proposes(a.ctx, a.patches) && Proposes(b.ctx, b.patches)
    ensures CandidateFor(a) == CandidateFor(b)
    ensures forall data :: Apply(data, a.patches) == Apply(data, b.patches)
  {
    var active := ActiveIds(sources, w1);
    SameContributing(sources, SourcesOf(sources, w1), table, active);
    MarkStaleKeeps(active, table, states, StaleIds(sources, w1));
    SameCandidate(a, b);
  }

  lemma AfterIs(sources: seq<Source>, world: World, sources': seq<Source>)
    requires SourcesAfter(sources, world, |sources|, sources')
    ensures sources' == SourcesOf(sources, world)
  {
  }

  lemma QuietInputs(sources: seq<Source>, w1: World, w2: World, table: Table, pricing: SyncData, states: States,
                    pricing': SyncData, states': States, strategy: Strategy)
    requires QuietAfter(sources, w1, w2)
    ensures ContextOf(SourcesOf(sources, w1), table, pricing', states', strategy, w2).inp ==
            NextInputs(ContextOf(sources, table, pricing, states, strategy, w1).inp, pricing', states')
  {
    SameContributing(sources, SourcesOf(sources, w1), table, ActiveIds(sources, w1));
  }

  /** Two reports of consecutive runs from quotes that stand the same. */
  ghost predicate Consecutive(sources: seq<Source>, w1: World, w2: World, table: Table, strategy: Strategy,
                              pricing: SyncData, states: States, first: Report,
                              pricing1: SyncData, states1: States, second: Report, pricing2: SyncData)
  {
    && first.proposal.Some? && second.proposal.Some?
    && first.proposal.value.ctx == ContextOf(sources, table, pricing, states, strategy, w1)
    && second.proposal.value.ctx == ContextOf(SourcesOf(sources, w1), table, pricing1, states1, strategy, w2)
    && Proposes(first.proposal.value.ctx, first.proposal.value.patches)
    && Proposes(second.proposal.value.ctx, second.proposal.value.patches)
    && (first.applied ==> Lands(first.proposal.value, pricing, states, pricing1, states1))
    && (!first.applied ==> pricing1 == pricing && states1 == StatesMarked(sources, w1, states))
    && (second.applied ==> pricing2 == Apply(pricing1, second.proposal.value.patches))
    && (first.ok ==> Carried(first) == CandidateFor(first.proposal.value))
    && Decides(second, second.proposal.value, Carried(first), w2.writable)
  }

  lemma SecondApplies(sources: seq<Source>, w1: World, w2: World, table: Table, strategy: Strategy, pricing: SyncData, states: States,
                      first: Report, pricing1: SyncData, states1: States, second: Report, pricing2: SyncData)
    requires QuietAfter(sources, w1, w2) && w2.writable
    requires Consecutive(sources, w1, w2, table, strategy, pricing, states, first, pricing1, states1, second, pricing2)
    requires !first.applied && first.ok && first.proposal.value.patches != map[]
    ensures second.applied && pricing2 == Apply(pricing, first.proposal.value.patches)
  {
    ProposedAgain(sources, w1, w2, table, pricing, states, strategy, first.proposal.value, second.proposal.value);
  }

  lemma SecondRests(sources: seq<Source>, w1: World, w2: World, table: Table, strategy: Strategy, pricing: SyncData, states: States,
                    first: Report, pricing1: SyncData, states1: States, second: Report, pricing2: SyncData)
    requires QuietAfter(sources, w1, w2) && first.applied
    requires Consecutive(sources, w1, w2, table, strategy, pricing, states, first, pricing1, states1, second, pricing2)
    ensures second.proposal.value.patches == map[] <==> forall n :: !Restless(first.proposal.value.ctx, n)
  {
    QuietInputs(sources, w1, w2, table, pricing, states, pricing1, states1, strategy);
    NextProposalExactly(first.proposal.value, ActiveIds(sources, w1), table, pricing, states, pricing1, states1, second.proposal.value);
  }

  /** What a successful run hands on is its own candidate. */
  lemma CarriedFirst(log: seq<Report>, report: Report)
    requires AllHonest(log) && log != [] && report == log[|log| - 1]
    ensures Before(log, |log|) == Carried(report)
    ensures report.ok ==> report.proposal.Some? && Carried(report) == CandidateFor(report.proposal.value)
  {
    assert HonestAt(log, |log| - 1);
  }

  method RunBoth(sync: PricingSync, w1: World, w2: World)
    returns (first: Report, second: Report, ghost table: Table, ghost pricing1: SyncData, ghost states1: States)
    requires sync.Valid() && Clean(sync.sources, w1) && QuietAfter(sync.sources, w1, w2)
    requires NothingNew(sync.events, sync.sources, w1, w2, sync.smoke)
    modifies sync, sync.store
    ensures sync.Valid() && sync.log == old(sync.log) + [first, second] && sync.strategy == old(sync.strategy)
    ensures Consecutive(old(sync.sources), w1, w2, table, sync.strategy, old(sync.pricing), old(sync.states),
                        first, pricing1, states1, second, sync.pricing)
  {
    first := sync.RunTask(w1);
    ghost var events := sync.events;
    table, pricing1, states1 := sync.store.quotes, sync.pricing, sync.states;
    AfterIs(old(sync.sources), w1, sync.sources);
    CarriedFirst(sync.log, first);
    second := sync.RunTask(w2);
    TablesSettled(table, events, sync.store.quotes, NewEvents(SourcesOf(old(sync.sources), w1), w2), sync.smoke);
    SameContext(SourcesOf(old(sync.sources), w1), table, sync.store.quotes, pricing1, states1, sync.strategy, w2);
    assert sync.log == old(sync.log) + [first, second];
  }

  /**
   Two clean runs of which the second finds the same sources active and is told
   nothing new: what is fetched again repeats the last two answers. Progress: a patch the first proposed without applying is applied by
   the second, if that can write. Rest: after a first run that was applied, the
   second proposes nothing exactly when the first had no restless lost model.
   */
  method RunTwice(sync: PricingSync, w1: World, w2: World) returns (first: Report, second: Report)
    requires sync.Valid() && Clean(sync.sources, w1) && QuietAfter(sync.sources, w1, w2)
    requires NothingNew(sync.events, sync.sources, w1, w2, sync.smoke)
    modifies sync, sync.store
    ensures sync.Valid() && sync.log == old(sync.log) + [first, second]
    ensures first.proposal.Some? && second.proposal.Some?
    ensures !first.applied && first.ok && first.proposal.value.patches != map[] && w2.writable ==>
      second.applied && sync.pricing == Apply(old(sync.pricing), first.proposal.value.patches)
    ensures first.applied ==>
      (second.proposal.value.patches == map[] <==> forall n :: !Restless(first.proposal.value.ctx, n))
  {
    ghost var table, pricing1, states1;
    first, second, table, pricing1, states1 := RunBoth(sync, w1, w2);
    if first.applied {
      SecondRests(old(sync.sources), w1, w2, table, sync.strategy, old(sync.pricing), old(sync.states),
                  first, pricing1, states1, second, sync.pricing);
    } else if first.ok && first.proposal.value.patches != map[] && w2.writable {
      SecondApplies(old(sync.sources), w1, w2, table, sync.strategy, old(sync.pricing), old(sync.states),
                    first, pricing1, states1, second, sync.pricing);
    }
  }
}
