/**
 One scheduled sync run, and the sequence of runs: fetch what is due, rebuild
 the proposal from durable quotes, and apply it only when the run before it
 proposed the same thing.
 */
module SyncRun {
  import opened Names
  import opened PricingData
  import opened PriceMerge
  import opened Patches
  import opened PatchBuilder
  import opened Quotes
  import opened SyncStates

  // ---------- The candidate of a run ----------

  /** The canonical value that is encoded and hashed; equal candidates stand for equal hashes. */
  datatype Candidate = Candidate(sources: seq<string>, patches: map<Field, Patch>)

  ghost function Canonical(sources: seq<string>, patches: map<Field, Patch>): Candidate {
    Candidate(Sort(sources), map f | f in patches :: Patch(patches[f].sets, SortedNames(Elems(patches[f].deletes))))
  }

  ghost predicate SamePatches(p: map<Field, Patch>, q: map<Field, Patch>) {
    p.Keys == q.Keys && forall f :: f in p ==> p[f].sets == q[f].sets && Elems(p[f].deletes) == Elems(q[f].deletes)
  }

  /** Two proposals have the same candidate exactly when only source order, delete order or repeated deletes differ. */
  lemma CanonicalExactly(s: seq<string>, p: map<Field, Patch>, t: seq<string>, q: map<Field, Patch>)
    ensures Canonical(s, p) == Canonical(t, q) <==> multiset(s) == multiset(t) && SamePatches(p, q)
  {
    var cp, cq := Canonical(s, p), Canonical(t, q);
    if cp == cq {
      assert multiset(Sort(s)) == multiset(Sort(t));
      assert cp.patches.Keys == p.Keys && cq.patches.Keys == q.Keys;
      forall f | f in p ensures p[f].sets == q[f].sets && Elems(p[f].deletes) == Elems(q[f].deletes) {
        assert cp.patches[f] == cq.patches[f];
        assert Elems(cp.patches[f].deletes) == Elems(p[f].deletes);
        assert Elems(cq.patches[f].deletes) == Elems(q[f].deletes);
      }
    }
    if multiset(s) == multiset(t) && SamePatches(p, q) {
      SortSorted(s);
      SortSorted(t);
      SortedUnique(Sort(s), Sort(t));
      assert cp.patches == cq.patches;
    }
  }

  /** What was confirmed is what gets applied: proposals with one candidate have one effect. */
  lemma CanonicalEffect(s: seq<string>, p: map<Field, Patch>, t: seq<string>, q: map<Field, Patch>, data: SyncData)
    requires Canonical(s, p) == Canonical(t, q)
    ensures Apply(data, p) == Apply(data, q)
  {
    CanonicalExactly(s, p, t, q);
    forall f | f in p ensures ApplyPatch(TableOf(data, f), p[f]) == ApplyPatch(TableOf(data, f), q[f]) {
      assert (set n | n in p[f].deletes) == Elems(p[f].deletes) == Elems(q[f].deletes) == (set n | n in q[f].deletes);
    }
  }

  method DedupeSorted(deletes: seq<string>) returns (unique: seq<string>)
    requires Sorted(deletes)
    ensures unique == SortedNames(Elems(deletes))
  {
    unique := [];
    for i := 0 to |deletes|
      invariant Elems(unique) == Elems(deletes[..i])
      invariant Ascending(unique)
      invariant unique != [] ==> i > 0 && unique[|unique| - 1] == deletes[i - 1]
    {
      assert deletes[..i + 1] == deletes[..i] + [deletes[i]];
      assert Elems(deletes[..i + 1]) == Elems(deletes[..i]) + {deletes[i]};
      if unique == [] || unique[|unique| - 1] != deletes[i] {
        forall k | 0 <= k < |unique| ensures Below(unique[k], deletes[i]) {
          var last := unique[|unique| - 1];
          BelowTotal(last, deletes[i]);
          assert !Below(deletes[i], deletes[i - 1]);
          if k < |unique| - 1 { BelowTrans(unique[k], last, deletes[i]); }
        }
        assert Elems(unique + [deletes[i]]) == Elems(unique) + {deletes[i]};
        unique := unique + [deletes[i]];
      } else {
        assert deletes[i] in Elems(unique);
      }
    }
    assert deletes[..|deletes|] == deletes;
    AscendingUnique(unique, SortedNames(Elems(deletes)));
  }

  /** pricingCandidateHash, up to the injective encoding */
  method CandidateOf(sources: seq<string>, patches: map<Field, Patch>) returns (c: Candidate)
    ensures c == Canonical(sources, patches)
  {
    var canonical: map<Field, Patch> := map[];
    var keys := Keys(patches.Keys);
    assert forall f :: f in keys <==> f in Elems(keys);
    for i := 0 to |keys|
      invariant forall f :: f in canonical <==> f in keys[..i]
      invariant forall f :: f in canonical ==> f in patches && canonical[f] == Canonical(sources, patches).patches[f]
    {
      var key := keys[i];
      assert keys[..i + 1] == keys[..i] + [key];
      var sorted := Sort(patches[key].deletes);
      SortSorted(patches[key].deletes);
      MultisetMember(sorted, patches[key].deletes);
      assert Elems(sorted) == Elems(patches[key].deletes);
      var unique := DedupeSorted(sorted);
      canonical := canonical[key := Patch(patches[key].sets, unique)];
    }
    assert keys[..|keys|] == keys;
    c := Candidate(Sort(sources), canonical);
    assert canonical == Canonical(sources, patches).patches;
  }

  // ---------- Runs ----------

  datatype Source = Source(channelID: int, enabled: bool, interval: nat, lastAttempt: int, failing: bool)

  /**
   The configuration changed or storage failed, and the run stops at once:
   Refused when the attempt itself could not be noted, Interrupted later.
   */
  datatype Outcome = Refused | Interrupted | BadTarget | FetchFailed | Fetched(fetch: Fetch)

  /**
   What a run meets outside: the clock, channels that are enabled, responses,
   cancellation, and whether the stale marks can be written, the stored quotes
   and states read after that, and the update written.
   */
  datatype World = World(
    now: int, enabledChannels: set<int>, responses: map<int, Outcome>, cancelledFrom: Option<nat>,
    markable: bool, readable: bool, writable: bool)

  datatype Update = Update(ctx: Context, patches: map<Field, Patch>)

  datatype Report = Report(ok: bool, failed: nat, proposal: Option<Update>, candidate: Option<Candidate>, applied: bool)

  function Response(world: World, channelID: int): Outcome {
    if channelID in world.responses then world.responses[channelID] else FetchFailed
  }

  // ---------- One source's turn ----------

  /** The run is not yet cancelled and the source is configured. */
  predicate Listed(world: World, i: nat, source: Source) {
    !(world.cancelledFrom.Some? && i >= world.cancelledFrom.value) && source.enabled && source.interval != 0
  }

  predicate Active(world: World, i: nat, source: Source) {
    Listed(world, i, source) && (source.channelID > 0 ==> source.channelID in world.enabledChannels)
  }

  predicate Due(world: World, i: nat, source: Source) {
    Active(world, i, source) && !(source.lastAttempt > 0 && world.now - source.lastAttempt < source.interval)
  }

  predicate Interrupts(world: World, i: nat, source: Source) {
    Due(world, i, source) && (Response(world, source.channelID).Refused? || Response(world, source.channelID).Interrupted?)
  }

  predicate Fails(world: World, i: nat, source: Source) {
    Due(world, i, source) && (Response(world, source.channelID).BadTarget? || Response(world, source.channelID).FetchFailed?)
  }

  /** A source is stale when its channel is off, when it just failed, or when it was not due and failed last time. */
  predicate StaleAfter(world: World, i: nat, source: Source) {
    && Listed(world, i, source)
    && (if Due(world, i, source) then Fails(world, i, source) else !Active(world, i, source) || source.failing)
  }

  function SourceAfter(world: World, i: nat, source: Source): Source {
    if Due(world, i, source) then source.(lastAttempt := world.now, failing := Fails(world, i, source)) else source
  }

  /** The source at which the run stops: stamped, unless the stamp was what failed. */
  function SourceStopped(world: World, source: Source): Source {
    if Response(world, source.channelID).Refused? then source else source.(lastAttempt := world.now)
  }

  function EventsOf(world: World, i: nat, source: Source): seq<Event> {
    if Due(world, i, source) && Response(world, source.channelID).Fetched?
    then [Event(source.channelID, Response(world, source.channelID).fetch, world.now)] else []
  }

  ghost predicate TakesTurn(world: World, i: nat, source: Source, failed: nat, active: set<int>, stale: set<int>,
                            failed': nat, active': set<int>, stale': set<int>)
  {
    var own := {source.channelID};
    && failed' == failed + (if Fails(world, i, source) then 1 else 0)
    && active' == active + (if Active(world, i, source) then own else {})
    && stale' == stale + (if StaleAfter(world, i, source) then own else {})
  }

  // ---------- The turns of all sources ----------

  function ActiveIds(sources: seq<Source>, world: World): set<int> {
    set i | 0 <= i < |sources| && Active(world, i, sources[i]) :: sources[i].channelID
  }

  function StaleIds(sources: seq<Source>, world: World): set<int> {
    set i | 0 <= i < |sources| && StaleAfter(world, i, sources[i]) :: sources[i].channelID
  }

  function NewEvents(sources: seq<Source>, world: World): seq<Event> {
    if sources == [] then []
    else NewEvents(sources[..|sources| - 1], world) + EventsOf(world, |sources| - 1, sources[|sources| - 1])
  }

  function Failures(sources: seq<Source>, world: World): nat {
    if sources == [] then 0
    else Failures(sources[..|sources| - 1], world) + if Fails(world, |sources| - 1, sources[|sources| - 1]) then 1 else 0
  }

  predicate Undisturbed(sources: seq<Source>, world: World) {
    forall i :: 0 <= i < |sources| ==> !Interrupts(world, i, sources[i])
  }

  ghost predicate SourcesAfter(sources: seq<Source>, world: World, k: nat, sources': seq<Source>) {
    && |sources'| == |sources|
    && forall i :: 0 <= i < |sources| ==> sources'[i] == if i < k then SourceAfter(world, i, sources[i]) else sources[i]
  }

  /** Nothing went wrong before the proposal. */
  predicate Clean(sources: seq<Source>, world: World) {
    && Undisturbed(sources, world) && world.cancelledFrom.None? && world.markable
    && Failures(sources, world) == 0 && world.readable
  }

  function ChannelIDs(sources: seq<Source>): seq<int> {
    Map(sources, (s: Source) => s.channelID)
  }

  /** One more source: its own turn decides its own membership, because the ids are distinct. */
  lemma TurnSnoc(sources: seq<Source>, world: World, source: Source)
    requires source.channelID !in ChannelIDs(sources)
    ensures var all := sources + [source];
            var own := {source.channelID};
            && ActiveIds(all, world) == ActiveIds(sources, world) + (if Active(world, |sources|, source) then own else {})
            && StaleIds(all, world) == StaleIds(sources, world) + (if StaleAfter(world, |sources|, source) then own else {})
            && source.channelID !in StaleIds(sources, world)
            && NewEvents(all, world) == NewEvents(sources, world) + EventsOf(world, |sources|, source)
            && Failures(all, world) == Failures(sources, world) + (if Fails(world, |sources|, source) then 1 else 0)
  {
    var all := sources + [source];
    assert all[..|sources|] == sources;
    assert all[|sources|] == source;
    assert forall i :: 0 <= i < |sources| ==> all[i] == sources[i];
    ActiveSnoc(sources, world, source);
    StaleSnoc(sources, world, source);
  }

  ghost predicate Tallied(sources: seq<Source>, world: World, failed: nat, active: set<int>, stale: set<int>) {
    failed == Failures(sources, world) && active == ActiveIds(sources, world) && stale == StaleIds(sources, world)
  }

  lemma Turn(sources: seq<Source>, world: World, i: nat, failed: nat, active: set<int>, stale: set<int>)
    requires i < |sources| && Distinct(ChannelIDs(sources)) && Tallied(sources[..i], world, failed, active, stale)
    ensures sources[i].channelID !in stale
    ensures NewEvents(sources[..i + 1], world) == NewEvents(sources[..i], world) + EventsOf(world, i, sources[i])
    ensures forall failed', active', stale' ::
      TakesTurn(world, i, sources[i], failed, active, stale, failed', active', stale') ==>
      Tallied(sources[..i + 1], world, failed', active', stale')
  {
    assert sources[..i + 1] == sources[..i] + [sources[i]];
    assert ChannelIDs(sources[..i]) == ChannelIDs(sources)[..i];
    TurnSnoc(sources[..i], world, sources[i]);
  }

  /** The fetch loop after its first k sources. */
  ghost predicate SweptTo(loaded: seq<Source>, world: World, k: nat, sources: seq<Source>, start: seq<Event>, events: seq<Event>,
                          failed: nat, active: set<int>, stale: set<int>)
    requires k <= |loaded|
  {
    && SourcesAfter(loaded, world, k, sources)
    && events == start + NewEvents(loaded[..k], world)
    && Tallied(loaded[..k], world, failed, active, stale)
    && forall i :: 0 <= i < k ==> !Interrupts(world, i, loaded[i])
  }

  /** The fetch loop was left at the first interrupting source; the sources before it had their turns. */
  ghost predicate StoppedAt(loaded: seq<Source>, world: World, k: nat, sources: seq<Source>, start: seq<Event>, events: seq<Event>) {
    && k < |loaded| && Interrupts(world, k, loaded[k]) && (forall i :: 0 <= i < k ==> !Interrupts(world, i, loaded[i]))
    && |sources| == |loaded| && SourcesAfter(loaded, world, k, sources[k := loaded[k]])
    && sources[k] == SourceStopped(world, loaded[k])
    && events == start + NewEvents(loaded[..k], world)
  }

  lemma SweptStep(loaded: seq<Source>, world: World, k: nat, sources: seq<Source>, sources': seq<Source>,
                  start: seq<Event>, events: seq<Event>, events': seq<Event>, failed: nat, active: set<int>, stale: set<int>)
    requires k < |loaded| && SourcesAfter(loaded, world, k, sources) && events == start + NewEvents(loaded[..k], world)
    requires forall i :: 0 <= i < k ==> !Interrupts(world, i, loaded[i])
    requires !Interrupts(world, k, loaded[k]) && Tallied(loaded[..k + 1], world, failed, active, stale)
    requires sources' == sources[k := SourceAfter(world, k, loaded[k])]
    requires events' == events + EventsOf(world, k, loaded[k])
    requires NewEvents(loaded[..k + 1], world) == NewEvents(loaded[..k], world) + EventsOf(world, k, loaded[k])
    ensures SweptTo(loaded, world, k + 1, sources', start, events', failed, active, stale)
  {
    ConcatAssoc(start, NewEvents(loaded[..k], world), EventsOf(world, k, loaded[k]));
  }

  lemma ActiveSnoc(sources: seq<Source>, world: World, source: Source)
    ensures ActiveIds(sources + [source], world) ==
            ActiveIds(sources, world) + (if Active(world, |sources|, source) then {source.channelID} else {})
  {
    var all := sources + [source];
    forall id ensures id in ActiveIds(all, world) <==>
        id in ActiveIds(sources, world) || (Active(world, |sources|, source) && id == source.channelID)
    {
      if id in ActiveIds(sources, world) {
        var i :| 0 <= i < |sources| && Active(world, i, sources[i]) && sources[i].channelID == id;
        assert all[i] == sources[i];
      }
      assert all[|sources|] == source;
    }
  }

  lemma StaleSnoc(sources: seq<Source>, world: World, source: Source)
    ensures StaleIds(sources + [source], world) ==
            StaleIds(sources, world) + (if StaleAfter(world, |sources|, source) then {source.channelID} else {})
  {
    var all := sources + [source];
    forall id ensures id in StaleIds(all, world) <==>
        id in StaleIds(sources, world) || (StaleAfter(world, |sources|, source) && id == source.channelID)
    {
      if id in StaleIds(sources, world) {
        var i :| 0 <= i < |sources| && StaleAfter(world, i, sources[i]) && sources[i].channelID == id;
        assert all[i] == sources[i];
      }
      assert all[|sources|] == source;
    }
  }

  function SourceNames(ids: seq<int>): seq<string> {
    Map(ids, (id: int) => Itoa(id))
  }

  /** The source's last two sightings of the model since any absence are this contract. */
  ghost predicate TwiceSighted(events: seq<Event>, smoke: Smoke, channelID: int, name: string, contract: Column) {
    var sighted := Sighted(AfterLastMissing(History(events, Key(channelID, name), smoke)));
    |sighted| >= 2 && sighted[|sighted| - 1] == sighted[|sighted| - 2] == contract
  }

  /** The proposal is built from twice-sighted contracts only, and deletes lost models only. */
  ghost predicate Sound(update: Update, events: seq<Event>, smoke: Smoke) {
    var inp := update.ctx.inp;
    && |inp.ids| == |inp.upstreams| && Distinct(inp.ids)
    && Proposes(update.ctx, update.patches)
    && AllTwiceSighted(inp.upstreams, inp.ids, events, smoke)
  }

  ghost function CandidateFor(update: Update): Option<Candidate> {
    if update.patches == map[] then None
    else Some(Canonical(SourceNames(update.ctx.inp.ids), update.patches))
  }

  /** What one run guarantees, given the candidate of the run before. */
  ghost predicate Honest(report: Report, previous: Option<Candidate>) {
    && (report.ok ==> report.failed == 0)
    && (report.candidate.Some? ==> report.proposal.Some?)
    && (report.ok ==> report.proposal.Some? && report.candidate == CandidateFor(report.proposal.value))
    && (report.applied ==> report.ok)
    && (report.ok && report.candidate.Some? && report.candidate == previous ==> report.applied)
    && (ChangesPrices(report) ==> report.candidate == previous)
  }

  ghost predicate ChangesPrices(report: Report) {
    report.applied && report.proposal.Some? && report.proposal.value.patches != map[]
  }

  /**
   The two-run gate over a whole history: whenever a non-empty patch was
   applied, no fetch failed in that run, and the run just before it succeeded
   and proposed the same candidate.
   */
  ghost predicate Gated(log: seq<Report>) {
    forall i :: 0 <= i < |log| && ChangesPrices(log[i]) ==>
      && log[i].ok && log[i].failed == 0
      && i > 0 && log[i - 1].ok && log[i - 1].proposal.Some?
      && log[i - 1].candidate == log[i].candidate == CandidateFor(log[i].proposal.value)
  }

  /** The hash the handler hands to the next run. */
  function Carried(report: Report): Option<Candidate> {
    if report.ok && report.failed == 0 then report.candidate else None
  }

  function Before(log: seq<Report>, i: nat): Option<Candidate>
    requires i <= |log|
  {
    if i == 0 then None else Carried(log[i - 1])
  }

  ghost predicate HonestAt(log: seq<Report>, i: nat)
    requires i < |log|
  {
    Honest(log[i], Before(log, i))
  }

  ghost predicate AllHonest(log: seq<Report>) {
    forall i :: 0 <= i < |log| ==> HonestAt(log, i)
  }

  lemma HonestSnoc(log: seq<Report>, report: Report)
    requires AllHonest(log) && Honest(report, Before(log, |log|))
    ensures AllHonest(log + [report])
  {
    forall i | 0 <= i < |log + [report]| ensures HonestAt(log + [report], i) {
      if i < |log| { HonestPrefix(log, report, i); }
    }
  }

  lemma HonestPrefix(log: seq<Report>, report: Report, i: nat)
    requires i < |log| && HonestAt(log, i)
    ensures HonestAt(log + [report], i)
  {
    var all := log + [report];
    assert all[i] == log[i] && Before(all, i) == Before(log, i);
  }

  /** Runs that are honest one by one are gated as a sequence. */
  lemma HonestRunsAreGated(log: seq<Report>)
    requires AllHonest(log)
    ensures Gated(log)
  {
    forall i | 0 <= i < |log| && ChangesPrices(log[i])
      ensures && log[i].ok && log[i].failed == 0
              && i > 0 && log[i - 1].ok && log[i - 1].proposal.Some?
              && log[i - 1].candidate == log[i].candidate == CandidateFor(log[i].proposal.value)
    {
      assert HonestAt(log, i);
      if i > 0 { assert HonestAt(log, i - 1); }
    }
  }

  /** Gated means repeated: the run before proposed the same patch, up to delete order, from the same sources. */
  lemma GateRepeats(log: seq<Report>, i: nat)
    requires AllHonest(log)
    requires i < |log| && ChangesPrices(log[i])
    ensures i > 0 && log[i - 1].proposal.Some?
    ensures var before, now := log[i - 1].proposal.value, log[i].proposal.value;
            && SamePatches(before.patches, now.patches)
            && multiset(SourceNames(before.ctx.inp.ids)) == multiset(SourceNames(now.ctx.inp.ids))
            && forall data :: Apply(data, before.patches) == Apply(data, now.patches)
  {
    HonestRunsAreGated(log);
    assert HonestAt(log, i - 1);
    var before, now := log[i - 1].proposal.value, log[i].proposal.value;
    var s, t := SourceNames(before.ctx.inp.ids), SourceNames(now.ctx.inp.ids);
    assert Canonical(s, before.patches) == Canonical(t, now.patches);
    CanonicalExactly(s, before.patches, t, now.patches);
    forall data ensures Apply(data, before.patches) == Apply(data, now.patches) {
      CanonicalEffect(s, before.patches, t, now.patches, data);
    }
  }

  /** Each proposal was sound for the fetches seen when it was made. */
  ghost predicate AllSound(log: seq<Report>, seen: seq<nat>, events: seq<Event>, smoke: Smoke) {
    && |seen| == |log|
    && forall i :: 0 <= i < |log| ==>
         seen[i] <= |events| && (log[i].proposal.Some? ==> Sound(log[i].proposal.value, events[..seen[i]], smoke))
  }

  lemma AllSoundSnoc(log: seq<Report>, seen: seq<nat>, before: seq<Event>, events: seq<Event>, smoke: Smoke, report: Report)
    requires AllSound(log, seen, before, smoke) && before <= events
    requires report.proposal.Some? ==> Sound(report.proposal.value, events, smoke)
    ensures AllSound(log + [report], seen + [|events|], events, smoke)
  {
    assert events[..|events|] == events;
    forall i | 0 <= i < |log| ensures events[..seen[i]] == before[..seen[i]] {
    }
  }

  /** The states after the stale marks alone: none when the fetch loop did not complete or the marks could not be written. */
  function StatesMarked(sources: seq<Source>, world: World, states: States): States {
    if Undisturbed(sources, world) && world.cancelledFrom.None? && world.markable then MarkStale(states, StaleIds(sources, world))
    else states
  }

  // ---------- What a run does to the stored states ----------

  /** Every known model keeps its preference, and a new one is general. */
  ghost predicate PinsKept(states: States, states': States) {
    && (forall n :: n in states ==> n in states' && states'[n].preference == states[n].preference)
    && (forall n :: n in states' && n !in states ==> states'[n].preference.mode == General)
  }

  lemma LandingKeepsPins(update: Update, pricing: SyncData, states: States, pricing': SyncData, states': States)
    requires Proposes(update.ctx, update.patches) && Lands(update, pricing, states, pricing', states')
    ensures PinsKept(states, states')
  {
    forall n ensures n in states ==> n in states' && states'[n].preference == states[n].preference
             ensures n in states' && n !in states ==> states'[n].preference.mode == General
    {
      assert StateAt(states', n) ==
             if n != "" && FinalState(update.ctx, update.patches, n).Some? then FinalState(update.ctx, update.patches, n)
             else StateAt(MarkStale(states, update.ctx.stale), n);
      if FinalState(update.ctx, update.patches, n).Some? { PreferenceWritten(update.ctx, update.patches, n); }
    }
  }

  lemma MarkingKeepsPins(sources: seq<Source>, world: World, states: States)
    ensures PinsKept(states, StatesMarked(sources, world, states))
  {
  }

  /** Every contested model is stored as Conflict or Stale. */
  ghost predicate ConflictsStored(ctx: Context, states: States) {
    forall n :: n != "" && Contested(ctx, n) ==> n in states && states[n].status in {Conflict, Stale}
  }

  /**
   No silent conflict: once a run has been applied, every model it skipped
   although a considered source exposes it is stored as Conflict or Stale.
   */
  lemma NoSilentConflict(update: Update, events: seq<Event>, smoke: Smoke, pricing: SyncData, states: States,
                         pricing': SyncData, states': States)
    requires Sound(update, events, smoke) && Lands(update, pricing, states, pricing', states')
    ensures ConflictsStored(update.ctx, states')
  {
    forall n | n != "" && Contested(update.ctx, n) ensures n in states' && states'[n].status in {Conflict, Stale} {
      ContestedState(update.ctx, update.patches, n);
      assert StateAt(states', n) == FinalState(update.ctx, update.patches, n);
    }
  }

  /** Whether there is something to write: a confirmed patch, or only states. */
  ghost predicate NeedsWrite(update: Update, previous: Option<Candidate>) {
    if update.patches == map[] then exists n :: FinalState(update.ctx, update.patches, n).Some?
    else CandidateFor(update) == previous
  }

  ghost predicate Decides(report: Report, update: Update, previous: Option<Candidate>, writable: bool) {
    && (report.applied <==> NeedsWrite(update, previous) && writable)
    && (report.ok <==> (NeedsWrite(update, previous) ==> writable))
  }

  /** The prices after the patch, and exactly the final states written over the ones before. */
  ghost predicate Applies(update: Update, pricing: SyncData, states: States, pricing': SyncData, states': States) {
    && pricing' == Apply(pricing, update.patches)
    && forall n :: StateAt(states', n) ==
                   if n != "" && FinalState(update.ctx, update.patches, n).Some? then FinalState(update.ctx, update.patches, n)
                   else StateAt(states, n)
  }

  /** An applied run, against the tables before it: stale sources are marked, then the update is written. */
  ghost predicate Lands(update: Update, pricing: SyncData, states: States, pricing': SyncData, states': States) {
    && update.ctx.inp.local == pricing && update.ctx.inp.preferences == Preferences(states)
    && Applies(update, pricing, MarkStale(states, update.ctx.stale), pricing', states')
  }

  function StateAt(states: States, n: string): Option<ModelState> {
    if n in states then Some(states[n]) else None
  }

  lemma ProposesByOrder(ctx: Context, patches: map<Field, Patch>, order: seq<string>)
    requires forall n :: n in ctx.unavailable ==> !ManualIn(ctx.inp.preferences, n)
    requires Elems(order) == ctx.unavailable && patches == RemoveAll(Build(ctx.inp).patches, order)
    ensures Proposes(ctx, patches)
  {
  }

  ghost predicate AllTwiceSighted(upstreams: seq<SyncData>, ids: seq<int>, events: seq<Event>, smoke: Smoke) {
    forall j, n :: 0 <= j < |ids| && j < |upstreams| && ColumnOf(upstreams[j], n) != map[] ==>
      TwiceSighted(events, smoke, ids[j], n, ColumnOf(upstreams[j], n))
  }

  lemma SnapshotsSighted(table: Table, upstreams: seq<SyncData>, ids: seq<int>, events: seq<Event>, smoke: Smoke)
    requires Records(table, events, smoke)
    requires |ids| == |upstreams| && forall j :: 0 <= j < |ids| ==> upstreams[j] == Snapshot(table, ids[j])
    ensures AllTwiceSighted(upstreams, ids, events, smoke)
  {
    forall j, n | 0 <= j < |ids| && ColumnOf(upstreams[j], n) != map[]
      ensures TwiceSighted(events, smoke, ids[j], n, ColumnOf(upstreams[j], n))
    {
      SnapshotSighted(table, ids[j], n, events, smoke);
    }
  }

  lemma SnapshotSighted(table: Table, id: int, n: string, events: seq<Event>, smoke: Smoke)
    requires Records(table, events, smoke) && ColumnOf(Snapshot(table, id), n) != map[]
    ensures TwiceSighted(events, smoke, id, n, ColumnOf(Snapshot(table, id), n))
  {
    SnapshotColumn(table, id, n);
    SnapshotTwiceSighted(table, events, smoke, id, n);
  }

  /** Each source that speaks for the model has itself sighted its contract twice; for a pinned model only the pin speaks. */
  ghost predicate SightedByOwn(ctx: Context, events: seq<Event>, smoke: Smoke, n: string) {
    forall q :: q in QuotingFor(ctx, n) ==>
      && TwiceSighted(events, smoke, q.id, n, q.contract)
      && (PreferenceOf(ctx.inp, n).Some? && PreferenceOf(ctx.inp, n).value.mode == Channel ==>
            q.id == PreferenceOf(ctx.inp, n).value.channelID)
  }

  /**
   A value the sync sets is a field of what the speaking sources' contracts
   resolve to, and each of them sighted its own contract twice; deletions of
   lost models never set anything.
   */
  lemma SourcedValues(update: Update, events: seq<Event>, smoke: Smoke, n: string, f: Field)
    requires Sound(update, events, smoke) && EditIn(update.patches, n, f).Put?
    ensures n !in update.ctx.unavailable && QuotingFor(update.ctx, n) != []
    ensures var contract := Target(ContractsOf(QuotingFor(update.ctx, n)), update.ctx.inp.strategy);
            contract.Some? && Lookup(contract.value, f) == Some(EditIn(update.patches, n, f).value)
    ensures SightedByOwn(update.ctx, events, smoke, n)
  {
    var inp := update.ctx.inp;
    var order :| Elems(order) == update.ctx.unavailable && update.patches == RemoveAll(Build(inp).patches, order);
    RemoveAllEdits(Build(inp).patches, order, n, f);
    BuildEdits(inp, n, f);
    assert n in order <==> n in Elems(order);
    QuotingExposes(inp.ids, ColumnsOf(inp.upstreams, n), PreferenceOf(inp, n));
    OwnSightings(update.ctx, events, smoke, n);
  }

  lemma OwnSightings(ctx: Context, events: seq<Event>, smoke: Smoke, n: string)
    requires |ctx.inp.ids| == |ctx.inp.upstreams| && AllTwiceSighted(ctx.inp.upstreams, ctx.inp.ids, events, smoke)
    ensures SightedByOwn(ctx, events, smoke, n)
  {
    var inp := ctx.inp;
    forall q | q in QuotingFor(ctx, n)
      ensures TwiceSighted(events, smoke, q.id, n, q.contract)
      ensures Kept(PreferenceOf(inp, n)).mode == Channel ==> q.id == Kept(PreferenceOf(inp, n)).channelID
    {
      var j := QuotingAt(inp.ids, ColumnsOf(inp.upstreams, n), Kept(PreferenceOf(inp, n)), q);
      assert ColumnOf(inp.upstreams[j], n) != map[];
    }
  }

  /** Where a quoting source stands in the lists. */
  lemma {:induction false} QuotingAt(ids: seq<int>, columns: seq<Column>, preference: Preference, q: Quoting) returns (j: nat)
    requires |ids| == |columns| && q in QuotingSources(ids, columns, preference)
    ensures j < |ids| && q == Quoting(ids[j], columns[j]) && Counts(preference, q.id, q.contract)
    decreases |ids|
  {
    if Counts(preference, ids[0], columns[0]) && q == Quoting(ids[0], columns[0]) {
      j := 0;
    } else {
      j := QuotingAt(ids[1..], columns[1..], preference, q);
      j := j + 1;
    }
  }

  predicate Contributes(source: Source, table: Table, active: set<int>) {
    source.enabled && source.interval != 0 && source.channelID in active && Snapshot(table, source.channelID) != map[]
  }

  /** The active sources that have a confirmed quote, in the configured order. */
  function Contributing(sources: seq<Source>, table: Table, active: set<int>): seq<int> {
    if sources == [] then []
    else
      var last := sources[|sources| - 1];
      Contributing(sources[..|sources| - 1], table, active) + if Contributes(last, table, active) then [last.channelID] else []
  }

  function Snapshots(table: Table, ids: seq<int>): (r: seq<SyncData>)
    ensures |r| == |ids| && forall j :: 0 <= j < |ids| ==> r[j] == Snapshot(table, ids[j])
  {
    seq(|ids|, j requires 0 <= j < |ids| => Snapshot(table, ids[j]))
  }

  lemma {:induction false} ContributingDistinct(sources: seq<Source>, table: Table, active: set<int>)
    requires Distinct(ChannelIDs(sources))
    ensures Distinct(Contributing(sources, table, active))
    ensures forall id :: id in Contributing(sources, table, active) ==> id in ChannelIDs(sources)
  {
    if sources != [] {
      var front := sources[..|sources| - 1];
      var ids := ChannelIDs(sources);
      assert ChannelIDs(front) == ids[..|front|] && ids[|front|] == sources[|front|].channelID;
      assert ids[|front|] !in ids[..|front|];
      ContributingDistinct(front, table, active);
    }
  }

  method CollectUpstreams(sources: seq<Source>, table: Table, active: set<int>) returns (upstreams: seq<SyncData>, ids: seq<int>)
    ensures ids == Contributing(sources, table, active) && upstreams == Snapshots(table, ids)
  {
    upstreams, ids := [], [];
    for i := 0 to |sources|
      invariant ids == Contributing(sources[..i], table, active) && upstreams == Snapshots(table, ids)
    {
      var source := sources[i];
      assert sources[..i + 1][..i] == sources[..i];
      if source.enabled && source.interval != 0 && source.channelID in active {
        var data := Snapshot(table, source.channelID);
        if data != map[] {
          upstreams, ids := upstreams + [data], ids + [source.channelID];
        }
      }
    }
    assert sources[..|sources|] == sources;
  }

  /** What a run works from, given the quotes as they stand after fetching. */
  function ContextOf(sources: seq<Source>, table: Table, pricing: SyncData, states: States, strategy: Strategy, world: World): Context {
    var active := ActiveIds(sources, world);
    var ids := Contributing(sources, table, active);
    Context(Inputs(pricing, Snapshots(table, ids), ids, Preferences(states), strategy),
            MissingModels(active, table, states), StaleIds(sources, world), world.now)
  }

  // ---------- Removing sources ----------

  /** The models whose pin or provenance names a removed source. */
  function Owned(states: States, removed: seq<int>): set<string> {
    set n | n in states && Relies(states[n], set id | id in removed)
  }

  lemma DeletesEverywhere(pricing: SyncData, names: seq<string>)
    ensures forall n :: ColumnOf(Apply(pricing, RemoveAll(map[], names)), n) == if n in names then map[] else ColumnOf(pricing, n)
  {
    forall n ensures ColumnOf(Apply(pricing, RemoveAll(map[], names)), n) == if n in names then map[] else ColumnOf(pricing, n) {
      var after := ColumnOf(Apply(pricing, RemoveAll(map[], names)), n);
      forall f: Field ensures Lookup(after, f) == if n in names then None else Lookup(ColumnOf(pricing, n), f) {
        ApplyLookup(pricing, RemoveAll(map[], names), n, f);
        RemoveAllEdits(map[], names, n, f);
      }
      ColumnExtensional(after, if n in names then map[] else ColumnOf(pricing, n));
    }
  }

  lemma {:induction false} KeepDistinct(sources: seq<Source>, removed: seq<int>)
    requires Distinct(ChannelIDs(sources))
    ensures Distinct(ChannelIDs(Filter(sources, (s: Source) => s.channelID !in removed)))
  {
    var kept := Filter(sources, (s: Source) => s.channelID !in removed);
    if sources != [] {
      assert ChannelIDs(sources)[1..] == ChannelIDs(sources[1..]);
      KeepDistinct(sources[1..], removed);
      forall s | s in sources[1..] ensures s.channelID != sources[0].channelID {
        var i :| 0 <= i < |sources[1..]| && sources[1..][i] == s;
        assert ChannelIDs(sources)[i + 1] == s.channelID;
      }
    }
  }

  lemma MoreEvents(log: seq<Report>, seen: seq<nat>, events: seq<Event>, e: Event, smoke: Smoke)
    requires AllSound(log, seen, events, smoke)
    ensures AllSound(log, seen, events + [e], smoke)
  {
    forall i | 0 <= i < |log| ensures (events + [e])[..seen[i]] == events[..seen[i]] {
    }
  }

  class PricingSync {
    const store: QuoteStore
    const smoke: Smoke
    var sources: seq<Source>
    var strategy: Strategy
    var pricing: SyncData
    var states: States
    var previous: Option<Candidate>
    ghost var events: seq<Event>
    ghost var log: seq<Report>
    ghost var seen: seq<nat>

    ghost predicate Consistent()
      reads this, store
    {
      && Distinct(ChannelIDs(sources))
      && Records(store.quotes, events, smoke)
    }

    /** Every run so far was honest, and every proposal was sound for what had been fetched by then. */
    ghost predicate Valid()
      reads this, store
    {
      && Consistent()
      && AllHonest(log)
      && previous == Before(log, |log|)
      && AllSound(log, seen, events, smoke)
    }

    constructor (sources: seq<Source>, strategy: Strategy, pricing: SyncData, states: States, smoke: Smoke)
      requires Distinct(ChannelIDs(sources))
      ensures Valid() && log == [] && this.pricing == pricing && this.states == states && fresh(store)
    {
      var store := new QuoteStore();
      this.store := store;
      this.sources, this.strategy, this.pricing, this.states, this.smoke := sources, strategy, pricing, states, smoke;
      previous, events, log, seen := None, [], [], [];
    }

    /** Changes an administrator makes between runs. */
    method Configure(sources: seq<Source>, strategy: Strategy, pricing: SyncData, states: States)
      requires Valid() && Distinct(ChannelIDs(sources))
      modifies `sources, `strategy, `pricing, `states
      ensures Valid() && this.sources == sources && this.strategy == strategy && this.pricing == pricing && this.states == states
    {
      this.sources, this.strategy, this.pricing, this.states := sources, strategy, pricing, states;
    }

    /** disablePricingSyncSources: the sources go, with their quotes and every model that relies on them. */
    method RemoveSources(removed: seq<int>)
      requires Valid()
      modifies `sources, `pricing, `states, `events, store
      ensures Valid() && old(events) <= events
      ensures sources == Filter(old(sources), (s: Source) => s.channelID !in removed)
      ensures forall k :: k in store.quotes <==> k in old(store.quotes) && k.channelID !in removed
      ensures forall k :: k in store.quotes ==> store.quotes[k] == old(store.quotes)[k]
      ensures var owned := Owned(old(states), removed);
        && states == old(states) - owned
        && forall n :: ColumnOf(pricing, n) == if n in owned then map[] else ColumnOf(old(pricing), n)
    {
      var owned := Owned(states, removed);
      var names := Keys(owned);
      DeletesEverywhere(pricing, names);
      pricing := Apply(pricing, RemoveAll(map[], names));
      states := states - owned;
      KeepDistinct(sources, removed);
      sources := Filter(sources, (s: Source) => s.channelID !in removed);
      DropQuotes(removed);
    }

    method DropQuotes(removed: seq<int>)
      requires Valid()
      modifies `events, store
      ensures Valid() && old(events) <= events
      ensures forall k :: k in store.quotes <==> k in old(store.quotes) && k.channelID !in removed
      ensures forall k :: k in store.quotes ==> store.quotes[k] == old(store.quotes)[k]
    {
      for i := 0 to |removed|
        invariant Valid() && old(events) <= events
        invariant forall k :: k in store.quotes <==> k in old(store.quotes) && k.channelID !in removed[..i]
        invariant forall k :: k in store.quotes ==> store.quotes[k] == old(store.quotes)[k]
      {
        assert removed[..i + 1] == removed[..i] + [removed[i]];
        DropStep(store.quotes, events, removed[i], smoke);
        MoreEvents(log, seen, events, Dropped(removed[i]), smoke);
        store.Drop(removed[i]);
        events := events + [Dropped(removed[i])];
      }
      assert removed[..|removed|] == removed;
    }

    /** pricingSyncHandler.Run: one scheduled run, given the result of the one before it. */
    method RunTask(world: World) returns (report: Report)
      requires Valid()
      modifies `sources, `pricing, `states, `previous, `events, `log, `seen, store
      ensures Valid() && Gated(log) && old(events) <= events
      ensures log == old(log) + [report]
      ensures Undisturbed(old(sources), world) ==>
        && events == old(events) + NewEvents(old(sources), world)
        && SourcesAfter(old(sources), world, |old(sources)|, sources)
      ensures report.proposal.Some? <==> Clean(old(sources), world)
      ensures report.proposal.Some? ==>
        && Decides(report, report.proposal.value, old(previous), world.writable)
        && report.proposal.value.ctx == ContextOf(old(sources), store.quotes, old(pricing), old(states), strategy, world)
        && Sound(report.proposal.value, events, smoke)
      ensures report.applied ==>
        && report.proposal.Some? && Lands(report.proposal.value, old(pricing), old(states), pricing, states)
        && ConflictsStored(report.proposal.value.ctx, states)
      ensures !report.applied ==> pricing == old(pricing) && states == StatesMarked(old(sources), world, old(states))
      ensures PinsKept(old(states), states)
    {
      report := RunOnce(previous, world);
      StatesAfter(report, world, old(sources), old(pricing), old(states));
      Record(report, old(events));
    }

    /** The finished run joins the log. */
    method Record(report: Report, ghost before: seq<Event>)
      requires Consistent() && AllHonest(log) && Honest(report, Before(log, |log|))
      requires AllSound(log, seen, before, smoke) && before <= events
      requires report.proposal.Some? ==> Sound(report.proposal.value, events, smoke)
      modifies `previous, `log, `seen
      ensures Valid() && Gated(log) && log == old(log) + [report]
    {
      HonestSnoc(log, report);
      AllSoundSnoc(log, seen, before, events, smoke, report);
      HonestRunsAreGated(log + [report]);
      previous := Carried(report);
      log, seen := log + [report], seen + [|events|];
    }

    lemma StatesAfter(report: Report, world: World, sources0: seq<Source>, pricing0: SyncData, states0: States)
      requires report.proposal.Some? ==> Sound(report.proposal.value, events, smoke)
      requires report.applied ==> report.proposal.Some? && Lands(report.proposal.value, pricing0, states0, pricing, states)
      requires !report.applied ==> states == StatesMarked(sources0, world, states0)
      ensures PinsKept(states0, states)
      ensures report.applied ==> ConflictsStored(report.proposal.value.ctx, states)
    {
      if report.applied {
        LandingKeepsPins(report.proposal.value, pricing0, states0, pricing, states);
        NoSilentConflict(report.proposal.value, events, smoke, pricing0, states0, pricing, states);
      } else {
        MarkingKeepsPins(sources0, world, states0);
      }
    }

    /** runUpstreamPricingSyncTaskOnce */
    method RunOnce(previousCandidate: Option<Candidate>, world: World) returns (report: Report)
      requires Consistent()
      modifies `sources, `pricing, `states, `events, store
      ensures Consistent() && old(events) <= events
      ensures Undisturbed(old(sources), world) ==>
        && events == old(events) + NewEvents(old(sources), world)
        && SourcesAfter(old(sources), world, |old(sources)|, sources)
      ensures report.proposal.Some? <==> Clean(old(sources), world)
      ensures report.proposal.Some? ==>
        && Decides(report, report.proposal.value, previousCandidate, world.writable)
        && report.proposal.value.ctx == ContextOf(old(sources), store.quotes, old(pricing), old(states), strategy, world)
        && Sound(report.proposal.value, events, smoke)
      ensures Honest(report, previousCandidate)
      ensures report.applied ==>
                report.proposal.Some? && Lands(report.proposal.value, old(pricing), old(states), pricing, states)
      ensures !report.applied ==> pricing == old(pricing) && states == StatesMarked(old(sources), world, old(states))
    {
      var loaded := sources;
      var completed, failed, active, stale := FetchDue(world);
      if !completed || world.cancelledFrom.Some? || !world.markable {
        return Report(false, failed, None, None, false);
      }
      MarkStaleKeeps(active, store.quotes, states, stale);
      states := MarkSourcesStale(states, stale);
      if failed > 0 || !world.readable {
        return Report(false, failed, None, None, false);
      }
      var update := Propose(loaded, active, stale, world.now);
      report := Settle(update, previousCandidate, world.writable);
    }

    /** The second half of a run: compare the candidate with the previous one, then write or wait. */
    method Settle(update: Update, previousCandidate: Option<Candidate>, writable: bool) returns (report: Report)
      requires |update.ctx.inp.ids| == |update.ctx.inp.upstreams| && Distinct(update.ctx.inp.ids)
      modifies `pricing, `states
      ensures report.proposal == Some(update) && Honest(report, previousCandidate)
      ensures Decides(report, update, previousCandidate, writable)
      ensures report.applied ==> Applies(update, old(pricing), old(states), pricing, states)
      ensures !report.applied ==> pricing == old(pricing) && states == old(states)
    {
      var written := WriteStates(update.ctx, update.patches);
      NothingWritten(written, update.ctx, update.patches);
      if update.patches == map[] && written == [] {
        return Report(true, 0, Some(update), None, false);
      }
      var candidate := None;
      if update.patches != map[] {
        var own := CandidateOf(SourceNames(update.ctx.inp.ids), update.patches);
        candidate := Some(own);
        if previousCandidate != candidate {
          return Report(true, 0, Some(update), candidate, false);
        }
      }
      if !writable {
        return Report(false, 0, Some(update), candidate, false);
      }
      pricing := Apply(pricing, update.patches);
      SaveStates(written, n => FinalState(update.ctx, update.patches, n));
      return Report(true, 0, Some(update), candidate, true);
    }

    /** The patch of this run, from the durable quotes of the active sources. */
    method Propose(loaded: seq<Source>, active: set<int>, stale: set<int>, now: int) returns (update: Update)
      requires Consistent() && Distinct(ChannelIDs(loaded))
      ensures var ids := Contributing(loaded, store.quotes, active);
              update.ctx == Context(Inputs(pricing, Snapshots(store.quotes, ids), ids, Preferences(states), strategy),
                                    MissingModels(active, store.quotes, states), stale, now)
      ensures Sound(update, events, smoke)
    {
      var upstreams, ids := CollectUpstreams(loaded, store.quotes, active);
      ContributingDistinct(loaded, store.quotes, active);
      SnapshotsSighted(store.quotes, upstreams, ids, events, smoke);
      var inp := Inputs(pricing, upstreams, ids, Preferences(states), strategy);
      var built := BuildPatches(inp);
      var unavailable := MissingModels(active, store.quotes, states);
      var patches, order := RemoveUnavailable(built.patches, unavailable);
      update := Update(Context(inp, unavailable, stale, now), patches);
      ProposesByOrder(update.ctx, patches, order);
    }

    method SaveStates(written: seq<Named>, ghost want: string -> Option<ModelState>)
      requires Lists(written, want)
      modifies this`states
      ensures forall n :: StateAt(states, n) == if n != "" && want(n).Some? then want(n) else StateAt(old(states), n)
    {
      for i := 0 to |written|
        invariant forall n :: StateAt(states, n) == if n != "" && n in ListedNames(written[..i]) then want(n) else StateAt(old(states), n)
      {
        assert written[..i + 1] == written[..i] + [written[i]];
        assert ListedNames(written[..i + 1]) == ListedNames(written[..i]) + {written[i].name};
        if written[i].name != "" {
          states := states[written[i].name := written[i].state];
        }
      }
      assert written[..|written|] == written;
    }

    /** The fetch loop over the configured sources. */
    method FetchDue(world: World) returns (completed: bool, failed: nat, active: set<int>, stale: set<int>)
      requires Consistent()
      modifies `sources, `events, store
      ensures Consistent() && old(events) <= events
      ensures completed <==> Undisturbed(old(sources), world)
      ensures completed ==>
        && SourcesAfter(old(sources), world, |old(sources)|, sources)
        && events == old(events) + NewEvents(old(sources), world)
        && Tallied(old(sources), world, failed, active, stale)
      ensures !completed ==> exists k :: StoppedAt(old(sources), world, k, sources, old(events), events)
    {
      failed, active, stale := 0, {}, {};
      ghost var loaded, start := sources, events;
      for index := 0 to |sources|
        invariant Consistent()
        invariant SweptTo(loaded, world, index, sources, start, events, failed, active, stale)
      {
        Turn(loaded, world, index, failed, active, stale);
        ghost var sources0, events0, failed0, active0, stale0 := sources, events, failed, active, stale;
        var ok;
        ok, failed, active, stale := FetchOne(index, world, failed, active, stale);
        if !ok {
          assert sources[index := loaded[index]] == sources0;
          assert StoppedAt(loaded, world, index, sources, start, events);
          return false, failed, active, stale;
        }
        SweptStep(loaded, world, index, sources0, sources, start, events0, events, failed, active, stale);
      }
      assert loaded[..|loaded|] == loaded;
      completed := true;
    }

    /** One source's turn in the loop. */
    method FetchOne(index: nat, world: World, failedBefore: nat, activeBefore: set<int>, staleBefore: set<int>)
      returns (ok: bool, failed: nat, active: set<int>, stale: set<int>)
      requires Consistent() && index < |sources| && sources[index].channelID !in staleBefore
      modifies `sources, `events, store
      ensures Consistent() && old(events) <= events
      ensures ok <==> !Interrupts(world, index, old(sources)[index])
      ensures ok ==> TakesTurn(world, index, old(sources)[index], failedBefore, activeBefore, staleBefore, failed, active, stale)
      ensures ok ==> sources == old(sources)[index := SourceAfter(world, index, old(sources)[index])]
      ensures ok ==> events == old(events) + EventsOf(world, index, old(sources)[index])
      ensures !ok ==> events == old(events) && sources == old(sources)[index := SourceStopped(world, old(sources)[index])]
    {
      ok, failed, active, stale := true, failedBefore, activeBefore, staleBefore;
      var source := sources[index];
      if (world.cancelledFrom.Some? && index >= world.cancelledFrom.value) || !source.enabled || source.interval == 0 {
        return;
      }
      if source.channelID > 0 && source.channelID !in world.enabledChannels {
        stale := stale + {source.channelID};
        return;
      }
      active := active + {source.channelID};
      if source.failing { stale := stale + {source.channelID}; }
      if source.lastAttempt > 0 && world.now - source.lastAttempt < source.interval {
        return;
      }
      if Response(world, source.channelID).Refused? {
        ok := false;
        return;
      }
      SetSource(index, source.(lastAttempt := world.now));
      match Response(world, source.channelID)
      case Interrupted => ok := false;
      case BadTarget =>
        failed, stale := failed + 1, stale + {source.channelID};
        SetSource(index, sources[index].(failing := true));
      case FetchFailed =>
        failed, stale := failed + 1, stale + {source.channelID};
        SetSource(index, sources[index].(failing := true));
      case Fetched(fetch) =>
        Observe(source.channelID, fetch, world.now);
        SetSource(index, sources[index].(failing := false));
        stale := stale - {source.channelID};
    }

    /** A successful fetch reaches the quote table. */
    method Observe(channelID: int, fetch: Fetch, now: int)
      requires Records(store.quotes, events, smoke)
      modifies `events, store
      ensures Records(store.quotes, events, smoke) && events == old(events) + [Event(channelID, fetch, now)]
    {
      ghost var before := store.quotes;
      var _ := store.Confirm(channelID, fetch, smoke, now);
      ghost var event := Event(channelID, fetch, now);
      RecordsStep(before, events, event, smoke, store.quotes);
      events := events + [event];
    }

    method SetSource(index: nat, source: Source)
      requires index < |sources| && sources[index].channelID == source.channelID
      requires Distinct(ChannelIDs(sources))
      modifies this`sources
      ensures sources == old(sources)[index := source]
      ensures Distinct(ChannelIDs(sources))
    {
      ghost var ids := Map(sources, (s: Source) => s.channelID);
      sources := sources[index := source];
      assert Map(sources, (s: Source) => s.channelID) == ids;
    }
  }
}
