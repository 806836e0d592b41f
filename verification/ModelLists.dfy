/**
 Reconciling a channel's model list with what its upstream offers: detecting
 pending additions and removals, applying them automatically or in batches.
 */
module ModelLists {
  import opened Names
  import opened Separated

  // ---------- Normalised name lists ----------

  /** normalizeModelNames */
  function Normalize(names: seq<string>): seq<string> {
    Uniq(Filter(Map(names, (n: string) => Trim(n)), (n: string) => n != ""))
  }

  /** Trimmed, non-blank, without duplicates. */
  ghost predicate Normal(names: seq<string>) {
    Distinct(names) && forall n :: n in names ==> n != "" && Trimmed(n)
  }

  /** The names a raw list mentions. */
  ghost function Mentions(names: seq<string>): set<string> {
    set n | n in names && Trim(n) != "" :: Trim(n)
  }

  lemma NormalizeNormal(names: seq<string>)
    ensures Normal(Normalize(names))
    ensures Elems(Normalize(names)) == Mentions(names)
  {
    var trimmed := Map(names, (n: string) => Trim(n));
    forall n ensures n in Normalize(names) <==> n in Mentions(names) {
      if n in Normalize(names) {
        assert n in trimmed;
        var i :| 0 <= i < |trimmed| && trimmed[i] == n;
        assert names[i] in names;
      }
      if n in Mentions(names) {
        var raw :| raw in names && Trim(raw) == n && n != "";
        var i :| 0 <= i < |names| && names[i] == raw;
        assert trimmed[i] == n;
      }
    }
    forall n | n in Normalize(names) ensures n != "" && Trimmed(n) {
      assert n in Mentions(names);
    }
  }

  lemma NormalizeIdempotent(names: seq<string>)
    requires Normal(names)
    ensures Normalize(names) == names
    ensures Mentions(names) == Elems(names)
  {
    var trimmed := Map(names, (n: string) => Trim(n));
    forall i | 0 <= i < |names| ensures trimmed[i] == names[i] && names[i] != "" {
      assert names[i] in names;
      TrimTrimmed(names[i]);
    }
    assert trimmed == names;
    FilterAll(names, (n: string) => n != "");
    UniqDistinct(names);
    NormalizeNormal(names);
  }

  lemma MentionsNormalize(names: seq<string>)
    ensures Mentions(Normalize(names)) == Mentions(names)
  {
    NormalizeNormal(names);
    NormalizeIdempotent(Normalize(names));
  }

  lemma MentionsNormal(names: seq<string>)
    requires Normal(names)
    ensures Mentions(names) == Elems(names)
  {
    NormalizeIdempotent(names);
  }

  function NotIn(names: seq<string>, others: seq<string>): (r: seq<string>)
    ensures forall n :: n in r <==> n in names && n !in others
  {
    Filter(names, (n: string) => n !in others)
  }

  function AlsoIn(names: seq<string>, others: seq<string>): (r: seq<string>)
    ensures forall n :: n in r <==> n in names && n in others
  {
    Filter(names, (n: string) => n in others)
  }

  lemma NotInNormal(names: seq<string>, others: seq<string>)
    requires Normal(names)
    ensures Normal(NotIn(names, others)) && Normal(AlsoIn(names, others))
    ensures Elems(NotIn(names, others)) == Elems(names) - Elems(others)
    ensures Elems(AlsoIn(names, others)) == Elems(names) * Elems(others)
  {
    FilterDistinct(names, (n: string) => n !in others);
    FilterDistinct(names, (n: string) => n in others);
  }

  /** What mergeModelNames computes: the base, then whatever is new. */
  function Merge(base: seq<string>, appended: seq<string>): seq<string> {
    Normalize(base) + NotIn(Normalize(appended), Normalize(base))
  }

  /** subtractModelNames */
  function Subtract(base: seq<string>, removed: seq<string>): seq<string> {
    NotIn(Normalize(base), Normalize(removed))
  }

  /** intersectModelNames */
  function Intersect(base: seq<string>, allowed: seq<string>): seq<string> {
    AlsoIn(Normalize(base), Normalize(allowed))
  }

  /** mergeModelNames */
  method MergeNames(base: seq<string>, appended: seq<string>) returns (merged: seq<string>)
    ensures merged == Merge(base, appended)
  {
    NormalizeNormal(appended);
    merged := AppendNew(Normalize(base), Normalize(appended));
  }

  method AppendNew(base: seq<string>, more: seq<string>) returns (merged: seq<string>)
    requires Distinct(more)
    ensures merged == base + NotIn(more, base)
  {
    merged := base;
    var seen := set n | n in merged;
    for i := 0 to |more|
      invariant merged == base + NotIn(more[..i], base)
      invariant forall n :: n in seen <==> n in merged
    {
      assert more[..i + 1] == more[..i] + [more[i]];
      FilterSnoc(more[..i], more[i], (n: string) => n !in base);
      assert more[i] !in more[..i];
      if more[i] !in seen {
        seen := seen + {more[i]};
        merged := merged + [more[i]];
      }
    }
    assert more[..|more|] == more;
  }

  lemma ConcatNormal(a: seq<string>, b: seq<string>)
    requires Normal(a) && Normal(b) && forall n :: n in b ==> n !in a
    ensures Normal(a + b)
    ensures Elems(a + b) == Elems(a) + Elems(b)
  {
    forall i, j | 0 <= i < j < |a + b| ensures (a + b)[i] != (a + b)[j] {
      if i < |a| <= j { assert (a + b)[j] in b && (a + b)[i] in a; }
    }
  }

  lemma MergeSets(base: seq<string>, appended: seq<string>)
    ensures Normal(Merge(base, appended))
    ensures Elems(Merge(base, appended)) == Mentions(base) + Mentions(appended)
  {
    NormalizeNormal(base);
    NormalizeNormal(appended);
    NotInNormal(Normalize(appended), Normalize(base));
    ConcatNormal(Normalize(base), NotIn(Normalize(appended), Normalize(base)));
  }

  lemma FilteredSets(base: seq<string>, keep: string -> bool)
    ensures Normal(Filter(Normalize(base), keep))
    ensures forall n :: n in Filter(Normalize(base), keep) <==> n in Mentions(base) && keep(n)
  {
    NormalizeNormal(base);
    FilterDistinct(Normalize(base), keep);
    assert forall n :: n in Normalize(base) <==> n in Elems(Normalize(base));
  }

  lemma SubtractSets(base: seq<string>, removed: seq<string>)
    ensures Normal(Subtract(base, removed))
    ensures Elems(Subtract(base, removed)) == Mentions(base) - Mentions(removed)
  {
    NormalizeNormal(base);
    NormalizeNormal(removed);
    NotInNormal(Normalize(base), Normalize(removed));
  }

  lemma IntersectSets(base: seq<string>, allowed: seq<string>)
    ensures Normal(Intersect(base, allowed))
    ensures Elems(Intersect(base, allowed)) == Mentions(base) * Mentions(allowed)
  {
    NormalizeNormal(base);
    NormalizeNormal(allowed);
    NotInNormal(Normalize(base), Normalize(allowed));
  }

  // ---------- The comma-separated field ----------

  /** Channel.GetModels */
  function GetModels(field: string): (r: seq<string>)
    ensures CommaFree(r)
  {
    if field == "" then [] else Split(TrimOuter(field, ','), ',')
  }

  predicate CommaFree(names: seq<string>) {
    Free(names, ',')
  }

  /** A normalised comma-free list survives being stored. */
  lemma StoredListReadsBack(names: seq<string>)
    requires Normal(names) && CommaFree(names)
    ensures GetModels(Join(names, ',')) == names
  {
    if names != [] {
      assert names[0] in names && names[|names| - 1] in names;
      JoinEnds(names, ',');
      RoundTripExactly(names, ',');
    }
  }

  // ---------- Detection ----------

  /** regexp.MatchString, taken as given. */
  type Matcher = (string, string) -> bool

  const REGEX := "regex:"

  predicate Ignores(rule: string, name: string, matches: Matcher) {
    if REGEX <= rule then matches(Trim(rule[|REGEX|..]), name) else rule == name
  }

  predicate Ignored(rules: seq<string>, name: string, matches: Matcher) {
    exists r :: r in Normalize(rules) && Ignores(r, name, matches)
  }

  datatype Setup = Setup(upstream: seq<string>, rules: seq<string>, mapping: map<string, string>, matches: Matcher)

  function PendingAdds(local: seq<string>, s: Setup): seq<string> {
    var l := Normalize(local);
    Normalize(Filter(Normalize(s.upstream), (n: string) =>
      n !in l && n !in s.mapping.Values && !Ignored(s.rules, n, s.matches)))
  }

  function PendingRemoves(local: seq<string>, s: Setup): seq<string> {
    var u := Normalize(s.upstream);
    Normalize(Filter(Normalize(local), (n: string) => n !in s.mapping && n !in s.mapping.Values && n !in u))
  }

  /** What detection asks for, as sets. */
  lemma PendingSets(local: seq<string>, s: Setup)
    ensures Normal(PendingAdds(local, s)) && Normal(PendingRemoves(local, s))
    ensures forall n :: n in PendingAdds(local, s) <==>
              n in Mentions(s.upstream) && n !in Mentions(local) && n !in s.mapping.Values && !Ignored(s.rules, n, s.matches)
    ensures forall n :: n in PendingRemoves(local, s) <==>
              n in Mentions(local) && n !in Mentions(s.upstream) && n !in s.mapping && n !in s.mapping.Values
  {
    var l, u := Normalize(local), Normalize(s.upstream);
    NormalizeNormal(local);
    NormalizeNormal(s.upstream);
    assert forall n :: n in l <==> n in Elems(l);
    assert forall n :: n in u <==> n in Elems(u);
    var adds := (n: string) => n !in l && n !in s.mapping.Values && !Ignored(s.rules, n, s.matches);
    var removes := (n: string) => n !in s.mapping && n !in s.mapping.Values && n !in u;
    FilteredSets(s.upstream, adds);
    FilteredSets(local, removes);
    NormalizeIdempotent(Filter(u, adds));
    NormalizeIdempotent(Filter(l, removes));
  }

  /** The list after auto-applying everything pending. */
  function Reconciled(local: seq<string>, s: Setup): seq<string> {
    Subtract(Merge(Normalize(local), PendingAdds(local, s)), PendingRemoves(local, s))
  }

  lemma ReconciledSets(local: seq<string>, s: Setup)
    ensures Normal(Reconciled(local, s))
    ensures Elems(Reconciled(local, s)) ==
            (Mentions(local) + Elems(PendingAdds(local, s))) - Elems(PendingRemoves(local, s))
  {
    var l, a, r := Normalize(local), PendingAdds(local, s), PendingRemoves(local, s);
    NormalizeNormal(local);
    PendingSets(local, s);
    NormalizeIdempotent(l);
    NormalizeIdempotent(a);
    NormalizeIdempotent(r);
    MergeSets(l, a);
    NormalizeIdempotent(Merge(l, a));
    SubtractSets(Merge(l, a), r);
  }

  /** Convergence on lists: nothing is pending after everything pending was applied. */
  lemma ReconciledIsSettled(local: seq<string>, s: Setup)
    ensures PendingAdds(Reconciled(local, s), s) == [] && PendingRemoves(Reconciled(local, s), s) == []
  {
    var next := Reconciled(local, s);
    PendingSets(local, s);
    ReconciledSets(local, s);
    NormalizeIdempotent(next);
    PendingSets(next, s);
    var adds, removes := PendingAdds(next, s), PendingRemoves(next, s);
    assert forall n :: n in PendingAdds(local, s) <==> n in Elems(PendingAdds(local, s));
    assert forall n :: n in PendingRemoves(local, s) <==> n in Elems(PendingRemoves(local, s));
    assert forall n :: n !in Elems(adds);
    assert forall n :: n !in Elems(removes);
    ElemsEmpty(adds);
    ElemsEmpty(removes);
  }

  /** Conservation: what was added and what was removed account for the change in length. */
  lemma ReconciledLength(local: seq<string>, s: Setup)
    ensures var origin, merged := Normalize(local), Merge(Normalize(local), PendingAdds(local, s));
            |Reconciled(local, s)| == |origin| + (|merged| - |origin|) - |Intersect(origin, PendingRemoves(local, s))|
  {
    var origin, a, r := Normalize(local), PendingAdds(local, s), PendingRemoves(local, s);
    MentionsNormalize(local);
    PendingSets(local, s);
    MentionsNormal(r);
    MentionsNormal(a);
    MergeSets(origin, a);
    MentionsNormal(Merge(origin, a));
    SubtractSets(Merge(origin, a), r);
    IntersectSets(origin, r);
    assert Elems(r) <= Mentions(local);
    LengthAlgebra(Merge(origin, a), Subtract(Merge(origin, a), r), Intersect(origin, r));
  }

  lemma LengthAlgebra(merged: seq<string>, kept: seq<string>, gone: seq<string>)
    requires Distinct(merged) && Distinct(kept) && Distinct(gone)
    requires Elems(kept) == Elems(merged) - Elems(gone) && Elems(gone) <= Elems(merged)
    ensures |kept| == |merged| - |gone|
  {
    DistinctMultiset(merged);
    DistinctMultiset(kept);
    DistinctMultiset(gone);
    assert Elems(merged) == Elems(kept) + Elems(gone);
    assert |Elems(merged)| == |Elems(kept)| + |Elems(gone)|;
  }

  // ---------- The channel ----------

  /** The pending lists are what detection finds in the stored models. */
  ghost predicate Reported(field: string, detected: seq<string>, removed: seq<string>, s: Setup) {
    detected == PendingAdds(GetModels(field), s) && removed == PendingRemoves(GetModels(field), s)
  }

  /** The text of the models field after a run. */
  function Stored(field: string, changed: bool, next: seq<string>): string {
    if changed then Join(next, ',') else field
  }

  /** The stored models were reconciled, and the counts account for the change. */
  ghost predicate Synced(field: string, field': string, s: Setup, changed: bool, autoAdded: nat, autoRemoved: seq<string>) {
    var local := GetModels(field);
    var next := Reconciled(local, s);
    && field' == Stored(field, changed, next)
    && Accounts(local, s, changed, next, autoAdded, autoRemoved)
  }

  ghost predicate Accounts(local: seq<string>, s: Setup, changed: bool, next: seq<string>, autoAdded: nat, autoRemoved: seq<string>) {
    && (changed <==> next != Normalize(local))
    && |next| == |Normalize(local)| + autoAdded - |autoRemoved|
    && (changed ==> Elems(autoRemoved) == Elems(PendingRemoves(local, s)))
  }

  /** With auto-sync the lists end empty and the models are reconciled; without it the findings are only recorded. */
  ghost predicate Checked(field: string, field': string, detected: seq<string>, removed: seq<string>, s: Setup, auto: bool,
                          changed: bool, autoAdded: nat, autoRemoved: seq<string>)
  {
    if auto then detected == [] && removed == [] && Synced(field, field', s, changed, autoAdded, autoRemoved)
    else field' == field && !changed && Reported(field, detected, removed, s)
  }

  /** A check is due when forced, never made, or made long enough ago. */
  predicate Due(lastCheck: int, now: int, force: bool, interval: int) {
    force || lastCheck <= 0 || now - lastCheck >= interval
  }

  class UpstreamChannel {
    var models: string
    var rules: seq<string>
    var detected: seq<string>
    var removed: seq<string>
    var lastCheck: int
    var autoSync: bool
    const mapping: map<string, string>
    const matches: Matcher

    constructor (models: string, rules: seq<string>, mapping: map<string, string>, autoSync: bool, matches: Matcher)
      ensures this.models == models && this.rules == rules && this.mapping == mapping && this.matches == matches
      ensures detected == removed == [] && this.autoSync == autoSync && lastCheck == 0
    {
      this.models, this.rules, this.mapping, this.autoSync, this.matches := models, rules, mapping, autoSync, matches;
      detected, removed, lastCheck := [], [], 0;
    }

    /** checkAndPersistChannelUpstreamModelUpdates; None stands for a failed fetch */
    method Check(upstream: Option<seq<string>>, force: bool, interval: int, allowAuto: bool, now: int)
      returns (changed: bool, autoAdded: nat, autoRemoved: seq<string>)
      modifies `models, `detected, `removed, `lastCheck
      ensures var due := Due(old(lastCheck), now, force, interval);
        && lastCheck == (if due then now else old(lastCheck))
        && if due && upstream.Some?
           then Checked(old(models), models, detected, removed, Setup(upstream.value, rules, mapping, matches),
                        allowAuto && autoSync, changed, autoAdded, autoRemoved)
           else models == old(models) && detected == old(detected) && removed == old(removed) && !changed
    {
      changed, autoAdded, autoRemoved := false, 0, [];
      if !force && lastCheck > 0 && now - lastCheck < interval { return; }
      lastCheck := now;
      if upstream.Some? {
        var s := Setup(upstream.value, rules, mapping, matches);
        changed, autoAdded, autoRemoved := CheckFetched(s, allowAuto && autoSync);
      }
    }

    method CheckFetched(s: Setup, auto: bool) returns (changed: bool, autoAdded: nat, autoRemoved: seq<string>)
      modifies `models, `detected, `removed
      ensures Checked(old(models), models, detected, removed, s, auto, changed, autoAdded, autoRemoved)
    {
      if auto {
        changed, autoAdded, autoRemoved := SyncModels(s);
      } else {
        changed, autoAdded, autoRemoved := false, 0, [];
        ReportPending(s);
      }
    }

    method SyncModels(s: Setup) returns (changed: bool, autoAdded: nat, autoRemoved: seq<string>)
      modifies `models, `detected, `removed
      ensures detected == [] && removed == [] && Synced(old(models), models, s, changed, autoAdded, autoRemoved)
    {
      var next;
      changed, next, autoAdded, autoRemoved := Reconcile(GetModels(models), s);
      Save(changed, next, [], []);
    }

    method Save(changed: bool, next: seq<string>, adds: seq<string>, removes: seq<string>)
      modifies `models, `detected, `removed
      ensures models == Stored(old(models), changed, next) && detected == adds && removed == removes
    {
      if changed { models := Join(next, ','); }
      detected, removed := adds, removes;
    }

    method ReportPending(s: Setup)
      modifies `detected, `removed
      ensures Reported(models, detected, removed, s)
    {
      detected, removed := PendingAdds(GetModels(models), s), PendingRemoves(GetModels(models), s);
    }

    /** applyChannelUpstreamModelUpdates */
    method ApplyUpdates(batch: Batch, now: int) returns (changed: bool)
      modifies `models, `rules, `detected, `removed, `lastCheck
      ensures lastCheck == now
      ensures Fields(models, detected, removed, rules) == StoreBatch(Fields(old(models), old(detected), old(removed), old(rules)), batch)
      ensures changed <==> ApplyBatch(Book(GetModels(old(models)), old(detected), old(removed), old(rules)), batch).models !=
                           Normalize(GetModels(old(models)))
    {
      var b := Book(GetModels(models), detected, removed, rules);
      var next := ApplyLists(b, batch);
      changed := Store(b, next, now);
    }

    method Store(b: Book, next: Book, now: int) returns (changed: bool)
      modifies `models, `rules, `detected, `removed, `lastCheck
      ensures lastCheck == now && Book(next.models, detected, removed, rules) == next
      ensures Written(b, next, old(models), models, changed)
    {
      changed := Normalize(b.models) != next.models;
      if changed { models := Join(next.models, ','); }
      detected, removed, rules, lastCheck := next.detected, next.removed, next.rules, now;
    }
  }

  /** The lists after a batch, computed in the order of the source. */
  method ApplyLists(b: Book, batch: Batch) returns (next: Book)
    ensures next == ApplyBatch(b, batch)
  {
    var pendingAdds, pendingRemoves := Normalize(b.detected), Normalize(b.removed);
    var adds, ignores := Intersect(batch.adds, pendingAdds), Intersect(batch.ignores, pendingAdds);
    var removes := Subtract(Intersect(batch.removes, pendingRemoves), adds);
    var rules := MergeNames(b.rules, ignores);
    if adds != [] { rules := Subtract(rules, adds); }
    next := Book(ApplySelected(Normalize(b.models), adds, removes),
                 Subtract(pendingAdds, adds + ignores), Subtract(pendingRemoves, removes), rules);
  }

  ghost predicate Written(b: Book, next: Book, field: string, field': string, changed: bool) {
    && (changed <==> next.models != Normalize(b.models))
    && field' == Stored(field, changed, next.models)
  }

  /** Normal lists are what the detection hands to the batches: its three sets do not overlap. */
  lemma DetectionDisjoint(local: seq<string>, s: Setup)
    ensures Mentions(PendingAdds(local, s)) !! Mentions(PendingRemoves(local, s))
    ensures Mentions(PendingAdds(local, s)) !! Mentions(local)
  {
    PendingSets(local, s);
    MentionsNormal(PendingAdds(local, s));
    MentionsNormal(PendingRemoves(local, s));
  }

  /** The auto-sync branch; with nothing pending it changes nothing. */
  method Reconcile(local: seq<string>, s: Setup) returns (changed: bool, next: seq<string>, autoAdded: nat, autoRemoved: seq<string>)
    ensures next == Reconciled(local, s)
    ensures Accounts(local, s, changed, next, autoAdded, autoRemoved)
  {
    var origin := Normalize(local);
    var adds, removes := PendingAdds(local, s), PendingRemoves(local, s);
    changed, next, autoAdded, autoRemoved := false, origin, 0, [];
    if adds == [] && removes == [] {
      NothingPending(local, s);
      return;
    }
    var merged := MergeNames(origin, adds);
    next := Subtract(merged, removes);
    if origin != next {
      ReconciledLength(local, s);
      RemovedAre(local, s);
      MergeExtends(local, adds);
      autoAdded := |merged| - |origin|;
      autoRemoved := Intersect(origin, removes);
      changed := true;
    }
  }

  lemma MergeExtends(local: seq<string>, adds: seq<string>)
    ensures |Merge(Normalize(local), adds)| >= |Normalize(local)|
  {
    NormalizeNormal(local);
    NormalizeIdempotent(Normalize(local));
  }

  lemma RemovedAre(local: seq<string>, s: Setup)
    ensures Elems(Intersect(Normalize(local), PendingRemoves(local, s))) == Elems(PendingRemoves(local, s))
  {
    var l, r := Normalize(local), PendingRemoves(local, s);
    NormalizeNormal(local);
    PendingSets(local, s);
    NormalizeIdempotent(l);
    NormalizeIdempotent(r);
    IntersectSets(l, r);
    assert Elems(r) <= Mentions(local);
  }

  lemma NothingPending(local: seq<string>, s: Setup)
    requires PendingAdds(local, s) == [] && PendingRemoves(local, s) == []
    ensures Reconciled(local, s) == Normalize(local)
  {
    var l := Normalize(local);
    NormalizeNormal(local);
    NormalizeIdempotent(l);
    assert Normalize([]) == [];
    assert Merge(l, []) == l;
    FilterAll(l, (n: string) => n !in Normalize([]));
  }

  /**
   Convergence of the stored field: after an automatic sync the same upstream
   list leaves nothing pending, if and only if no pending addition contains a
   comma, which is the separator of the stored list.
   */
  lemma SyncConvergesExactly(field: string, s: Setup)
    ensures var local := GetModels(field);
            var next := Reconciled(local, s);
            var after := GetModels(if next != Normalize(local) then Join(next, ',') else field);
            PendingAdds(after, s) == [] && PendingRemoves(after, s) == [] <==> CommaFree(PendingAdds(local, s))
  {
    var local := GetModels(field);
    var next := Reconciled(local, s);
    var after := GetModels(if next != Normalize(local) then Join(next, ',') else field);
    PendingSets(local, s);
    ReconciledSets(local, s);
    LocalCommaFree(local);
    if CommaFree(PendingAdds(local, s)) {
      forall n | n in next ensures ',' !in n {
        assert n in Elems(next);
        assert n in Mentions(local) || n in Elems(PendingAdds(local, s));
      }
      StoredListReadsBack(next);
      ReconciledIsSettled(local, s);
      if next == Normalize(local) { SameMentions(local, next, s); }
    } else {
      var x :| x in PendingAdds(local, s) && ',' in x;
      LocalCommaFree(after);
      PendingSets(after, s);
      assert x in PendingAdds(after, s);
    }
  }

  /** A name with a comma is stored as several names and is found missing again. */
  lemma CommaStaysPending(name: string, matches: Matcher)
    requires name != "" && Trimmed(name) && ',' in name
    ensures var s := Setup([name], [], map[], matches);
            var next := Reconciled(GetModels(""), s);
            next != Normalize(GetModels("")) && name in PendingAdds(GetModels(Join(next, ',')), s)
  {
    var s := Setup([name], [], map[], matches);
    TrimTrimmed(name);
    assert name in s.upstream && name in Mentions(s.upstream);
    var next := Reconciled([], s);
    PendingSets([], s);
    ReconciledSets([], s);
    assert name in Elems(next);
    var after := GetModels(Join(next, ','));
    LocalCommaFree(after);
    PendingSets(after, s);
  }

  lemma LocalCommaFree(local: seq<string>)
    requires CommaFree(local)
    ensures forall n :: n in Mentions(local) ==> ',' !in n
  {
    forall n | n in Mentions(local) ensures ',' !in n {
      var raw :| raw in local && Trim(raw) == n;
    }
  }

  /** Detection only looks at the names a list mentions. */
  lemma SameMentions(local: seq<string>, other: seq<string>, s: Setup)
    requires Normalize(local) == other
    ensures PendingAdds(local, s) == PendingAdds(other, s) && PendingRemoves(local, s) == PendingRemoves(other, s)
  {
    NormalizeNormal(local);
    NormalizeIdempotent(other);
  }

  // ---------- Applying in batches ----------

  /** The selection an administrator makes from what is pending. */
  datatype Batch = Batch(adds: seq<string>, ignores: seq<string>, removes: seq<string>)

  datatype Book = Book(models: seq<string>, detected: seq<string>, removed: seq<string>, rules: seq<string>)

  function Added(b: Book, batch: Batch): seq<string> {
    Intersect(batch.adds, Normalize(b.detected))
  }

  function IgnoredNow(b: Book, batch: Batch): seq<string> {
    Intersect(batch.ignores, Normalize(b.detected))
  }

  function RemovedNow(b: Book, batch: Batch): seq<string> {
    Subtract(Intersect(batch.removes, Normalize(b.removed)), Added(b, batch))
  }

  /** applySelectedModelChanges */
  function ApplySelected(origin: seq<string>, adds: seq<string>, removes: seq<string>): seq<string> {
    var a := Normalize(adds);
    Subtract(Merge(origin, a), Subtract(Normalize(removes), a))
  }

  /** applyChannelUpstreamModelUpdates, on the decoded lists */
  function ApplyBatch(b: Book, batch: Batch): Book {
    var added, ignored, dropped := Added(b, batch), IgnoredNow(b, batch), RemovedNow(b, batch);
    var rules := Merge(b.rules, ignored);
    Book(
      ApplySelected(Normalize(b.models), added, dropped),
      Subtract(Normalize(b.detected), added + ignored),
      Subtract(Normalize(b.removed), dropped),
      if added != [] then Subtract(rules, added) else rules)
  }

  /** What is stored of a channel. */
  datatype Fields = Fields(text: string, detected: seq<string>, removed: seq<string>, rules: seq<string>)

  function Opened(f: Fields): Book {
    Book(GetModels(f.text), f.detected, f.removed, f.rules)
  }

  /** applyChannelUpstreamModelUpdates, on what is stored */
  function StoreBatch(f: Fields, batch: Batch): Fields {
    var b, next := Opened(f), ApplyBatch(Opened(f), batch);
    Fields(Stored(f.text, next.models != Normalize(b.models), next.models), next.detected, next.removed, next.rules)
  }

  lemma MentionsAppend(a: seq<string>, b: seq<string>)
    ensures Mentions(a + b) == Mentions(a) + Mentions(b)
  {
  }

  lemma ApplySelectedSets(origin: seq<string>, adds: seq<string>, removes: seq<string>)
    ensures Normal(ApplySelected(origin, adds, removes))
    ensures Mentions(ApplySelected(origin, adds, removes)) ==
            (Mentions(origin) + Mentions(adds)) - (Mentions(removes) - Mentions(adds))
  {
    var a := Normalize(adds);
    MentionsNormalize(adds);
    MentionsNormalize(removes);
    MergeSets(origin, a);
    SubtractSets(Normalize(removes), a);
    MentionsNormal(Merge(origin, a));
    MentionsNormal(Subtract(Normalize(removes), a));
    SubtractSets(Merge(origin, a), Subtract(Normalize(removes), a));
    MentionsNormal(ApplySelected(origin, adds, removes));
  }

  lemma BatchParts(b: Book, batch: Batch)
    ensures Normal(Added(b, batch)) && Normal(IgnoredNow(b, batch)) && Normal(RemovedNow(b, batch))
    ensures Mentions(Added(b, batch)) == Mentions(batch.adds) * Mentions(b.detected)
    ensures Mentions(IgnoredNow(b, batch)) == Mentions(batch.ignores) * Mentions(b.detected)
    ensures Mentions(RemovedNow(b, batch)) == Mentions(batch.removes) * Mentions(b.removed) - Mentions(Added(b, batch))
  {
    MentionsNormalize(b.detected);
    MentionsNormalize(b.removed);
    IntersectSets(batch.adds, Normalize(b.detected));
    IntersectSets(batch.ignores, Normalize(b.detected));
    IntersectSets(batch.removes, Normalize(b.removed));
    MentionsNormal(Added(b, batch));
    MentionsNormal(IgnoredNow(b, batch));
    MentionsNormal(Intersect(batch.removes, Normalize(b.removed)));
    SubtractSets(Intersect(batch.removes, Normalize(b.removed)), Added(b, batch));
    MentionsNormal(RemovedNow(b, batch));
  }

  lemma BatchModels(b: Book, batch: Batch)
    ensures var add := Mentions(batch.adds) * Mentions(b.detected);
            var drop := Mentions(batch.removes) * Mentions(b.removed) - add;
            Mentions(ApplyBatch(b, batch).models) == (Mentions(b.models) + add) - drop
  {
    BatchParts(b, batch);
    MentionsNormalize(b.models);
    ApplySelectedSets(Normalize(b.models), Added(b, batch), RemovedNow(b, batch));
  }

  lemma SubtractMentions(base: seq<string>, removed: seq<string>)
    ensures Mentions(Subtract(Normalize(base), removed)) == Mentions(base) - Mentions(removed)
  {
    MentionsNormalize(base);
    SubtractSets(Normalize(base), removed);
    MentionsNormal(Subtract(Normalize(base), removed));
  }

  lemma BatchDetected(b: Book, batch: Batch)
    ensures Mentions(ApplyBatch(b, batch).detected) == Mentions(b.detected) - Mentions(batch.adds) - Mentions(batch.ignores)
  {
    var added, ignored := Added(b, batch), IgnoredNow(b, batch);
    assert Mentions(added + ignored) == (Mentions(batch.adds) + Mentions(batch.ignores)) * Mentions(b.detected) by {
      BatchParts(b, batch);
      MentionsAppend(added, ignored);
    }
    SubtractMentions(b.detected, added + ignored);
    DetectedAlgebra(Mentions(b.detected), Mentions(batch.adds), Mentions(batch.ignores));
  }

  lemma DetectedAlgebra(pending: set<string>, adds: set<string>, ignores: set<string>)
    ensures pending - (adds + ignores) * pending == pending - adds - ignores
  {
  }

  lemma BatchRemoved(b: Book, batch: Batch)
    ensures var add := Mentions(batch.adds) * Mentions(b.detected);
            Mentions(ApplyBatch(b, batch).removed) == Mentions(b.removed) - (Mentions(batch.removes) * Mentions(b.removed) - add)
  {
    BatchParts(b, batch);
    SubtractMentions(b.removed, RemovedNow(b, batch));
  }

  /** Every pending addition is added, ignored or still pending, and only one of these. */
  lemma BatchPartitions(b: Book, batch: Batch)
    ensures var added := Mentions(Added(b, batch));
            var ignored := Mentions(IgnoredNow(b, batch)) - added;
            var left := Mentions(ApplyBatch(b, batch).detected);
            added + ignored + left == Mentions(b.detected) && added !! ignored !! left
  {
    var adds, ignores, pending := Mentions(batch.adds), Mentions(batch.ignores), Mentions(b.detected);
    assert Mentions(Added(b, batch)) == adds * pending by { BatchParts(b, batch); }
    assert Mentions(IgnoredNow(b, batch)) == ignores * pending by { BatchParts(b, batch); }
    assert Mentions(ApplyBatch(b, batch).detected) == pending - adds - ignores by { BatchDetected(b, batch); }
    PartitionAlgebra(pending, adds, ignores);
  }

  lemma PartitionAlgebra(pending: set<string>, adds: set<string>, ignores: set<string>)
    ensures var added, ignored, left := adds * pending, ignores * pending - adds * pending, pending - adds - ignores;
            added + ignored + left == pending && added !! ignored !! left
  {
  }
}
