/**
 Model-alias chains of a channel, and the check that an automatic task means
 the same thing in every group it may fall back to.
 */
module AliasChain {
  import opened Names

  type Mapping = map<string, string>

  /** The stored mapping text: none or an empty object, undecodable, or a decoded object. */
  datatype Stored = Blank | Malformed | Decoded(mapping: Mapping)

  datatype Resolution = Resolved(name: string) | Cycle | BadMapping

  /** The mappings that lead on: not to blank and not to the name itself. */
  function Links(m: Mapping): Mapping {
    map n | n in m && Trim(m[n]) != "" && m[n] != n :: m[n]
  }

  /** A name the chain stops at: unmapped, mapped to blank, or mapped to itself. */
  predicate Terminal(links: Mapping, name: string) {
    name !in links
  }

  /** The name k steps down the chain, staying put at a terminal one. */
  function Follow(links: Mapping, name: string, k: nat): string {
    if k == 0 then name
    else
      var n := Follow(links, name, k - 1);
      if Terminal(links, n) then n else links[n]
  }

  /** The name is where the chain from the start ends. */
  ghost predicate EndsAt(links: Mapping, start: string, name: string) {
    Terminal(links, name) && exists k: nat :: Follow(links, start, k) == name
  }

  ghost predicate Endless(links: Mapping, start: string) {
    forall k: nat :: !Terminal(links, Follow(links, start, k))
  }

  lemma {:induction false} FollowStays(links: Mapping, start: string, k: nat, more: nat)
    requires Terminal(links, Follow(links, start, k))
    ensures Follow(links, start, k + more) == Follow(links, start, k)
  {
    if more > 0 { FollowStays(links, start, k, more - 1); }
  }

  /** A chain has at most one end. */
  lemma EndUnique(links: Mapping, start: string, a: string, b: string)
    requires EndsAt(links, start, a) && EndsAt(links, start, b)
    ensures a == b
  {
    var i: nat :| Follow(links, start, i) == a;
    var j: nat :| Follow(links, start, j) == b;
    if i <= j { FollowStays(links, start, i, j - i); } else { FollowStays(links, start, j, i - j); }
  }

  lemma {:induction false} FollowFrom(links: Mapping, start: string, i: nat, k: nat)
    ensures Follow(links, Follow(links, start, i), k) == Follow(links, start, i + k)
  {
    if k > 0 { FollowFrom(links, start, i, k - 1); }
  }

  /** Coming back to an earlier name means the chain never ends. */
  lemma ReturnIsEndless(links: Mapping, start: string, i: nat, j: nat)
    requires i < j && Follow(links, start, i) == Follow(links, start, j)
    requires forall k :: 0 <= k < j ==> !Terminal(links, Follow(links, start, k))
    ensures Endless(links, start)
  {
    forall k: nat ensures !Terminal(links, Follow(links, start, k)) {
      PeriodicNonTerminal(links, start, i, j, k);
    }
  }

  lemma FollowRepeats(links: Mapping, start: string, i: nat, j: nat, d: nat)
    requires Follow(links, start, i) == Follow(links, start, j)
    ensures Follow(links, start, i + d) == Follow(links, start, j + d)
  {
    FollowFrom(links, start, i, d);
    FollowFrom(links, start, j, d);
  }

  lemma {:induction false} PeriodicNonTerminal(links: Mapping, start: string, i: nat, j: nat, k: nat)
    requires i < j && Follow(links, start, i) == Follow(links, start, j)
    requires forall n :: 0 <= n < j ==> !Terminal(links, Follow(links, start, n))
    ensures !Terminal(links, Follow(links, start, k))
    decreases k
  {
    if k >= j {
      var d := k - j;
      PeriodicNonTerminal(links, start, i, j, i + d);
      FollowRepeats(links, start, i, j, d);
      assert j + d == k;
    }
  }

  /** The meaning of a stored mapping: where the chain ends, or a cycle when it ends nowhere. */
  ghost function Answer(start: string, stored: Stored): Resolution {
    match stored
    case Blank => Resolved(start)
    case Malformed => BadMapping
    case Decoded(m) => End(Links(m), start)
  }

  ghost function End(links: Mapping, start: string): Resolution {
    if exists n :: EndsAt(links, start, n) then
      var n :| EndsAt(links, start, n);
      Resolved(n)
    else Cycle
  }

  lemma EndFound(links: Mapping, start: string, k: nat)
    requires Terminal(links, Follow(links, start, k))
    ensures End(links, start) == Resolved(Follow(links, start, k))
  {
    var name := Follow(links, start, k);
    assert EndsAt(links, start, name);
    var n :| EndsAt(links, start, n) && End(links, start) == Resolved(n);
    EndUnique(links, start, n, name);
  }

  /** A cycle is reported exactly when no step of the chain reaches a terminal name. */
  lemma EndNowhere(links: Mapping, start: string)
    ensures End(links, start) == Cycle <==> Endless(links, start)
  {
    if End(links, start) == Cycle {
      forall k: nat ensures !Terminal(links, Follow(links, start, k)) {
        if Terminal(links, Follow(links, start, k)) { EndFound(links, start, k); }
      }
    }
  }

  /** The walk of resolveTaskMappedModel; it stops because every step leaves one more mapped name behind. */
  method Walk(m: Mapping, start: string) returns (r: Resolution)
    ensures r == Answer(start, Decoded(m))
  {
    ghost var links := Links(m);
    var current := start;
    var visited := {current};
    ghost var path := [start];
    while true
      invariant OnPath(links, start, path) && current == path[|path| - 1] && visited == Elems(path)
      decreases links.Keys - Elems(path[..|path| - 1])
    {
      if current !in m || Trim(m[current]) == "" || m[current] == current {
        EndFound(links, start, |path| - 1);
        return Resolved(current);
      }
      var mapped := m[current];
      assert current in links && links[current] == mapped;
      if mapped in visited {
        BackOnPath(links, start, path, mapped);
        return Cycle;
      }
      PathGrows(links, start, path, mapped);
      visited := visited + {mapped};
      path := path + [mapped];
      current := mapped;
    }
  }

  /** The names passed so far, each a step from the one before, none twice. */
  ghost predicate OnPath(links: Mapping, start: string, path: seq<string>) {
    && path != [] && Distinct(path)
    && (forall i :: 0 <= i < |path| ==> path[i] == Follow(links, start, i))
    && (forall i :: 0 <= i < |path| - 1 ==> path[i] in links)
  }

  lemma BackOnPath(links: Mapping, start: string, path: seq<string>, mapped: string)
    requires OnPath(links, start, path) && mapped in Elems(path)
    requires path[|path| - 1] in links && links[path[|path| - 1]] == mapped
    ensures End(links, start) == Cycle
  {
    var i :| 0 <= i < |path| && path[i] == mapped;
    assert Follow(links, start, |path|) == mapped;
    forall k | 0 <= k < |path| ensures !Terminal(links, Follow(links, start, k)) { assert path[k] in links; }
    ReturnIsEndless(links, start, i, |path|);
    EndNowhere(links, start);
  }

  lemma PathGrows(links: Mapping, start: string, path: seq<string>, mapped: string)
    requires OnPath(links, start, path) && mapped !in Elems(path)
    requires path[|path| - 1] in links && links[path[|path| - 1]] == mapped
    ensures OnPath(links, start, path + [mapped])
    ensures Elems(path + [mapped]) == Elems(path) + {mapped}
    ensures (path + [mapped])[..|path|] == path
    ensures links.Keys - Elems(path) < links.Keys - Elems(path[..|path| - 1])
  {
    var last := path[|path| - 1];
    assert path == path[..|path| - 1] + [last];
    assert last in Elems(path) && last !in Elems(path[..|path| - 1]);
    assert Elems(path[..|path| - 1]) <= Elems(path);
    assert Follow(links, start, |path|) == mapped;
  }

  /** resolveTaskMappedModel */
  method ResolveMapped(start: string, stored: Stored) returns (r: Resolution)
    ensures r == Answer(start, stored)
  {
    match stored
    case Blank => return Resolved(start);
    case Malformed => return BadMapping;
    case Decoded(m) => r := Walk(m, start);
  }

  /** A resolved name resolves to itself. */
  lemma ResolutionIdempotent(start: string, stored: Stored, name: string)
    requires Answer(start, stored) == Resolved(name)
    ensures Answer(name, stored) == Resolved(name)
  {
    if stored.Decoded? {
      assert Follow(Links(stored.mapping), name, 0) == name;
      EndFound(Links(stored.mapping), name, 0);
    }
  }

  // ---------- The Auto-task pricing check ----------

  datatype Ability = Ability(group: string, name: string, priority: Option<int>, channelType: int, stored: Stored)

  /** Lookups the check makes elsewhere: canonical group keys, platform text of a channel type, adaptor contract. */
  datatype Lookups = Lookups(groupKey: string -> string, platformText: int -> string, contract: string -> string)

  function PriorityOf(a: Ability): int {
    if a.priority.Some? then a.priority.value else 0
  }

  function ContractOf(a: Ability, fallback: string, t: Lookups): string {
    t.contract(if fallback == "" && a.channelType > 0 then t.platformText(a.channelType) else fallback)
  }

  /** The ability serves the model in a requested group. */
  predicate Serves(a: Ability, name: string, requested: set<string>, t: Lookups) {
    a.name == name && t.groupKey(a.group) in requested
  }

  /** No ability of its group has a higher priority. */
  ghost predicate Top(a: Ability, abilities: seq<Ability>, name: string, requested: set<string>, t: Lookups) {
    && Serves(a, name, requested, t)
    && forall b :: b in abilities && Serves(b, name, requested, t) && t.groupKey(b.group) == t.groupKey(a.group) ==>
         PriorityOf(b) <= PriorityOf(a)
  }

  /** One common contract and one common upstream model behind every top-priority ability. */
  ghost predicate Verified(tops: set<Ability>, name: string, fallback: string, t: Lookups, contract: string, upstream: string) {
    forall a :: a in tops ==>
      contract != "" && ContractOf(a, fallback, t) == contract && Answer(name, a.stored) == Resolved(upstream)
  }

  /** Every requested group serves the model. */
  ghost predicate Covered(abilities: seq<Ability>, name: string, requested: set<string>, t: Lookups) {
    forall g :: g in requested ==> exists a :: a in abilities && Serves(a, name, requested, t) && t.groupKey(a.group) == g
  }

  ghost function Tops(abilities: seq<Ability>, name: string, requested: set<string>, t: Lookups): set<Ability> {
    set a | a in abilities && Top(a, abilities, name, requested, t)
  }

  datatype Verdict = Accepted | Rejected

  /** The best table: for each group that serves the model, its highest priority. */
  ghost predicate Best(abilities: seq<Ability>, name: string, requested: set<string>, t: Lookups, best: map<string, int>) {
    && (forall a :: a in abilities && Serves(a, name, requested, t) ==>
          t.groupKey(a.group) in best && PriorityOf(a) <= best[t.groupKey(a.group)])
    && (forall g :: g in best ==>
          exists a :: a in abilities && Serves(a, name, requested, t) && t.groupKey(a.group) == g && PriorityOf(a) == best[g])
  }

  /** The first loop. */
  method TopPriorities(abilities: seq<Ability>, name: string, requested: set<string>, t: Lookups) returns (best: map<string, int>)
    ensures Best(abilities, name, requested, t, best)
  {
    best := map[];
    for i := 0 to |abilities|
      invariant Best(abilities[..i], name, requested, t, best)
    {
      var a := abilities[i];
      assert abilities[..i + 1] == abilities[..i] + [a];
      assert forall b :: b in abilities[..i] ==> b in abilities[..i + 1];
      var group := t.groupKey(a.group);
      if Serves(a, name, requested, t) && (group !in best || PriorityOf(a) > best[group]) {
        assert a in abilities[..i + 1];
        best := best[group := PriorityOf(a)];
      }
    }
    assert abilities[..|abilities|] == abilities;
  }

  predicate AtBest(a: Ability, name: string, best: map<string, int>, t: Lookups) {
    a.name == name && t.groupKey(a.group) in best && PriorityOf(a) == best[t.groupKey(a.group)]
  }

  lemma TopIsBest(a: Ability, abilities: seq<Ability>, name: string, requested: set<string>, t: Lookups, best: map<string, int>)
    requires a in abilities && Best(abilities, name, requested, t, best)
    ensures AtBest(a, name, best, t) <==> Top(a, abilities, name, requested, t)
  {
    var g := t.groupKey(a.group);
    if g in best {
      var b :| b in abilities && Serves(b, name, requested, t) && t.groupKey(b.group) == g && PriorityOf(b) == best[g];
    }
  }

  /** The second loop: contracts, upstream models and groups of the top-priority abilities. */
  method CollectTop(abilities: seq<Ability>, name: string, best: map<string, int>, fallback: string, t: Lookups)
    returns (ok: bool, contracts: set<string>, upstreams: set<string>, covered: set<string>)
    ensures ok <==> forall a :: a in abilities && AtBest(a, name, best, t) ==>
              ContractOf(a, fallback, t) != "" && Answer(name, a.stored).Resolved?
    ensures ok ==> contracts == (set a | a in abilities && AtBest(a, name, best, t) :: ContractOf(a, fallback, t))
    ensures ok ==> upstreams == (set a | a in abilities && AtBest(a, name, best, t) :: NameOf(Answer(name, a.stored)))
    ensures ok ==> covered == (set a | a in abilities && AtBest(a, name, best, t) :: t.groupKey(a.group))
  {
    contracts, upstreams, covered := {}, {}, {};
    for i := 0 to |abilities|
      invariant forall a :: a in abilities[..i] && AtBest(a, name, best, t) ==>
                  ContractOf(a, fallback, t) != "" && Answer(name, a.stored).Resolved?
      invariant contracts == (set a | a in abilities[..i] && AtBest(a, name, best, t) :: ContractOf(a, fallback, t))
      invariant upstreams == (set a | a in abilities[..i] && AtBest(a, name, best, t) :: NameOf(Answer(name, a.stored)))
      invariant covered == (set a | a in abilities[..i] && AtBest(a, name, best, t) :: t.groupKey(a.group))
    {
      var a := abilities[i];
      assert abilities[..i + 1] == abilities[..i] + [a];
      assert a in abilities;
      if AtBest(a, name, best, t) {
        var contract := ContractOf(a, fallback, t);
        if contract == "" { return false, contracts, upstreams, covered; }
        var r := ResolveMapped(name, a.stored);
        if !r.Resolved? { return false, contracts, upstreams, covered; }
        contracts, upstreams, covered := contracts + {contract}, upstreams + {r.name}, covered + {t.groupKey(a.group)};
      }
    }
    assert abilities[..|abilities|] == abilities;
    ok := true;
  }

  function NameOf(r: Resolution): string {
    if r.Resolved? then r.name else ""
  }

  lemma SizeComparison(a: set<string>, b: set<string>)
    requires a <= b
    ensures |a| == |b| <==> a == b
  {
    assert b == a + (b - a);
    assert |b| == |a| + |b - a|;
  }

  lemma AtMostOne(s: set<string>)
    ensures |s| <= 1 <==> forall x, y :: x in s && y in s ==> x == y
  {
    if s != {} {
      var x :| x in s;
      assert |s| == |s - {x}| + 1;
      if |s| > 1 {
        var y :| y in s - {x};
      } else {
        assert s - {x} == {};
        assert forall y :: y in s ==> y == x by { forall y | y in s ensures y == x { assert y !in s - {x}; } }
      }
    }
  }

  /** The groups that serve the model are exactly the best table's. */
  lemma CoveredGroups(abilities: seq<Ability>, name: string, requested: set<string>, t: Lookups, best: map<string, int>)
    requires Best(abilities, name, requested, t, best)
    ensures (set a | a in abilities && AtBest(a, name, best, t) :: t.groupKey(a.group)) == best.Keys
    ensures best.Keys <= requested
    ensures Covered(abilities, name, requested, t) <==> best.Keys == requested
  {
    forall g | g in best ensures exists a :: a in abilities && AtBest(a, name, best, t) && t.groupKey(a.group) == g {
      var a :| a in abilities && Serves(a, name, requested, t) && t.groupKey(a.group) == g && PriorityOf(a) == best[g];
      assert AtBest(a, name, best, t);
    }
  }

  lemma VerifiedExactly(tops: set<Ability>, name: string, fallback: string, t: Lookups)
    ensures (exists contract, upstream :: Verified(tops, name, fallback, t, contract, upstream)) <==>
            && (forall a :: a in tops ==> ContractOf(a, fallback, t) != "" && Answer(name, a.stored).Resolved?)
            && (forall a, b :: a in tops && b in tops ==> ContractOf(a, fallback, t) == ContractOf(b, fallback, t))
            && (forall a, b :: a in tops && b in tops ==> NameOf(Answer(name, a.stored)) == NameOf(Answer(name, b.stored)))
  {
    if tops == {} {
      assert Verified(tops, name, fallback, t, "", "");
    } else {
      var x :| x in tops;
      if (forall a :: a in tops ==> ContractOf(a, fallback, t) != "" && Answer(name, a.stored).Resolved?) &&
         (forall a, b :: a in tops && b in tops ==> ContractOf(a, fallback, t) == ContractOf(b, fallback, t)) &&
         (forall a, b :: a in tops && b in tops ==> NameOf(Answer(name, a.stored)) == NameOf(Answer(name, b.stored))) {
        assert Verified(tops, name, fallback, t, ContractOf(x, fallback, t), NameOf(Answer(name, x.stored)));
      }
    }
  }

  /** The lists the loops leave behind decide the check. */
  lemma VerdictExactly(tops: set<Ability>, name: string, fallback: string, t: Lookups, contracts: set<string>, upstreams: set<string>)
    requires forall a :: a in tops ==> ContractOf(a, fallback, t) != "" && Answer(name, a.stored).Resolved?
    requires contracts == set a | a in tops :: ContractOf(a, fallback, t)
    requires upstreams == set a | a in tops :: NameOf(Answer(name, a.stored))
    ensures (exists contract, upstream :: Verified(tops, name, fallback, t, contract, upstream)) <==>
            |contracts| <= 1 && |upstreams| <= 1
  {
    VerifiedExactly(tops, name, fallback, t);
    AtMostOne(contracts);
    AtMostOne(upstreams);
    assert forall a :: a in tops ==> ContractOf(a, fallback, t) in contracts && NameOf(Answer(name, a.stored)) in upstreams;
  }

  /**
   validateAutoTaskPricingContractWithAbilities: accepted exactly when every
   requested group serves the model and all top-priority abilities share one
   non-empty contract and one resolved upstream model.
   */
  method ValidateAutoTask(groups: seq<string>, name: string, fallback: string, abilities: seq<Ability>, t: Lookups)
    returns (verdict: Verdict)
    ensures var requested := set g | g in groups :: t.groupKey(g);
            verdict == Accepted <==>
            && Covered(abilities, name, requested, t)
            && exists contract, upstream :: Verified(Tops(abilities, name, requested, t), name, fallback, t, contract, upstream)
  {
    var requested := set g | g in groups :: t.groupKey(g);
    var best := TopPriorities(abilities, name, requested, t);
    ghost var tops := Tops(abilities, name, requested, t);
    assert forall a :: a in tops <==> a in abilities && AtBest(a, name, best, t) by {
      forall a | a in abilities ensures AtBest(a, name, best, t) <==> Top(a, abilities, name, requested, t) {
        TopIsBest(a, abilities, name, requested, t, best);
      }
    }
    CoveredGroups(abilities, name, requested, t, best);
    SizeComparison(best.Keys, requested);
    verdict := Decide(abilities, name, best, |requested|, fallback, t, tops);
  }

  method Decide(abilities: seq<Ability>, name: string, best: map<string, int>, wanted: nat, fallback: string, t: Lookups, ghost tops: set<Ability>)
    returns (verdict: Verdict)
    requires forall a :: a in tops <==> a in abilities && AtBest(a, name, best, t)
    requires (set a | a in abilities && AtBest(a, name, best, t) :: t.groupKey(a.group)) == best.Keys
    ensures verdict == Accepted <==>
            |best.Keys| == wanted && exists contract, upstream :: Verified(tops, name, fallback, t, contract, upstream)
  {
    var ok, contracts, upstreams, covered := CollectTop(abilities, name, best, fallback, t);
    if !ok {
      VerifiedExactly(tops, name, fallback, t);
      return Rejected;
    }
    VerdictExactly(tops, name, fallback, t, contracts, upstreams);
    if |covered| != wanted { return Rejected; }
    if |contracts| > 1 { return Rejected; }
    if |upstreams| > 1 { return Rejected; }
    return Accepted;
  }
}
