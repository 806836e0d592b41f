/**
 Choosing one price per model from the models.dev catalogue, where several
 providers may list the same model.
 */
module ModelsDev {
  import opened Names
  import opened PricingData

  datatype Cost = Cost(input: Option<real>, output: Option<real>, cacheRead: Option<real>)

  datatype Candidate = Candidate(provider: string, input: real, output: Option<real>, cacheRead: Option<real>)

  type Catalogue = map<string, map<string, Cost>>

  /** buildModelsDevCandidate */
  function BuildCandidate(provider: string, cost: Cost): Option<Candidate> {
    if cost.input.None? || cost.input.value < 0.0 then None
    else if cost.output.Some? && cost.output.value < 0.0 then None
    else if cost.input.value == 0.0 && cost.output.Some? && cost.output.value > 0.0 then None
    else Some(Candidate(provider, cost.input.value, cost.output,
                        if cost.cacheRead.Some? && cost.cacheRead.value >= 0.0 then cost.cacheRead else None))
  }

  /** shouldReplaceModelsDevCandidate */
  predicate ShouldReplace(current: Candidate, next: Candidate) {
    if (current.input > 0.0) != (next.input > 0.0) then next.input > 0.0
    else if next.input > 0.0 && !NearlyEqual(next.input, current.input) then next.input < current.input
    else Below(next.provider, current.provider)
  }

  /** The candidate left after offering each in turn. */
  function Select(candidates: seq<Candidate>): Option<Candidate> {
    if candidates == [] then None else Offer(Select(candidates[..|candidates| - 1]), candidates[|candidates| - 1])
  }

  function Offer(current: Option<Candidate>, next: Candidate): Option<Candidate> {
    if current.None? || ShouldReplace(current.value, next) then Some(next) else current
  }

  function CandidateIn(data: Catalogue, provider: string, name: string): seq<Candidate> {
    if provider in data && name in data[provider] && BuildCandidate(provider, data[provider][name]).Some?
    then [BuildCandidate(provider, data[provider][name]).value] else []
  }

  /** The valid candidates of a model, in the order of the providers. */
  function CandidatesFor(data: Catalogue, providers: seq<string>, name: string): seq<Candidate> {
    if providers == [] then []
    else CandidatesFor(data, providers[..|providers| - 1], name) + CandidateIn(data, providers[|providers| - 1], name)
  }

  // ---------- What is selected ----------

  ghost predicate ProvidersAscend(candidates: seq<Candidate>) {
    forall i, j :: 0 <= i < j < |candidates| ==> Below(candidates[i].provider, candidates[j].provider)
  }

  /** The choice is one of the candidates, non-zero if any is, and cheapest up to the tolerance. */
  ghost predicate CheapestNonZero(candidates: seq<Candidate>, chosen: Candidate) {
    && chosen in candidates
    && (chosen.input == 0.0 ==> forall c :: c in candidates ==> c.input == 0.0)
    && (forall c :: c in candidates && c.input > 0.0 ==> chosen.input < c.input + EPSILON)
  }

  /**
   Scanning the providers in ascending order, the tolerance does not add up:
   the choice is within one tolerance of every valid non-zero price.
   */
  lemma {:induction false} SelectsCheapest(candidates: seq<Candidate>)
    requires candidates != [] && ProvidersAscend(candidates) && NoneNegative(candidates)
    ensures Select(candidates).Some? && CheapestNonZero(candidates, Select(candidates).value)
  {
    var front, last := candidates[..|candidates| - 1], candidates[|candidates| - 1];
    assert candidates == front + [last];
    if front == [] {
      CheapestAlone(last);
    } else {
      FrontKeeps(candidates);
      SelectsCheapest(front);
      LastIsLater(candidates, Select(front).value);
      OfferKeepsCheapest(front, Select(front).value, last);
    }
  }

  ghost predicate NoneNegative(candidates: seq<Candidate>) {
    forall c :: c in candidates ==> c.input >= 0.0
  }

  lemma FrontKeeps(candidates: seq<Candidate>)
    requires candidates != [] && ProvidersAscend(candidates) && NoneNegative(candidates)
    ensures ProvidersAscend(candidates[..|candidates| - 1]) && NoneNegative(candidates[..|candidates| - 1])
    ensures candidates[|candidates| - 1].input >= 0.0
  {
    assert candidates[|candidates| - 1] in candidates;
  }

  lemma CheapestAlone(c: Candidate)
    ensures CheapestNonZero([c], c)
  {
  }

  lemma LastIsLater(candidates: seq<Candidate>, c: Candidate)
    requires candidates != [] && ProvidersAscend(candidates) && c in candidates[..|candidates| - 1]
    ensures Below(c.provider, candidates[|candidates| - 1].provider)
  {
    var i :| 0 <= i < |candidates| - 1 && candidates[i] == c;
  }

  /** A later provider never wins a tie, so only a real improvement replaces the choice. */
  lemma OfferKeepsCheapest(front: seq<Candidate>, current: Candidate, next: Candidate)
    requires CheapestNonZero(front, current) && Below(current.provider, next.provider)
    requires next.input >= 0.0 && NoneNegative(front)
    ensures CheapestNonZero(front + [next], Offer(Some(current), next).value)
  {
    BelowTotal(current.provider, next.provider);
    forall c | c in front + [next] ensures c in front || c == next {
    }
  }

  /** In another order it would: three providers, each within tolerance of the next, end above the cheapest by more. */
  lemma UnsortedScanDrifts()
    ensures exists candidates :: Select(candidates).Some? && !CheapestNonZero(candidates, Select(candidates).value)
  {
    var a := Candidate("c", 1.0, None, None);
    var b := Candidate("b", 1.0 + EPSILON * 0.75, None, None);
    var c := Candidate("a", 1.0 + EPSILON * 1.5, None, None);
    var all := [a, b, c];
    assert all[..2] == [a, b] && [a, b][..1] == [a] && [a][..0] == [];
    assert Below("b", "c") && Below("a", "b");
    assert Select([a]) == Some(a);
    assert Select([a, b]) == Some(b);
    assert Select(all) == Some(c);
    assert all[0] == a && a in all;
  }

  lemma {:induction false} CandidatesAscend(data: Catalogue, providers: seq<string>, name: string)
    requires Ascending(providers)
    ensures ProvidersAscend(CandidatesFor(data, providers, name))
    ensures NoneNegative(CandidatesFor(data, providers, name))
    ensures forall c :: c in CandidatesFor(data, providers, name) ==> c.provider in providers
  {
    if providers != [] {
      CandidatesAscend(data, providers[..|providers| - 1], name);
      assert providers == providers[..|providers| - 1] + [providers[|providers| - 1]];
    }
  }

  /** Every valid price of the model, from any provider, is among its candidates. */
  lemma {:induction false} CandidatesComplete(data: Catalogue, providers: seq<string>, provider: string, name: string, c: Candidate)
    requires provider in providers && c in CandidateIn(data, provider, name)
    ensures c in CandidatesFor(data, providers, name)
  {
    if provider != providers[|providers| - 1] {
      CandidatesComplete(data, providers[..|providers| - 1], provider, name, c);
    }
  }

  // ---------- The loops ----------

  function Chosen(selected: map<string, Candidate>, name: string): Option<Candidate> {
    if name in selected then Some(selected[name]) else None
  }

  ghost predicate Reflects(selected: map<string, Candidate>, data: Catalogue, providers: seq<string>) {
    forall n :: Chosen(selected, n) == Select(CandidatesFor(data, providers, n))
  }

  /** What an offer from this provider makes of each model's choice. */
  ghost predicate Offered(before: map<string, Candidate>, after: map<string, Candidate>, data: Catalogue, provider: string) {
    forall n :: Chosen(after, n) == OfferAll(Chosen(before, n), CandidateIn(data, provider, n))
  }

  function OfferAll(current: Option<Candidate>, offers: seq<Candidate>): Option<Candidate>
    requires |offers| <= 1
  {
    if offers == [] then current else Offer(current, offers[0])
  }

  /** The models among these are updated, the others as before. */
  ghost predicate OfferedSome(before: map<string, Candidate>, after: map<string, Candidate>, names: seq<string>,
                              data: Catalogue, provider: string)
  {
    forall n :: Chosen(after, n) ==
                if n in names then OfferAll(Chosen(before, n), CandidateIn(data, provider, n)) else Chosen(before, n)
  }

  /** One provider: its models are offered, in order. */
  method OfferProvider(data: Catalogue, provider: string, selected: map<string, Candidate>) returns (r: map<string, Candidate>)
    requires provider in data
    ensures Offered(selected, r, data, provider)
  {
    r := selected;
    var names := SortedKeys(data[provider].Keys);
    for i := 0 to |names|
      invariant OfferedSome(selected, r, names[..i], data, provider)
    {
      NextName(names, i);
      assert names[i] in Elems(names);
      ghost var before := r;
      r := OfferOne(r, names[i], BuildCandidate(provider, data[provider][names[i]]));
      OfferedSnoc(selected, before, r, names[..i], names[i], data, provider);
    }
    assert names[..|names|] == names;
    AllOffered(selected, r, names, data, provider);
  }

  lemma NextName(names: seq<string>, i: nat)
    requires Ascending(names) && i < |names|
    ensures names[..i + 1] == names[..i] + [names[i]] && names[i] !in names[..i]
  {
    AscendingDistinct(names);
  }

  method OfferOne(selected: map<string, Candidate>, name: string, candidate: Option<Candidate>) returns (r: map<string, Candidate>)
    ensures forall n :: n != name ==> Chosen(r, n) == Chosen(selected, n)
    ensures Chosen(r, name) == if candidate.Some? then Offer(Chosen(selected, name), candidate.value) else Chosen(selected, name)
  {
    r := selected;
    if candidate.Some? {
      if name !in r || ShouldReplace(r[name], candidate.value) {
        r := r[name := candidate.value];
      }
    }
  }

  lemma OfferedSnoc(start: map<string, Candidate>, before: map<string, Candidate>, after: map<string, Candidate>,
                    names: seq<string>, name: string, data: Catalogue, provider: string)
    requires OfferedSome(start, before, names, data, provider) && name !in names
    requires forall n :: n != name ==> Chosen(after, n) == Chosen(before, n)
    requires Chosen(after, name) == OfferAll(Chosen(before, name), CandidateIn(data, provider, name))
    ensures OfferedSome(start, after, names + [name], data, provider)
  {
    forall n ensures Chosen(after, n) ==
        if n in names + [name] then OfferAll(Chosen(start, n), CandidateIn(data, provider, n)) else Chosen(start, n)
    {
      assert n in names + [name] <==> n in names || n == name;
    }
  }

  lemma AllOffered(start: map<string, Candidate>, after: map<string, Candidate>, names: seq<string>,
                   data: Catalogue, provider: string)
    requires provider in data && Elems(names) == data[provider].Keys
    requires OfferedSome(start, after, names, data, provider)
    ensures Offered(start, after, data, provider)
  {
    forall n ensures Chosen(after, n) == OfferAll(Chosen(start, n), CandidateIn(data, provider, n)) {
      assert n in Elems(names) <==> n in names;
    }
  }

  lemma SelectSnoc(candidates: seq<Candidate>, offers: seq<Candidate>)
    requires |offers| <= 1
    ensures Select(candidates + offers) == OfferAll(Select(candidates), offers)
  {
    if offers == [] {
      assert candidates + offers == candidates;
    } else {
      assert (candidates + offers)[..|candidates|] == candidates;
    }
  }

  lemma ReflectsSnoc(before: map<string, Candidate>, after: map<string, Candidate>, data: Catalogue, providers: seq<string>, provider: string)
    requires Reflects(before, data, providers) && Offered(before, after, data, provider)
    ensures Reflects(after, data, providers + [provider])
  {
    var all := providers + [provider];
    assert all[..|providers|] == providers;
    forall n ensures Chosen(after, n) == Select(CandidatesFor(data, all, n)) {
      SelectSnoc(CandidatesFor(data, providers, n), CandidateIn(data, provider, n));
    }
  }

  /** Every model with a valid price gets one, within tolerance of the cheapest. */
  lemma ReflectsCheapest(selected: map<string, Candidate>, data: Catalogue, providers: seq<string>, n: string)
    requires Ascending(providers) && Reflects(selected, data, providers)
    ensures n in selected <==> CandidatesFor(data, providers, n) != []
    ensures n in selected ==> CheapestNonZero(CandidatesFor(data, providers, n), selected[n])
  {
    var candidates := CandidatesFor(data, providers, n);
    CandidatesAscend(data, providers, n);
    assert Chosen(selected, n) == Select(candidates);
    if candidates != [] {
      SelectsCheapest(candidates);
    }
  }

  /** Every valid price is beaten, up to one tolerance, by the choice for its model, and no choice is invented. */
  ghost predicate CheapestOverall(selected: map<string, Candidate>, data: Catalogue) {
    && (forall p, n, c :: c in CandidateIn(data, p, n) ==>
          n in selected && (c.input > 0.0 ==> 0.0 < selected[n].input < c.input + EPSILON))
    && (forall n :: n in selected ==> selected[n] in CandidateIn(data, selected[n].provider, n))
  }

  lemma {:induction false} CandidatesGenuine(data: Catalogue, providers: seq<string>, name: string, c: Candidate)
    requires c in CandidatesFor(data, providers, name)
    ensures c in CandidateIn(data, c.provider, name)
  {
    if c !in CandidateIn(data, providers[|providers| - 1], name) {
      CandidatesGenuine(data, providers[..|providers| - 1], name, c);
    }
  }

  lemma ReflectsOverall(selected: map<string, Candidate>, data: Catalogue, providers: seq<string>)
    requires Ascending(providers) && Elems(providers) == data.Keys && Reflects(selected, data, providers)
    ensures CheapestOverall(selected, data)
  {
    forall p, n, c | c in CandidateIn(data, p, n)
      ensures n in selected && (c.input > 0.0 ==> 0.0 < selected[n].input < c.input + EPSILON)
    {
      assert p in Elems(providers);
      CandidatesComplete(data, providers, p, n, c);
      ReflectsCheapest(selected, data, providers, n);
      CandidatesAscend(data, providers, n);
    }
    forall n | n in selected ensures selected[n] in CandidateIn(data, selected[n].provider, n) {
      ReflectsCheapest(selected, data, providers, n);
      CandidatesGenuine(data, providers, n, selected[n]);
    }
  }

  /** The selection loop of convertModelsDevToRatioData; its result does not depend on map order. */
  method SelectCandidates(data: Catalogue) returns (selected: map<string, Candidate>)
    ensures Reflects(selected, data, SortedNames(data.Keys))
    ensures CheapestOverall(selected, data)
  {
    var providers := SortedKeys(data.Keys);
    selected := map[];
    for i := 0 to |providers|
      invariant Reflects(selected, data, providers[..i])
    {
      NextName(providers, i);
      assert providers[i] in Elems(providers);
      var next := OfferProvider(data, providers[i], selected);
      ReflectsSnoc(selected, next, data, providers[..i], providers[i]);
      selected := next;
    }
    assert providers[..|providers|] == providers;
    ReflectsOverall(selected, data, providers);
  }
}
