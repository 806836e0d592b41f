/**
 Pending model changes applied in several batches: what the stored models field
 reads as afterwards, and exactly when that is what one request would have left.
 Every batch reads the field and writes it again, so a name that contains the
 separator comes back in pieces.
 */
module ModelBatches {
  import opened Names
  import opened Separated
  import opened ModelLists

  // ---------- Reading what was stored ----------

  /** The names the field reads as. */
  ghost function Reads(field: string): set<string> {
    Mentions(GetModels(field))
  }

  /** What a name reads as once it was stored. */
  ghost function Pieces(name: string): set<string> {
    Mentions(Split(name, ','))
  }

  ghost function AllPieces(names: set<string>): set<string> {
    set n, p | n in names && p in Pieces(n) :: p
  }

  lemma {:induction false} TrimmedReads(s: string)
    ensures Mentions(Split(TrimOuter(s, ','), ',')) == Mentions(Split(s, ','))
    decreases |s|
  {
    if s != "" && s[0] == ',' {
      TrimmedReads(s[1..]);
      MentionsAppend([""], Split(s[1..], ','));
    } else if s != "" && s[|s| - 1] == ',' {
      var front := s[..|s| - 1];
      TrimmedReads(front);
      assert s == front + [','] + "";
      SplitAppend(front, "", ',');
      MentionsAppend(Split(front, ','), [""]);
    }
  }

  lemma {:induction false} JoinedPieces(names: seq<string>)
    requires names != []
    ensures Mentions(Split(Join(names, ','), ',')) == AllPieces(Elems(names))
  {
    var rest := names[1..];
    assert names == [names[0]] + rest;
    assert Elems(names) == {names[0]} + Elems(rest);
    if rest == [] {
      assert Elems(rest) == {};
    } else {
      JoinedPieces(rest);
      SplitAppend(names[0], Join(rest, ','), ',');
      MentionsAppend(Split(names[0], ','), Split(Join(rest, ','), ','));
    }
    PiecesUnion({names[0]}, Elems(rest));
    PiecesOne(names[0]);
  }

  lemma PiecesOne(name: string)
    ensures AllPieces({name}) == Pieces(name)
  {
    forall p | p in Pieces(name) ensures p in AllPieces({name}) { assert name in {name}; }
  }

  lemma PiecesUnion(a: set<string>, b: set<string>)
    ensures AllPieces(a + b) == AllPieces(a) + AllPieces(b)
  {
  }

  /** A stored list reads as the pieces of its names. */
  lemma StoredReads(names: seq<string>)
    ensures Reads(Join(names, ',')) == AllPieces(Elems(names))
  {
    var text := Join(names, ',');
    if names == [] {
      assert Elems(names) == {};
    } else {
      JoinedPieces(names);
      TrimmedReads(text);
    }
  }

  /** A trimmed name without a comma is its only piece. */
  lemma WholePiece(name: string)
    requires ',' !in name && name != "" && Trimmed(name)
    ensures Pieces(name) == {name}
  {
    SplitName(name, "", ',');
    TrimTrimmed(name);
  }

  ghost predicate Whole(names: set<string>) {
    forall n :: n in names ==> n != "" && Trimmed(n) && ',' !in n
  }

  lemma WholePieces(names: set<string>)
    requires Whole(names)
    ensures AllPieces(names) == names
  {
    forall n | n in names ensures Pieces(n) == {n} { WholePiece(n); }
    forall n ensures n in names <==> n in AllPieces(names) {
      if n in names { assert n in Pieces(n); }
    }
  }

  lemma ReadsWhole(field: string)
    ensures Whole(Reads(field))
  {
    LocalCommaFree(GetModels(field));
    NormalizeNormal(GetModels(field));
    assert forall n :: n in Reads(field) ==> n in Normalize(GetModels(field));
  }

  // ---------- One batch ----------

  /** What is stored, as sets. */
  datatype View = View(models: set<string>, pending: set<string>, removed: set<string>)

  ghost function ViewOf(f: Fields): View {
    View(Reads(f.text), Mentions(f.detected), Mentions(f.removed))
  }

  /** The names a batch asks about. */
  datatype Ask = Ask(adds: set<string>, ignores: set<string>, removes: set<string>)

  ghost function AskOf(batch: Batch): Ask {
    Ask(Mentions(batch.adds), Mentions(batch.ignores), Mentions(batch.removes))
  }

  ghost function Take(v: View, ask: Ask): View {
    View((v.models - ask.removes * v.removed) + AllPieces(ask.adds * v.pending),
         v.pending - ask.adds - ask.ignores, v.removed - ask.removes)
  }

  /** One batch on what is stored, when additions and removals do not overlap. */
  lemma StoreEffect(f: Fields, batch: Batch)
    requires Mentions(f.detected) !! Mentions(f.removed)
    ensures ViewOf(StoreBatch(f, batch)) == Take(ViewOf(f), AskOf(batch))
  {
    var b := Opened(f);
    var add, drop := Mentions(batch.adds) * Mentions(b.detected), Mentions(batch.removes) * Mentions(b.removed);
    assert drop - add == drop;
    BatchDetected(b, batch);
    BatchRemoved(b, batch);
    TextEffect(f, batch, add, drop);
    assert Mentions(f.removed) - drop == Mentions(f.removed) - Mentions(batch.removes);
  }

  lemma NextModels(b: Book, batch: Batch)
    ensures var next := ApplyBatch(b, batch).models;
            var add := Mentions(batch.adds) * Mentions(b.detected);
            var drop := Mentions(batch.removes) * Mentions(b.removed) - add;
            Normal(next) && Elems(next) == (Mentions(b.models) + add) - drop
  {
    BatchModels(b, batch);
    ApplySelectedSets(Normalize(b.models), Added(b, batch), RemovedNow(b, batch));
    MentionsNormal(ApplyBatch(b, batch).models);
  }

  lemma TextEffect(f: Fields, batch: Batch, add: set<string>, drop: set<string>)
    requires add == Mentions(batch.adds) * Mentions(f.detected) && drop == Mentions(batch.removes) * Mentions(f.removed)
    requires add !! drop
    ensures Reads(StoreBatch(f, batch).text) == (Reads(f.text) - drop) + AllPieces(add)
  {
    NextModels(Opened(f), batch);
    assert drop - add == drop;
    ReadsWhole(f.text);
    NormalizeNormal(GetModels(f.text));
    WrittenReads(f.text, ApplyBatch(Opened(f), batch).models, add, drop);
  }

  lemma WrittenReads(field: string, next: seq<string>, add: set<string>, drop: set<string>)
    requires Elems(next) == (Reads(field) + add) - drop && add !! drop
    requires Whole(Reads(field)) && Elems(Normalize(GetModels(field))) == Reads(field)
    ensures Reads(Stored(field, next != Normalize(GetModels(field)), next)) == (Reads(field) - drop) + AllPieces(add)
  {
    if next != Normalize(GetModels(field)) {
      StoredReads(next);
      assert Elems(next) == (Reads(field) - drop) + add;
      PiecesUnion(Reads(field) - drop, add);
      WholePieces(Reads(field) - drop);
    } else {
      assert add <= Reads(field) && drop !! Reads(field);
      WholePieces(add);
    }
  }

  lemma NextComma(b: Book, batch: Batch)
    requires CommaFree(b.models)
    ensures CommaFree(ApplyBatch(b, batch).models) <==> CommaFree(Added(b, batch))
  {
    var next, added := ApplyBatch(b, batch).models, Added(b, batch);
    NextModels(b, batch);
    BatchParts(b, batch);
    MentionsNormal(added);
    LocalCommaFree(b.models);
    SameFreedom(next, added, Mentions(b.models));
  }

  lemma SameFreedom(next: seq<string>, added: seq<string>, free: set<string>)
    requires Elems(added) <= Elems(next) <= Elems(added) + free && forall n :: n in free ==> ',' !in n
    ensures CommaFree(next) <==> CommaFree(added)
  {
    assert forall n :: n in next <==> n in Elems(next);
    assert forall n :: n in added <==> n in Elems(added);
  }

  /** The stored field reads back as the list it was written from, in order, if and only if no name added has a comma. */
  lemma BookReadsBack(f: Fields, batch: Batch)
    ensures var next := ApplyBatch(Opened(f), batch).models;
            Normalize(GetModels(StoreBatch(f, batch).text)) == next <==> CommaFree(Added(Opened(f), batch))
  {
    var next, text := ApplyBatch(Opened(f), batch).models, StoreBatch(f, batch).text;
    NextModels(Opened(f), batch);
    NextComma(Opened(f), batch);
    if CommaFree(next) {
      StoredListReadsBack(next);
      NormalizeIdempotent(next);
    } else {
      var x :| x in next && ',' in x;
      LocalCommaFree(GetModels(text));
      NormalizeNormal(GetModels(text));
      assert x !in Elems(Normalize(GetModels(text)));
    }
  }

  // ---------- Many batches ----------

  function StoreAll(f: Fields, batches: seq<Batch>): Fields {
    if batches == [] then f else StoreBatch(StoreAll(f, batches[..|batches| - 1]), batches[|batches| - 1])
  }

  /** The same on lists that are never stored. */
  function ApplyAll(b: Book, batches: seq<Batch>): Book {
    if batches == [] then b else ApplyBatch(ApplyAll(b, batches[..|batches| - 1]), batches[|batches| - 1])
  }

  /** All batches as one request. */
  function AtOnce(batches: seq<Batch>): Batch {
    if batches == [] then Batch([], [], [])
    else
      var front, last := AtOnce(batches[..|batches| - 1]), batches[|batches| - 1];
      Batch(front.adds + last.adds, front.ignores + last.ignores, front.removes + last.removes)
  }

  ghost function AsksOf(batches: seq<Batch>): (r: seq<Ask>)
    ensures |r| == |batches| && forall j :: 0 <= j < |r| ==> r[j] == AskOf(batches[j])
  {
    seq(|batches|, j requires 0 <= j < |batches| => AskOf(batches[j]))
  }

  ghost function TakeAll(v: View, asks: seq<Ask>): View {
    if asks == [] then v else Take(TakeAll(v, asks[..|asks| - 1]), asks[|asks| - 1])
  }

  lemma {:induction false} TakeAllWithin(v: View, asks: seq<Ask>)
    ensures TakeAll(v, asks).pending <= v.pending && TakeAll(v, asks).removed <= v.removed
  {
    if asks != [] { TakeAllWithin(v, asks[..|asks| - 1]); }
  }

  lemma AsksSnoc(v: View, batches: seq<Batch>)
    requires batches != []
    ensures var k := |batches| - 1;
            TakeAll(v, AsksOf(batches)) == Take(TakeAll(v, AsksOf(batches[..k])), AskOf(batches[k]))
  {
    assert AsksOf(batches)[..|batches| - 1] == AsksOf(batches[..|batches| - 1]);
  }

  lemma StoreEffectFrom(f: Fields, v: View, batch: Batch, next: View)
    requires ViewOf(f) == v && v.pending !! v.removed && next == Take(v, AskOf(batch))
    ensures ViewOf(StoreBatch(f, batch)) == next
  {
    StoreEffect(f, batch);
  }

  lemma {:induction false} StoreAllTakes(f: Fields, batches: seq<Batch>)
    requires ViewOf(f).pending !! ViewOf(f).removed
    ensures ViewOf(StoreAll(f, batches)) == TakeAll(ViewOf(f), AsksOf(batches))
  {
    if batches != [] {
      var k, v := |batches| - 1, ViewOf(f);
      var before := TakeAll(v, AsksOf(batches[..k]));
      StoreAllTakes(f, batches[..k]);
      TakeAllWithin(v, AsksOf(batches[..k]));
      AsksSnoc(v, batches);
      StoreEffectFrom(StoreAll(f, batches[..k]), before, batches[k], TakeAll(v, AsksOf(batches)));
    }
  }

  // ---------- What is asked, and when ----------

  /** One of the first k batches asks to add the name. */
  ghost predicate AddAsked(asks: seq<Ask>, k: nat, n: string)
    requires k <= |asks|
  {
    exists j :: 0 <= j < k && n in asks[j].adds
  }

  /** One of the first k batches asks to add or to ignore the name. */
  ghost predicate Decided(asks: seq<Ask>, k: nat, n: string)
    requires k <= |asks|
  {
    exists j :: 0 <= j < k && (n in asks[j].adds || n in asks[j].ignores)
  }

  /** One of the first k batches asks to remove the name. */
  ghost predicate RemovalAsked(asks: seq<Ask>, k: nat, n: string)
    requires k <= |asks|
  {
    exists j :: 0 <= j < k && n in asks[j].removes
  }

  /** Batch i is the first to decide on the name, and adds it. */
  ghost predicate AddedAt(asks: seq<Ask>, i: nat, n: string)
    requires i < |asks|
  {
    n in asks[i].adds && !Decided(asks, i, n)
  }

  lemma {:induction false} StillPending(v: View, asks: seq<Ask>, n: string)
    ensures n in TakeAll(v, asks).pending <==> n in v.pending && !Decided(asks, |asks|, n)
    ensures n in TakeAll(v, asks).removed <==> n in v.removed && !RemovalAsked(asks, |asks|, n)
  {
    if asks != [] {
      var k := |asks| - 1;
      StillPending(v, asks[..k], n);
      AskedPrefix(asks, k, k, n);
      AskedLast(asks, n);
    }
  }

  lemma AskedLast(asks: seq<Ask>, n: string)
    requires asks != []
    ensures var k := |asks| - 1;
            && (AddAsked(asks, k + 1, n) <==> AddAsked(asks, k, n) || n in asks[k].adds)
            && (Decided(asks, k + 1, n) <==> Decided(asks, k, n) || n in asks[k].adds || n in asks[k].ignores)
            && (RemovalAsked(asks, k + 1, n) <==> RemovalAsked(asks, k, n) || n in asks[k].removes)
  {
  }

  /** What the first i batches ask does not depend on the later ones. */
  lemma AskedPrefix(asks: seq<Ask>, k: nat, i: nat, n: string)
    requires i <= k <= |asks|
    ensures AddAsked(asks[..k], i, n) <==> AddAsked(asks, i, n)
    ensures Decided(asks[..k], i, n) <==> Decided(asks, i, n)
    ensures RemovalAsked(asks[..k], i, n) <==> RemovalAsked(asks, i, n)
  {
    assert forall j :: 0 <= j < i ==> asks[..k][j] == asks[j];
  }

  // ---------- The closed form ----------

  /** The name was there, and is not pending removal or never asked to be removed. */
  ghost predicate Stays(v: View, asks: seq<Ask>, p: string) {
    p in v.models && !(p in v.removed && RemovalAsked(asks, |asks|, p))
  }

  /**
   The name is a piece of a pending name that batch i adds, and no removal
   reaches it any more: it is not pending removal, or its removal was asked for
   by then already, or never is.
   */
  ghost predicate ArrivesBy(v: View, asks: seq<Ask>, p: string, i: nat, n: string)
    requires i < |asks|
  {
    && n in v.pending && AddedAt(asks, i, n) && p in Pieces(n)
    && (p in v.removed && RemovalAsked(asks, |asks|, p) ==> RemovalAsked(asks, i + 1, p))
  }

  ghost predicate Arrives(v: View, asks: seq<Ask>, p: string) {
    exists i, n :: 0 <= i < |asks| && ArrivesBy(v, asks, p, i, n)
  }

  /** After the batches the field reads as what stays and what arrives. */
  lemma {:induction false} ClosedForm(v: View, asks: seq<Ask>, p: string)
    ensures p in TakeAll(v, asks).models <==> Stays(v, asks, p) || Arrives(v, asks, p)
  {
    if asks != [] {
      var k := |asks| - 1;
      var front, last := asks[..k], asks[k];
      var before := TakeAll(v, front);
      ClosedForm(v, front, p);
      StillPending(v, front, p);
      AskedPrefix(asks, k, k, p);
      AskedLast(asks, p);
      assert p in TakeAll(v, asks).models <==>
             (p in before.models && !(p in last.removes && p in before.removed)) || p in AllPieces(last.adds * before.pending);
      ArrivesLast(v, asks, p);
      ArrivesEarlier(v, asks, p);
    }
  }

  lemma ArrivesLast(v: View, asks: seq<Ask>, p: string)
    requires asks != []
    ensures var k := |asks| - 1;
            p in AllPieces(asks[k].adds * TakeAll(v, asks[..k]).pending) <==> exists n :: ArrivesBy(v, asks, p, k, n)
  {
    var k := |asks| - 1;
    forall n ensures ArrivesBy(v, asks, p, k, n) <==> n in asks[k].adds * TakeAll(v, asks[..k]).pending && p in Pieces(n) {
      StillPending(v, asks[..k], n);
      AskedPrefix(asks, k, k, n);
    }
  }

  /** An earlier arrival survives the last batch unless that is the first to ask for its removal. */
  lemma ArrivesEarlier(v: View, asks: seq<Ask>, p: string)
    requires asks != []
    ensures var k := |asks| - 1;
            var hit := p in v.removed && p in asks[k].removes && !RemovalAsked(asks, k, p);
            (exists i, n :: 0 <= i < k && ArrivesBy(v, asks, p, i, n)) <==> Arrives(v, asks[..k], p) && !hit
  {
    var k := |asks| - 1;
    var front := asks[..k];
    var hit := p in v.removed && p in asks[k].removes && !RemovalAsked(asks, k, p);
    forall i, n | 0 <= i < k ensures ArrivesBy(v, asks, p, i, n) <==> ArrivesBy(v, front, p, i, n) && !hit {
      ArrivesShift(v, asks, p, i, n);
    }
  }

  lemma ArrivesShift(v: View, asks: seq<Ask>, p: string, i: nat, n: string)
    requires i < |asks| - 1
    ensures var k := |asks| - 1;
            var hit := p in v.removed && p in asks[k].removes && !RemovalAsked(asks, k, p);
            ArrivesBy(v, asks, p, i, n) <==> ArrivesBy(v, asks[..k], p, i, n) && !hit
  {
    var k := |asks| - 1;
    AskedPrefix(asks, k, i, n);
    AskedPrefix(asks, k, i + 1, p);
    AskedPrefix(asks, k, k, p);
    AskedLast(asks, p);
    assert asks[..k][i] == asks[i];
    if RemovalAsked(asks, i + 1, p) { assert RemovalAsked(asks, k, p); }
  }

  /** After any batches the stored field reads as what stays and what arrives. */
  lemma BatchesClosedForm(f: Fields, batches: seq<Batch>, p: string)
    requires ViewOf(f).pending !! ViewOf(f).removed
    ensures p in Reads(StoreAll(f, batches).text) <==>
            Stays(ViewOf(f), AsksOf(batches), p) || Arrives(ViewOf(f), AsksOf(batches), p)
  {
    StoreAllTakes(f, batches);
    ClosedForm(ViewOf(f), AsksOf(batches), p);
  }

  // ---------- Batches and one request ----------

  /** The name is a piece of a pending name that some batch asks to add. */
  ghost predicate Requested(v: View, asks: seq<Ask>, p: string) {
    exists n :: n in v.pending && AddAsked(asks, |asks|, n) && p in Pieces(n)
  }

  lemma {:induction false} AtOnceAsks(batches: seq<Batch>, n: string)
    ensures var once, asks := AskOf(AtOnce(batches)), AsksOf(batches);
            && (n in once.adds <==> AddAsked(asks, |asks|, n))
            && (n in once.removes <==> RemovalAsked(asks, |asks|, n))
  {
    if batches != [] {
      var k, asks := |batches| - 1, AsksOf(batches);
      var front, last := AtOnce(batches[..k]), batches[k];
      AtOnceAsks(batches[..k], n);
      assert asks[..k] == AsksOf(batches[..k]);
      AskedPrefix(asks, k, k, n);
      AskedLast(asks, n);
      MentionsAppend(front.adds, last.adds);
      MentionsAppend(front.removes, last.removes);
    }
  }

  /** The request stands for all the batches. */
  ghost predicate Combines(once: Ask, asks: seq<Ask>) {
    forall n :: (n in once.adds <==> AddAsked(asks, |asks|, n)) && (n in once.removes <==> RemovalAsked(asks, |asks|, n))
  }

  lemma AtOnceCombines(batches: seq<Batch>)
    ensures Combines(AskOf(AtOnce(batches)), AsksOf(batches))
  {
    forall n { AtOnceAsks(batches, n); }
  }

  /** One request leaves what stays and every piece of what it adds. */
  lemma OnceClosedForm(v: View, once: Ask, asks: seq<Ask>, p: string)
    requires Combines(once, asks)
    ensures p in Take(v, once).models <==> Stays(v, asks, p) || Requested(v, asks, p)
  {
    assert p in AllPieces(once.adds * v.pending) <==> exists n :: n in once.adds * v.pending && p in Pieces(n);
  }

  lemma ArrivesRequested(v: View, asks: seq<Ask>, p: string)
    requires Arrives(v, asks, p)
    ensures Requested(v, asks, p)
  {
    var i, n :| 0 <= i < |asks| && ArrivesBy(v, asks, p, i, n);
    assert AddAsked(asks, |asks|, n);
  }

  /** Every piece of every pending name that is asked to be added stays anyway or arrives with some batch. */
  ghost predicate AllArrive(v: View, asks: seq<Ask>) {
    forall p :: Requested(v, asks, p) ==> Stays(v, asks, p) || Arrives(v, asks, p)
  }

  lemma ViewsAgree(v: View, once: Ask, asks: seq<Ask>)
    requires Combines(once, asks)
    ensures TakeAll(v, asks).models == Take(v, once).models <==> AllArrive(v, asks)
  {
    var inTurn, single := TakeAll(v, asks).models, Take(v, once).models;
    forall p ensures p in inTurn <==> Stays(v, asks, p) || Arrives(v, asks, p) { ClosedForm(v, asks, p); }
    forall p ensures p in single <==> Stays(v, asks, p) || Requested(v, asks, p) { OnceClosedForm(v, once, asks, p); }
    if AllArrive(v, asks) {
      forall p ensures p in inTurn <==> p in single {
        if Arrives(v, asks, p) { ArrivesRequested(v, asks, p); }
      }
    } else {
      var p :| Requested(v, asks, p) && !Stays(v, asks, p) && !Arrives(v, asks, p);
      assert p in single && p !in inTurn;
    }
  }

  ghost predicate Agree(f: Fields, batches: seq<Batch>) {
    Reads(StoreAll(f, batches).text) == Reads(StoreBatch(f, AtOnce(batches)).text)
  }

  /**
   Batches leave the stored field reading as one request would, if and only if
   every piece of every pending name that is asked to be added stays anyway or
   arrives with some batch.
   */
  lemma BatchesAgreeExactly(f: Fields, batches: seq<Batch>)
    requires ViewOf(f).pending !! ViewOf(f).removed
    ensures Agree(f, batches) <==> AllArrive(ViewOf(f), AsksOf(batches))
  {
    StoreAllTakes(f, batches);
    StoreEffect(f, AtOnce(batches));
    AtOnceCombines(batches);
    ViewsAgree(ViewOf(f), AskOf(AtOnce(batches)), AsksOf(batches));
  }

  /** No pending name that is asked to be added contains a comma. */
  ghost predicate AsksWhole(v: View, asks: seq<Ask>) {
    forall n :: n in v.pending && AddAsked(asks, |asks|, n) ==> ',' !in n
  }

  /** Every pending name that is asked to be added is added by the first batch that decides on it. */
  ghost predicate NoneIgnoredFirst(v: View, asks: seq<Ask>) {
    forall n :: n in v.pending && AddAsked(asks, |asks|, n) ==> Enters(asks, n)
  }

  ghost predicate Enters(asks: seq<Ask>, n: string) {
    exists i :: 0 <= i < |asks| && AddedAt(asks, i, n)
  }

  lemma WholeViews(v: View, asks: seq<Ask>)
    requires v.pending !! v.removed && v.pending !! v.models
    requires forall n :: n in v.pending && AddAsked(asks, |asks|, n) ==> Pieces(n) == {n}
    ensures AllArrive(v, asks) <==> NoneIgnoredFirst(v, asks)
  {
    forall p ensures Requested(v, asks, p) <==> p in v.pending && AddAsked(asks, |asks|, p) {
      if p in v.pending && AddAsked(asks, |asks|, p) { assert p in Pieces(p); }
    }
    forall p | p in v.pending ensures Arrives(v, asks, p) <==> Enters(asks, p) { WholeArrives(v, asks, p); }
  }

  lemma WholeArrives(v: View, asks: seq<Ask>, p: string)
    requires v.pending !! v.removed && p in v.pending
    requires forall n :: n in v.pending && AddAsked(asks, |asks|, n) ==> Pieces(n) == {n}
    ensures Arrives(v, asks, p) <==> Enters(asks, p)
  {
    if i, n :| 0 <= i < |asks| && ArrivesBy(v, asks, p, i, n) {
      assert AddAsked(asks, |asks|, n);
      assert AddedAt(asks, i, p);
    }
    if i :| 0 <= i < |asks| && AddedAt(asks, i, p) {
      assert AddAsked(asks, |asks|, p);
      assert ArrivesBy(v, asks, p, i, p);
    }
  }

  lemma WholeAsks(f: Fields, asks: seq<Ask>)
    requires AsksWhole(ViewOf(f), asks)
    ensures forall n :: n in ViewOf(f).pending && AddAsked(asks, |asks|, n) ==> Pieces(n) == {n}
  {
    NormalizeNormal(f.detected);
    forall n | n in ViewOf(f).pending && AddAsked(asks, |asks|, n) ensures Pieces(n) == {n} {
      assert n in Elems(Normalize(f.detected));
      WholePiece(n);
    }
  }

  /** Without commas: if and only if every pending name that is asked to be added is added by the first batch that decides on it. */
  lemma WholeBatchesAgree(f: Fields, batches: seq<Batch>)
    requires ViewOf(f).pending !! ViewOf(f).removed && ViewOf(f).pending !! ViewOf(f).models
    requires AsksWhole(ViewOf(f), AsksOf(batches))
    ensures Agree(f, batches) <==> NoneIgnoredFirst(ViewOf(f), AsksOf(batches))
  {
    BatchesAgreeExactly(f, batches);
    WholeAsks(f, AsksOf(batches));
    WholeViews(ViewOf(f), AsksOf(batches));
  }

  /** What detection leaves stored. */
  function Detected(field: string, s: Setup): Fields {
    Fields(field, PendingAdds(GetModels(field), s), PendingRemoves(GetModels(field), s), s.rules)
  }

  /** From what detection finds, whatever is asked for. */
  lemma DetectedBatchesAgree(field: string, s: Setup, batches: seq<Batch>)
    ensures var f, asks := Detected(field, s), AsksOf(batches);
            && (Agree(f, batches) <==> AllArrive(ViewOf(f), asks))
            && (AsksWhole(ViewOf(f), asks) ==> (Agree(f, batches) <==> NoneIgnoredFirst(ViewOf(f), asks)))
  {
    DetectionDisjoint(GetModels(field), s);
    BatchesAgreeExactly(Detected(field, s), batches);
    if AsksWhole(ViewOf(Detected(field, s)), AsksOf(batches)) { WholeBatchesAgree(Detected(field, s), batches); }
  }

  // ---------- Storing and not storing ----------

  /** The stored fields and the book hold the same lists. */
  ghost predicate Holds(f: Fields, b: Book) {
    Normalize(GetModels(f.text)) == Normalize(b.models) && f.detected == b.detected && f.removed == b.removed && f.rules == b.rules
  }

  lemma HoldsStep(f: Fields, b: Book, batch: Batch)
    requires Holds(f, b) && CommaFree(Added(Opened(f), batch))
    ensures Holds(StoreBatch(f, batch), ApplyBatch(b, batch))
  {
    assert ApplyBatch(Opened(f), batch) == ApplyBatch(b, batch);
    BookReadsBack(f, batch);
    NextModels(b, batch);
    NormalizeIdempotent(ApplyBatch(b, batch).models);
  }

  lemma AddedWhole(f: Fields, batch: Batch, v: View, asks: seq<Ask>)
    requires asks != [] && asks[|asks| - 1] == AskOf(batch) && AsksWhole(v, asks) && Mentions(f.detected) <= v.pending
    ensures CommaFree(Added(Opened(f), batch))
  {
    var added := Added(Opened(f), batch);
    BatchParts(Opened(f), batch);
    MentionsNormal(added);
    forall n | n in added ensures ',' !in n {
      assert n in Elems(added);
      AskedLast(asks, n);
    }
  }

  lemma WholeBefore(v: View, batches: seq<Batch>)
    requires batches != [] && AsksWhole(v, AsksOf(batches))
    ensures AsksWhole(v, AsksOf(batches[..|batches| - 1]))
  {
    var k, asks := |batches| - 1, AsksOf(batches);
    assert asks[..k] == AsksOf(batches[..k]);
    forall n | AddAsked(asks[..k], k, n) ensures AddAsked(asks, k + 1, n) {
      AskedPrefix(asks, k, k, n);
    }
  }

  /** While no pending name that is asked to be added contains a comma, the stored field keeps to the lists, in order. */
  lemma {:induction false} StoredFollowsLists(f: Fields, batches: seq<Batch>)
    requires AsksWhole(ViewOf(f), AsksOf(batches))
    ensures Holds(StoreAll(f, batches), ApplyAll(Opened(f), batches))
    ensures Mentions(StoreAll(f, batches).detected) <= Mentions(f.detected)
  {
    if batches != [] {
      var front, last := batches[..|batches| - 1], batches[|batches| - 1];
      WholeBefore(ViewOf(f), batches);
      StoredFollowsLists(f, front);
      AddedWhole(StoreAll(f, front), last, ViewOf(f), AsksOf(batches));
      HoldsStep(StoreAll(f, front), ApplyAll(Opened(f), front), last);
      BatchDetected(Opened(StoreAll(f, front)), last);
    }
  }

  // ---------- Where batches differ from one request ----------

  lemma MentionsOne(n: string)
    requires n != "" && Trimmed(n)
    ensures Mentions([n]) == {n} && Mentions([]) == {}
  {
    TrimTrimmed(n);
    assert n in [n];
  }

  /** A name ignored first and added later: applied in two batches it stays out, applied at once it comes in. */
  lemma IgnoreThenAddDiffers(n: string)
    requires Whole({n})
    ensures !Agree(Fields("", [n], [], []), [Batch([], [n], []), Batch([n], [], [])])
  {
    var f, batches := Fields("", [n], [], []), [Batch([], [n], []), Batch([n], [], [])];
    assert n in {n};
    MentionsOne(n);
    IgnoredThenAdded(f, batches, n);
  }

  lemma IgnoredThenAdded(f: Fields, batches: seq<Batch>, n: string)
    requires ViewOf(f) == View({}, {n}, {}) && ',' !in n
    requires |batches| == 2 && AskOf(batches[0]) == Ask({}, {n}, {}) && AskOf(batches[1]) == Ask({n}, {}, {})
    ensures !Agree(f, batches)
  {
    IgnoredView(ViewOf(f), AsksOf(batches), n);
    WholeBatchesAgree(f, batches);
  }

  lemma IgnoredView(v: View, asks: seq<Ask>, n: string)
    requires n in v.pending && asks == [Ask({}, {n}, {}), Ask({n}, {}, {})]
    ensures !NoneIgnoredFirst(v, asks)
  {
    assert n in asks[1].adds && n in asks[0].ignores;
    assert AddAsked(asks, 2, n) && Decided(asks, 1, n);
    assert !AddedAt(asks, 0, n) && !AddedAt(asks, 1, n);
  }

  /**
   The upstream offers one name with a comma, the channel has its first piece.
   Added first and removed after, as detection asks for, the piece is gone;
   applied at once, it is there. No name is ever ignored.
   */
  lemma CommaBatchesDiffer(a: string, b: string, matches: Matcher)
    requires Whole({a, b})
    ensures var name := a + "," + b;
            var f := Detected(a, Setup([name], [], map[], matches));
            var batches := [Batch([name], [], []), Batch([], [], [a])];
            && f.detected == [name] && f.removed == [a]
            && NoneIgnoredFirst(ViewOf(f), AsksOf(batches)) && !Agree(f, batches)
  {
    var name := a + "," + b;
    var f := Detected(a, Setup([name], [], map[], matches));
    var batches := [Batch([name], [], []), Batch([], [], [a])];
    CommaName(a, b, name);
    CommaDetected(a, name, matches);
    TornSets(f, batches, a, name);
    AddedThenTorn(f, batches, ViewOf(f), AsksOf(batches), a, name);
  }

  lemma CommaName(a: string, b: string, name: string)
    requires Whole({a, b}) && name == a + "," + b
    ensures name != "" && Trimmed(name) && a != "" && Trimmed(a) && name != a && GetModels(a) == [a] && a in Pieces(name)
  {
    assert a in {a, b} && b in {a, b};
    assert name[0] == a[0] && name[|name| - 1] == b[|b| - 1];
    assert a[0] in a && a[|a| - 1] in a;
    SplitName(a, "", ',');
    SplitName(a, b, ',');
    TrimTrimmed(a);
    assert Split(name, ',')[0] == a;
  }

  lemma CommaDetected(a: string, name: string, matches: Matcher)
    requires name != "" && Trimmed(name) && a != "" && Trimmed(a) && name != a && GetModels(a) == [a]
    ensures var f := Detected(a, Setup([name], [], map[], matches)); f.detected == [name] && f.removed == [a]
  {
    var s := Setup([name], [], map[], matches);
    MentionsOne(name);
    MentionsOne(a);
    PendingSets([a], s);
    assert forall n :: !Ignored(s.rules, n, matches);
    Singleton(PendingAdds([a], s), name);
    Singleton(PendingRemoves([a], s), a);
  }

  lemma Singleton(names: seq<string>, n: string)
    requires Distinct(names) && forall m :: m in names <==> m == n
    ensures names == [n]
  {
    DistinctMultiset(names);
    assert Elems(names) == {n};
    assert names[0] in names;
  }

  lemma TornSets(f: Fields, batches: seq<Batch>, a: string, name: string)
    requires name != "" && Trimmed(name) && a != "" && Trimmed(a) && GetModels(a) == [a]
    requires f.text == a && f.detected == [name] && f.removed == [a]
    requires |batches| == 2 && batches[0] == Batch([name], [], []) && batches[1] == Batch([], [], [a])
    ensures ViewOf(f) == View({a}, {name}, {a}) && AsksOf(batches) == [Ask({name}, {}, {}), Ask({}, {}, {a})]
  {
    MentionsOne(name);
    MentionsOne(a);
  }

  lemma TornView(v: View, asks: seq<Ask>, a: string, name: string)
    requires v == View({a}, {name}, {a}) && a in Pieces(name)
    requires asks == [Ask({name}, {}, {}), Ask({}, {}, {a})]
    ensures NoneIgnoredFirst(v, asks) && !AllArrive(v, asks)
  {
    assert AddedAt(asks, 0, name) && Enters(asks, name);
    assert AddAsked(asks, 2, name) && Requested(v, asks, a);
    assert a in asks[1].removes && RemovalAsked(asks, 2, a) && !RemovalAsked(asks, 1, a);
    assert !Stays(v, asks, a);
    forall i, n | 0 <= i < 2 ensures !ArrivesBy(v, asks, a, i, n) {
    }
  }

  lemma AddedThenTorn(f: Fields, batches: seq<Batch>, v: View, asks: seq<Ask>, a: string, name: string)
    requires ViewOf(f) == v == View({a}, {name}, {a}) && a != name && a in Pieces(name)
    requires AsksOf(batches) == asks == [Ask({name}, {}, {}), Ask({}, {}, {a})]
    ensures NoneIgnoredFirst(v, asks) && !Agree(f, batches)
  {
    assert v.pending !! v.removed;
    BatchesAgreeExactly(f, batches);
    TornView(v, asks, a, name);
  }
}
