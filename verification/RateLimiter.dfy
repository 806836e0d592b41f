/**
 The in-memory sliding-window rate limiter with reservations. Every call and
 every background sweep is one atomic step, as the mutex makes it.
 */
module RateLimiter {
  import opened Names

  datatype Req = Req(at: int, id: nat)

  datatype Entry = Entry(requests: seq<Req>, expiration: int)

  const UINT64 := 0x1_0000_0000_0000_0000

  datatype Op =
    | Request(key: string, limit: int, window: int)
    | Reserve(key: string, limit: int, window: int, retention: int)
    | Release(key: string, id: nat)
    | Sweep

  datatype Answer = Allowed(id: nat) | Denied | Done

  /** The reservation number after n: a 64-bit counter that skips zero. */
  function NextID(n: nat): nat {
    var m := Increment(n);
    if m == 0 then Increment(m) else m
  }

  /** Addition of one on a 64-bit counter. */
  function Increment(n: nat): nat {
    if n >= UINT64 - 1 then 0 else n + 1
  }

  // ---------- Queues ----------

  /** Drops the leading requests of at least the given age. */
  function Prune(q: seq<Req>, now: int, age: int): seq<Req> {
    if q == [] || now - q[0].at < age then q else Prune(q[1..], now, age)
  }

  /** The backward scan: how many trailing requests are younger than the window. */
  function TailActive(q: seq<Req>, now: int, window: int): nat {
    if q == [] || now - q[|q| - 1].at >= window then 0 else 1 + TailActive(q[..|q| - 1], now, window)
  }

  /** How many requests, anywhere in the list, are younger than the window. */
  function Young(q: seq<Req>, now: int, window: int): nat {
    if q == [] then 0 else Young(q[..|q| - 1], now, window) + if now - q[|q| - 1].at < window then 1 else 0
  }

  /** The position of the last request with the number, or -1. */
  function LastIndex(q: seq<Req>, id: nat): (r: int)
    ensures -1 <= r < |q|
    ensures r >= 0 ==> q[r].id == id
    ensures forall i :: r < i < |q| ==> q[i].id != id
  {
    if q == [] then -1
    else if q[|q| - 1].id == id then |q| - 1
    else LastIndex(q[..|q| - 1], id)
  }

  function Without(q: seq<Req>, id: nat): seq<Req> {
    var i := LastIndex(q, id);
    if i < 0 then q else RemoveAt(q, i)
  }

  // ---------- The limiter as a step function ----------

  datatype State = State(store: map<string, Entry>, sweepAge: int, next: nat)

  function Queue(s: State, key: string): seq<Req> {
    if key in s.store then s.store[key].requests else []
  }

  predicate Expired(e: Entry, sweepAge: int, now: int) {
    var age := if e.expiration <= 0 then sweepAge else e.expiration;
    e.requests == [] || now - e.requests[|e.requests| - 1].at > age
  }

  function Step(s: State, op: Op, now: int): (State, Answer) {
    match op
    case Request(key, limit, window) =>
      var q := Prune(Queue(s, key), now, window);
      if |q| >= limit then (s.(store := s.store[key := Entry(q, window)]), Denied)
      else (s.(store := s.store[key := Entry(q + [Req(now, 0)], window)]), Allowed(0))
    case Reserve(key, limit, window, retention) =>
      if limit <= 0 || window <= 0 || retention < window then (s, Denied)
      else
        var q := Prune(Queue(s, key), now, retention);
        if TailActive(q, now, window) >= limit then (s.(store := s.store[key := Entry(q, retention)]), Denied)
        else
          var id := NextID(s.next);
          (State(s.store[key := Entry(q + [Req(now, id)], retention)], s.sweepAge, id), Allowed(id))
    case Release(key, id) =>
      if id == 0 || key !in s.store || LastIndex(s.store[key].requests, id) < 0 then (s, Done)
      else
        var q := Without(s.store[key].requests, id);
        (s.(store := if q == [] then s.store - {key} else s.store[key := s.store[key].(requests := q)]), Done)
    case Sweep =>
      (s.(store := map k | k in s.store && !Expired(s.store[k], s.sweepAge, now) :: s.store[k]), Done)
  }

  class InMemoryRateLimiter {
    var store: map<string, Entry>
    var expirationDuration: int
    var nextReservationID: nat

    ghost function Snapshot(): State
      reads this
    {
      State(store, expirationDuration, nextReservationID)
    }

    constructor Init(expirationDuration: int)
      ensures Snapshot() == State(map[], expirationDuration, 0)
    {
      this.store, this.expirationDuration, this.nextReservationID := map[], expirationDuration, 0;
    }

    method PruneKey(key: string, now: int, age: int) returns (requests: seq<Req>)
      ensures requests == Prune(Queue(Snapshot(), key), now, age)
    {
      var all := if key in store then store[key].requests else [];
      var first := 0;
      while first < |all| && now - all[first].at >= age
        invariant first <= |all|
        invariant Prune(all[first..], now, age) == Prune(all, now, age)
      {
        assert all[first..][1..] == all[first + 1..];
        first := first + 1;
      }
      requests := all[first..];
    }

    /** request */
    method Request(key: string, limit: int, window: int, now: int) returns (allowed: bool)
      modifies this
      ensures (Snapshot(), if allowed then Allowed(0) else Denied) == Step(old(Snapshot()), Op.Request(key, limit, window), now)
    {
      var requests := PruneKey(key, now, window);
      if |requests| >= limit {
        store := store[key := Entry(requests, window)];
        return false;
      }
      store := store[key := Entry(requests + [Req(now, 0)], window)];
      return true;
    }

    /** ReserveWithRetention */
    method ReserveWithRetention(key: string, limit: int, window: int, retention: int, now: int) returns (id: nat, allowed: bool)
      modifies this
      ensures (Snapshot(), if allowed then Allowed(id) else Denied) ==
              Step(old(Snapshot()), Reserve(key, limit, window, retention), now)
      ensures !allowed ==> id == 0
    {
      if limit <= 0 || window <= 0 || retention < window {
        return 0, false;
      }
      var requests := PruneKey(key, now, retention);
      var active := 0;
      var i := |requests| - 1;
      assert requests[..i + 1] == requests;
      while i >= 0 && now - requests[i].at < window
        invariant -1 <= i < |requests|
        invariant active + TailActive(requests[..i + 1], now, window) == TailActive(requests, now, window)
      {
        assert requests[..i + 1][..i] == requests[..i];
        active, i := active + 1, i - 1;
      }
      if active >= limit {
        store := store[key := Entry(requests, retention)];
        return 0, false;
      }
      nextReservationID := Increment(nextReservationID);
      if nextReservationID == 0 { nextReservationID := nextReservationID + 1; }
      id := nextReservationID;
      store := store[key := Entry(requests + [Req(now, id)], retention)];
      allowed := true;
    }

    /** ReleaseReservation */
    method ReleaseReservation(key: string, id: nat, now: int)
      modifies this
      ensures (Snapshot(), Done) == Step(old(Snapshot()), Release(key, id), now)
    {
      if id == 0 || key !in store || store[key].requests == [] {
        return;
      }
      var requests := store[key].requests;
      var index := -1;
      var i := |requests| - 1;
      while i >= 0
        invariant -1 <= i < |requests|
        invariant LastIndex(requests, id) == LastIndex(requests[..i + 1], id)
      {
        if requests[i].id == id {
          index := i;
          break;
        }
        assert requests[..i + 1][..i] == requests[..i];
        i := i - 1;
      }
      if index == -1 { return; }
      requests := requests[..index] + requests[index + 1..];
      if requests == [] {
        store := store - {key};
        return;
      }
      store := store[key := store[key].(requests := requests)];
    }

    /** deleteExpiredItems */
    method DeleteExpiredItems(now: int)
      modifies this
      ensures (Snapshot(), Done) == Step(old(Snapshot()), Sweep, now)
    {
      ghost var before := store;
      var keys := Keys(store.Keys);
      assert forall k :: k in keys <==> k in Elems(keys);
      for i := 0 to |keys|
        invariant expirationDuration == old(expirationDuration) && nextReservationID == old(nextReservationID)
        invariant forall k :: k in store <==> k in before && !(k in keys[..i] && Expired(before[k], expirationDuration, now))
        invariant forall k :: k in store ==> store[k] == before[k]
      {
        var key := keys[i];
        assert keys[..i + 1] == keys[..i] + [key];
        assert key !in keys[..i];
        var entry := store[key];
        var age := entry.expiration;
        if age <= 0 { age := expirationDuration; }
        if entry.requests == [] || now - entry.requests[|entry.requests| - 1].at > age {
          store := store - {key};
        }
      }
      assert keys[..|keys|] == keys;
      assert store == map k | k in before && !Expired(before[k], expirationDuration, now) :: before[k];
    }
  }

  // ---------- The full-history specification ----------

  /** Nothing is ever forgotten: per key, every accepted and unreleased request. */
  datatype Full = Full(history: map<string, seq<Req>>, next: nat)

  function HistoryOf(f: Full, key: string): seq<Req> {
    if key in f.history then f.history[key] else []
  }

  function FullStep(f: Full, op: Op, now: int): (Full, Answer) {
    match op
    case Request(key, limit, window) =>
      var h := HistoryOf(f, key);
      if Young(h, now, window) >= limit then (f, Denied)
      else (f.(history := f.history[key := h + [Req(now, 0)]]), Allowed(0))
    case Reserve(key, limit, window, retention) =>
      var h := HistoryOf(f, key);
      if limit <= 0 || window <= 0 || retention < window || Young(h, now, window) >= limit then (f, Denied)
      else
        var id := NextID(f.next);
        (Full(f.history[key := h + [Req(now, id)]], id), Allowed(id))
    case Release(key, id) =>
      if id == 0 then (f, Done) else (f.(history := f.history[key := Without(HistoryOf(f, key), id)]), Done)
    case Sweep => (f, Done)
  }

  /** Oldest first, none later than now. */
  ghost predicate Chronological(q: seq<Req>, now: int) {
    q == [] || (q[|q| - 1].at <= now && Chronological(q[..|q| - 1], q[|q| - 1].at))
  }

  ghost predicate AllAged(q: seq<Req>, now: int, age: int) {
    forall i :: 0 <= i < |q| ==> now - q[i].at >= age
  }

  /** The queue is what is left of the history after forgetting only requests past their retention. */
  ghost predicate Forgets(q: seq<Req>, h: seq<Req>, now: int, retention: int) {
    Chronological(h, now) && exists gone :: AllAged(gone, now, retention) && h == gone + q
  }

  lemma Forget(gone: seq<Req>, q: seq<Req>, h: seq<Req>, now: int, retention: int)
    requires h == gone + q && Chronological(h, now) && AllAged(gone, now, retention)
    ensures Forgets(q, h, now, retention)
  {
  }

  lemma Forgotten(q: seq<Req>, h: seq<Req>, now: int, retention: int) returns (gone: seq<Req>)
    requires Forgets(q, h, now, retention)
    ensures h == gone + q && Chronological(h, now) && AllAged(gone, now, retention)
  {
    gone :| AllAged(gone, now, retention) && h == gone + q;
  }

  lemma {:induction false} ChronologicalLater(q: seq<Req>, now: int, later: int)
    requires Chronological(q, now) && now <= later
    ensures Chronological(q, later)
  {
  }

  lemma {:induction false} ChronologicalAppend(a: seq<Req>, b: seq<Req>, now: int)
    requires Chronological(a + b, now)
    ensures Chronological(a, now) && Chronological(b, now)
    ensures b != [] ==> Chronological(a, b[0].at)
    decreases |b|
  {
    if b == [] {
      assert a + b == a;
    } else {
      var ab, last := a + b, b[|b| - 1];
      assert ab[..|ab| - 1] == a + b[..|b| - 1] && ab[|ab| - 1] == last;
      ChronologicalAppend(a, b[..|b| - 1], last.at);
      ChronologicalLater(a, last.at, now);
    }
  }

  lemma {:induction false} ChronologicalFirst(q: seq<Req>, now: int)
    requires Chronological(q, now)
    ensures forall i :: 0 <= i < |q| ==> q[i].at <= now
    ensures forall i :: 0 <= i < |q| ==> q[0].at <= q[i].at
    ensures forall i :: 0 <= i < |q| ==> q[i].at <= q[|q| - 1].at
  {
    if q != [] { ChronologicalFirst(q[..|q| - 1], q[|q| - 1].at); }
  }

  lemma ForgetsLater(q: seq<Req>, h: seq<Req>, now: int, later: int, retention: int)
    requires Forgets(q, h, now, retention) && now <= later
    ensures Forgets(q, h, later, retention)
  {
    ChronologicalLater(h, now, later);
  }

  lemma {:induction false} PruneSplit(q: seq<Req>, now: int, age: int) returns (cut: seq<Req>)
    ensures q == cut + Prune(q, now, age) && AllAged(cut, now, age)
    ensures Chronological(q, now) ==> forall r :: r in Prune(q, now, age) ==> now - r.at < age
    decreases |q|
  {
    cut := [];
    if q == [] {
    } else if now - q[0].at < age {
      if Chronological(q, now) { ChronologicalFirst(q, now); }
    } else {
      cut := PruneSplit(q[1..], now, age);
      cut := [q[0]] + cut;
      assert q == [q[0]] + q[1..];
      if Chronological(q, now) { ChronologicalAppend([q[0]], q[1..], now); }
    }
  }

  lemma PruneForgets(q: seq<Req>, h: seq<Req>, now: int, retention: int)
    requires Forgets(q, h, now, retention)
    ensures Forgets(Prune(q, now, retention), h, now, retention)
    ensures forall r :: r in Prune(q, now, retention) ==> now - r.at < retention
  {
    var gone := Forgotten(q, h, now, retention);
    ChronologicalAppend(gone, q, now);
    var cut := PruneSplit(q, now, retention);
    ForgetMore(gone, cut, Prune(q, now, retention), h, now, retention);
  }

  lemma ForgetMore(gone: seq<Req>, cut: seq<Req>, q: seq<Req>, h: seq<Req>, now: int, retention: int)
    requires h == gone + (cut + q) && Chronological(h, now) && AllAged(gone, now, retention) && AllAged(cut, now, retention)
    ensures Forgets(q, h, now, retention)
  {
    assert h == (gone + cut) + q;
    Forget(gone + cut, q, h, now, retention);
  }

  lemma {:induction false} YoungBounds(q: seq<Req>, now: int, window: int)
    ensures Young(q, now, window) <= |q|
    ensures (forall r :: r in q ==> now - r.at < window) ==> Young(q, now, window) == |q|
    ensures AllAged(q, now, window) ==> Young(q, now, window) == 0
  {
    if q != [] { YoungBounds(q[..|q| - 1], now, window); }
  }

  lemma {:induction false} YoungAppend(a: seq<Req>, b: seq<Req>, now: int, window: int)
    ensures Young(a + b, now, window) == Young(a, now, window) + Young(b, now, window)
    decreases |b|
  {
    if b == [] {
      assert a + b == a;
    } else {
      assert (a + b)[..|a + b| - 1] == a + b[..|b| - 1];
      YoungAppend(a, b[..|b| - 1], now, window);
    }
  }

  /** What was forgotten is too old to count in any window up to the retention. */
  lemma YoungForgets(q: seq<Req>, h: seq<Req>, now: int, retention: int, window: int)
    requires Forgets(q, h, now, retention) && window <= retention
    ensures Young(h, now, window) == Young(q, now, window)
  {
    var gone := Forgotten(q, h, now, retention);
    YoungAppend(gone, q, now, window);
    YoungBounds(gone, now, window);
  }

  /** On a chronological queue the backward scan counts everything young. */
  lemma {:induction false} TailCountsAll(q: seq<Req>, now: int, window: int)
    requires Chronological(q, now)
    ensures TailActive(q, now, window) == Young(q, now, window)
  {
    if q != [] {
      if now - q[|q| - 1].at >= window {
        ChronologicalFirst(q, now);
        YoungBounds(q, now, window);
      } else {
        ChronologicalLater(q[..|q| - 1], q[|q| - 1].at, now);
        TailCountsAll(q[..|q| - 1], now, window);
      }
    }
  }

  lemma AppendForgets(q: seq<Req>, h: seq<Req>, now: int, retention: int, r: Req)
    requires Forgets(q, h, now, retention) && r.at == now
    ensures Forgets(q + [r], h + [r], now, retention)
  {
    var gone := Forgotten(q, h, now, retention);
    var more := h + [r];
    assert more[..|more| - 1] == h;
    assert more == gone + (q + [r]);
    Forget(gone, q + [r], more, now, retention);
  }

  lemma {:induction false} RemoveKeepsChronology(h: seq<Req>, now: int, j: nat)
    requires Chronological(h, now) && j < |h|
    ensures Chronological(RemoveAt(h, j), now)
    decreases |h|
  {
    var front, last := h[..|h| - 1], h[|h| - 1];
    if j == |h| - 1 {
      assert RemoveAt(h, j) == front;
      ChronologicalLater(front, last.at, now);
    } else {
      RemoveKeepsChronology(front, last.at, j);
      var cut := RemoveAt(h, j);
      assert cut == RemoveAt(front, j) + [last];
      assert cut[..|cut| - 1] == RemoveAt(front, j);
    }
  }

  lemma RemoveQueued(q: seq<Req>, h: seq<Req>, now: int, retention: int, i: nat)
    requires Forgets(q, h, now, retention) && i < |q|
    ensures Forgets(RemoveAt(q, i), RemoveAt(h, |h| - |q| + i), now, retention)
  {
    var gone := Forgotten(q, h, now, retention);
    RemoveKeepsChronology(h, now, |gone| + i);
    assert RemoveAt(h, |gone| + i) == gone + RemoveAt(q, i);
    Forget(gone, RemoveAt(q, i), RemoveAt(h, |gone| + i), now, retention);
  }

  lemma RemoveForgotten(q: seq<Req>, h: seq<Req>, now: int, retention: int, j: nat)
    requires Forgets(q, h, now, retention) && j < |h| - |q|
    ensures Forgets(q, RemoveAt(h, j), now, retention)
  {
    var gone := Forgotten(q, h, now, retention);
    RemoveKeepsChronology(h, now, j);
    assert RemoveAt(h, j) == RemoveAt(gone, j) + q;
    Forget(RemoveAt(gone, j), q, RemoveAt(h, j), now, retention);
  }

  /** The last matching request of a history is the queue's own, if the queue has one. */
  lemma LastIndexSuffix(q: seq<Req>, h: seq<Req>, id: nat)
    requires |q| <= |h| && h[|h| - |q|..] == q
    ensures LastIndex(q, id) >= 0 ==> LastIndex(h, id) == |h| - |q| + LastIndex(q, id)
    ensures LastIndex(q, id) < 0 ==> LastIndex(h, id) < |h| - |q|
  {
    var k := |h| - |q|;
    assert forall m :: k <= m < |h| ==> h[m] == q[m - k];
  }

  /** Removing the numbered request from queue and history keeps them in step. */
  lemma ReleaseForgets(q: seq<Req>, h: seq<Req>, now: int, retention: int, id: nat)
    requires Forgets(q, h, now, retention)
    ensures Forgets(Without(q, id), Without(h, id), now, retention)
  {
    LastIndexSuffix(q, h, id);
    if LastIndex(q, id) >= 0 {
      RemoveQueued(q, h, now, retention, LastIndex(q, id));
    } else if LastIndex(h, id) >= 0 {
      RemoveForgotten(q, h, now, retention, LastIndex(h, id));
    }
  }

  // ---------- Refinement ----------

  type Policy = string -> int

  /** On each key the retention is fixed; windows and limits may vary call by call. */
  predicate Follows(op: Op, policy: Policy) {
    match op
    case Request(key, _, window) => window == policy(key)
    case Reserve(key, _, _, retention) => retention == policy(key)
    case Release(_, _) => true
    case Sweep => true
  }

  ghost predicate RelatedAt(s: State, f: Full, now: int, policy: Policy, key: string) {
    && Forgets(Queue(s, key), HistoryOf(f, key), now, policy(key))
    && (key in s.store ==> s.store[key].expiration == policy(key))
  }

  ghost predicate Related(s: State, f: Full, now: int, policy: Policy) {
    s.next == f.next && forall k :: RelatedAt(s, f, now, policy, k)
  }

  lemma SweepForgets(e: Entry, h: seq<Req>, sweepAge: int, now: int, retention: int)
    requires Forgets(e.requests, h, now, retention) && e.expiration == retention && Expired(e, sweepAge, now)
    ensures Forgets([], h, now, retention)
  {
    ChronologicalFirst(h, now);
    var q := e.requests;
    if q != [] { assert q[|q| - 1] == h[|h| - 1]; }
    var gone := Forgotten(q, h, now, retention);
    assert h == h + [];
    Forget(h, [], h, now, retention);
  }

  /** Pruning keeps what the decision needs: both scans count what the full history counts. */
  lemma PrunedCounts(q: seq<Req>, h: seq<Req>, now: int, retention: int, window: int)
    requires Forgets(q, h, now, retention) && window <= retention
    ensures var p := Prune(q, now, retention);
            && TailActive(p, now, window) == Young(h, now, window)
            && (window == retention ==> |p| == Young(h, now, window))
  {
    var p := Prune(q, now, retention);
    PruneForgets(q, h, now, retention);
    YoungForgets(p, h, now, retention, window);
    YoungBounds(p, now, window);
    var gone := Forgotten(p, h, now, retention);
    ChronologicalAppend(gone, p, now);
    TailCountsAll(p, now, window);
  }

  lemma RequestAnswers(s: State, f: Full, key: string, limit: int, window: int, now: int)
    requires Forgets(Queue(s, key), HistoryOf(f, key), now, window) && s.next == f.next
    ensures var op := Op.Request(key, limit, window);
            && Step(s, op, now).1 == FullStep(f, op, now).1
            && Step(s, op, now).0.next == FullStep(f, op, now).0.next
  {
    PrunedCounts(Queue(s, key), HistoryOf(f, key), now, window, window);
  }

  /** The called key stays related to its history. */
  lemma RequestRefines(s: State, f: Full, key: string, limit: int, window: int, now: int, policy: Policy)
    requires RelatedAt(s, f, now, policy, key) && window == policy(key)
    ensures var op := Op.Request(key, limit, window);
            RelatedAt(Step(s, op, now).0, FullStep(f, op, now).0, now, policy, key)
  {
    var q, h := Queue(s, key), HistoryOf(f, key);
    var s', f' := Step(s, Op.Request(key, limit, window), now).0, FullStep(f, Op.Request(key, limit, window), now).0;
    RequestBoth(s, f, key, limit, window, now);
    DecideAlike(q, h, now, window, window, 0);
    RelateAny(s', f', now, policy, key, Prune(q, now, window), h, Req(now, 0));
  }

  lemma RequestBoth(s: State, f: Full, key: string, limit: int, window: int, now: int)
    requires Forgets(Queue(s, key), HistoryOf(f, key), now, window)
    ensures var op := Op.Request(key, limit, window);
            var s', f' := Step(s, op, now).0, FullStep(f, op, now).0;
            && key in s'.store && s'.store[key].expiration == window
            && InStep(s', f', key, Prune(Queue(s, key), now, window), HistoryOf(f, key), Req(now, 0))
  {
    PrunedCounts(Queue(s, key), HistoryOf(f, key), now, window, window);
    RequestQueue(s, key, limit, window, now);
    RequestHistory(f, key, limit, window, now);
  }

  lemma RequestQueue(s: State, key: string, limit: int, window: int, now: int)
    ensures var s' := Step(s, Op.Request(key, limit, window), now).0;
            var q := Prune(Queue(s, key), now, window);
            && key in s'.store && s'.store[key].expiration == window
            && Queue(s', key) == if |q| >= limit then q else q + [Req(now, 0)]
  {
  }

  lemma RequestHistory(f: Full, key: string, limit: int, window: int, now: int)
    ensures var f' := FullStep(f, Op.Request(key, limit, window), now).0;
            var h := HistoryOf(f, key);
            HistoryOf(f', key) == if Young(h, now, window) >= limit then h else h + [Req(now, 0)]
  {
  }

  lemma ReserveAnswers(s: State, f: Full, key: string, limit: int, window: int, retention: int, now: int)
    requires Forgets(Queue(s, key), HistoryOf(f, key), now, retention) && s.next == f.next
    ensures var op := Reserve(key, limit, window, retention);
            && Step(s, op, now).1 == FullStep(f, op, now).1
            && Step(s, op, now).0.next == FullStep(f, op, now).0.next
  {
    if !(limit <= 0 || window <= 0 || retention < window) {
      PrunedCounts(Queue(s, key), HistoryOf(f, key), now, retention, window);
    }
  }

  lemma ReserveRefines(s: State, f: Full, key: string, limit: int, window: int, retention: int, now: int, policy: Policy)
    requires RelatedAt(s, f, now, policy, key) && retention == policy(key) && s.next == f.next
    ensures var op := Reserve(key, limit, window, retention);
            RelatedAt(Step(s, op, now).0, FullStep(f, op, now).0, now, policy, key)
  {
    if !(limit <= 0 || window <= 0 || retention < window) {
      var q, h, id := Queue(s, key), HistoryOf(f, key), NextID(s.next);
      var s', f' := Step(s, Reserve(key, limit, window, retention), now).0, FullStep(f, Reserve(key, limit, window, retention), now).0;
      ReserveBoth(s, f, key, limit, window, retention, now);
      DecideAlike(q, h, now, retention, window, id);
      RelateAny(s', f', now, policy, key, Prune(q, now, retention), h, Req(now, id));
    }
  }

  /** Both sides either keep their lists, up to pruning, or both append the reservation. */
  ghost predicate InStep(s: State, f: Full, key: string, q: seq<Req>, h: seq<Req>, r: Req) {
    (Queue(s, key) == q && HistoryOf(f, key) == h) || (Queue(s, key) == q + [r] && HistoryOf(f, key) == h + [r])
  }

  lemma ReserveBoth(s: State, f: Full, key: string, limit: int, window: int, retention: int, now: int)
    requires limit > 0 && window > 0 && retention >= window && s.next == f.next
    requires Forgets(Queue(s, key), HistoryOf(f, key), now, retention)
    ensures var op := Reserve(key, limit, window, retention);
            var s', f' := Step(s, op, now).0, FullStep(f, op, now).0;
            && key in s'.store && s'.store[key].expiration == retention
            && InStep(s', f', key, Prune(Queue(s, key), now, retention), HistoryOf(f, key), Req(now, NextID(s.next)))
  {
    PrunedCounts(Queue(s, key), HistoryOf(f, key), now, retention, window);
    ReserveQueue(s, key, limit, window, retention, now);
    ReserveHistory(f, key, limit, window, retention, now);
  }

  lemma RelateAny(s: State, f: Full, now: int, policy: Policy, key: string, q: seq<Req>, h: seq<Req>, r: Req)
    requires InStep(s, f, key, q, h, r)
    requires Forgets(q, h, now, policy(key)) && Forgets(q + [r], h + [r], now, policy(key))
    requires key in s.store ==> s.store[key].expiration == policy(key)
    ensures RelatedAt(s, f, now, policy, key)
  {
  }

  /** Whether or not the call is accepted, queue and history stay in step. */
  lemma DecideAlike(q: seq<Req>, h: seq<Req>, now: int, retention: int, window: int, id: nat)
    requires Forgets(q, h, now, retention) && window <= retention
    ensures var p := Prune(q, now, retention);
            && TailActive(p, now, window) == Young(h, now, window)
            && Forgets(p, h, now, retention)
            && Forgets(p + [Req(now, id)], h + [Req(now, id)], now, retention)
  {
    PrunedCounts(q, h, now, retention, window);
    PruneForgets(q, h, now, retention);
    AppendForgets(Prune(q, now, retention), h, now, retention, Req(now, id));
  }

  lemma ReserveQueue(s: State, key: string, limit: int, window: int, retention: int, now: int)
    requires limit > 0 && window > 0 && retention >= window
    ensures var (s', answer) := Step(s, Reserve(key, limit, window, retention), now);
            var q := Prune(Queue(s, key), now, retention);
            && key in s'.store && s'.store[key].expiration == retention
            && if TailActive(q, now, window) >= limit then Queue(s', key) == q && s'.next == s.next && answer == Denied
               else Queue(s', key) == q + [Req(now, NextID(s.next))] && s'.next == NextID(s.next) && answer == Allowed(NextID(s.next))
  {
  }

  lemma ReserveHistory(f: Full, key: string, limit: int, window: int, retention: int, now: int)
    requires limit > 0 && window > 0 && retention >= window
    ensures var (f', answer) := FullStep(f, Reserve(key, limit, window, retention), now);
            var h := HistoryOf(f, key);
            if Young(h, now, window) >= limit then HistoryOf(f', key) == h && f'.next == f.next && answer == Denied
            else HistoryOf(f', key) == h + [Req(now, NextID(f.next))] && f'.next == NextID(f.next) && answer == Allowed(NextID(f.next))
  {
  }

  lemma ReleaseRefines(s: State, f: Full, key: string, id: nat, now: int, policy: Policy)
    requires RelatedAt(s, f, now, policy, key)
    ensures RelatedAt(Step(s, Release(key, id), now).0, FullStep(f, Release(key, id), now).0, now, policy, key)
  {
    ReleaseQueues(s, f, key, id, now);
    if id != 0 {
      ReleaseForgets(Queue(s, key), HistoryOf(f, key), now, policy(key), id);
    }
  }

  lemma ReleaseQueues(s: State, f: Full, key: string, id: nat, now: int)
    ensures var s', f' := Step(s, Release(key, id), now).0, FullStep(f, Release(key, id), now).0;
            && Queue(s', key) == (if id == 0 then Queue(s, key) else Without(Queue(s, key), id))
            && HistoryOf(f', key) == (if id == 0 then HistoryOf(f, key) else Without(HistoryOf(f, key), id))
            && (key in s'.store ==> key in s.store && s'.store[key].expiration == s.store[key].expiration)
  {
  }

  lemma SweepRefines(s: State, f: Full, now: int, policy: Policy, key: string)
    requires RelatedAt(s, f, now, policy, key)
    ensures RelatedAt(Step(s, Sweep, now).0, f, now, policy, key)
  {
    SweepQueue(s, now, key);
    if key in s.store && Expired(s.store[key], s.sweepAge, now) {
      SweepForgets(s.store[key], HistoryOf(f, key), s.sweepAge, now, policy(key));
    }
  }

  lemma SweepQueue(s: State, now: int, key: string)
    ensures var s' := Step(s, Sweep, now).0;
            if key in s.store && Expired(s.store[key], s.sweepAge, now) then key !in s'.store && Queue(s', key) == []
            else (key in s'.store <==> key in s.store) && (key in s.store ==> s'.store[key] == s.store[key])
                 && Queue(s', key) == Queue(s, key)
  {
  }

  /** A call on one key leaves the other keys alone. */
  lemma OtherKeys(s: State, f: Full, op: Op, now: int, key: string)
    requires !op.Sweep? && op.key != key
    ensures var s', f' := Step(s, op, now).0, FullStep(f, op, now).0;
            && HistoryOf(f', key) == HistoryOf(f, key)
            && (key in s'.store <==> key in s.store) && (key in s.store ==> s'.store[key] == s.store[key])
  {
  }

  /** Any step keeps any key related. */
  lemma StepKeepsRelated(s: State, f: Full, op: Op, now: int, policy: Policy, key: string)
    requires RelatedAt(s, f, now, policy, key) && s.next == f.next && Follows(op, policy)
    ensures RelatedAt(Step(s, op, now).0, FullStep(f, op, now).0, now, policy, key)
  {
    if op.Sweep? {
      SweepRefines(s, f, now, policy, key);
    } else if op.key != key {
      OtherKeys(s, f, op, now, key);
    } else {
      match op
      case Request(_, limit, window) => RequestRefines(s, f, key, limit, window, now, policy);
      case Reserve(_, limit, window, retention) => ReserveRefines(s, f, key, limit, window, retention, now, policy);
      case Release(_, id) => ReleaseRefines(s, f, key, id, now, policy);
    }
  }

  lemma StepAnswers(s: State, f: Full, op: Op, now: int, policy: Policy)
    requires !op.Sweep? ==> RelatedAt(s, f, now, policy, op.key)
    requires s.next == f.next && Follows(op, policy)
    ensures Step(s, op, now).1 == FullStep(f, op, now).1
    ensures Step(s, op, now).0.next == FullStep(f, op, now).0.next
  {
    match op
    case Request(k, limit, window) => RequestAnswers(s, f, k, limit, window, now);
    case Reserve(k, limit, window, retention) => ReserveAnswers(s, f, k, limit, window, retention, now);
    case Release(_, _) =>
    case Sweep =>
  }

  lemma StepRefines(s: State, f: Full, before: int, op: Op, now: int, policy: Policy)
    requires Related(s, f, before, policy) && before <= now && Follows(op, policy)
    ensures Step(s, op, now).1 == FullStep(f, op, now).1
    ensures Related(Step(s, op, now).0, FullStep(f, op, now).0, now, policy)
  {
    RelatedLater(s, f, before, now, policy);
    if !op.Sweep? { assert RelatedAt(s, f, now, policy, op.key); }
    StepAnswers(s, f, op, now, policy);
    forall k ensures RelatedAt(Step(s, op, now).0, FullStep(f, op, now).0, now, policy, k) {
      assert RelatedAt(s, f, now, policy, k);
      StepKeepsRelated(s, f, op, now, policy, k);
    }
  }

  lemma RelatedLater(s: State, f: Full, before: int, now: int, policy: Policy)
    requires Related(s, f, before, policy) && before <= now
    ensures Related(s, f, now, policy)
  {
    forall k ensures RelatedAt(s, f, now, policy, k) {
      assert RelatedAt(s, f, before, policy, k);
      ForgetsLater(Queue(s, k), HistoryOf(f, k), before, now, policy(k));
    }
  }

  // ---------- Whole runs ----------

  datatype Call = Call(op: Op, now: int)

  /** The clock never runs backwards, and every call follows the policy. */
  ghost predicate ProperRun(run: seq<Call>, policy: Policy) {
    && (forall i, j :: 0 <= i < j < |run| ==> run[i].now <= run[j].now)
    && (forall i :: 0 <= i < |run| ==> Follows(run[i].op, policy))
  }

  function RunState(run: seq<Call>, sweepAge: int): State {
    if run == [] then State(map[], sweepAge, 0)
    else Step(RunState(run[..|run| - 1], sweepAge), run[|run| - 1].op, run[|run| - 1].now).0
  }

  function FullState(run: seq<Call>): Full {
    if run == [] then Full(map[], 0) else FullStep(FullState(run[..|run| - 1]), run[|run| - 1].op, run[|run| - 1].now).0
  }

  /** What the limiter answers to a further call. */
  function AnswerAfter(run: seq<Call>, sweepAge: int, call: Call): Answer {
    Step(RunState(run, sweepAge), call.op, call.now).1
  }

  lemma {:induction false} RunRefines(run: seq<Call>, sweepAge: int, policy: Policy, now: int)
    requires ProperRun(run, policy) && forall i :: 0 <= i < |run| ==> run[i].now <= now
    ensures Related(RunState(run, sweepAge), FullState(run), now, policy)
    decreases |run|
  {
    if run != [] {
      var front, last := run[..|run| - 1], run[|run| - 1];
      RunRefines(front, sweepAge, policy, last.now);
      StepRefines(RunState(front, sweepAge), FullState(front), last.now, last.op, last.now, policy);
      RelatedLater(RunState(run, sweepAge), FullState(run), last.now, now, policy);
    } else {
      forall k ensures RelatedAt(RunState(run, sweepAge), FullState(run), now, policy, k) {
        Forget([], [], [], now, policy(k));
      }
    }
  }

  /**
   Refinement: after any run in which each key keeps one retention, every answer
   is the one the full history gives, whatever was pruned, swept or released.
   */
  lemma AnswersMatchFullHistory(run: seq<Call>, sweepAge: int, policy: Policy, call: Call)
    requires ProperRun(run + [call], policy)
    ensures AnswerAfter(run, sweepAge, call) == FullStep(FullState(run), call.op, call.now).1
  {
    var all := run + [call];
    assert forall i :: 0 <= i < |run| ==> all[i] == run[i];
    assert all[|run|] == call;
    RunRefines(run, sweepAge, policy, call.now);
    StepRefines(RunState(run, sweepAge), FullState(run), call.now, call.op, call.now, policy);
  }

  function WithoutSweeps(run: seq<Call>): seq<Call> {
    Filter(run, (c: Call) => !c.op.Sweep?)
  }

  lemma {:induction false} FullIgnoresSweeps(run: seq<Call>)
    ensures FullState(WithoutSweeps(run)) == FullState(run)
  {
    if run != [] {
      var front, last := run[..|run| - 1], run[|run| - 1];
      FullIgnoresSweeps(front);
      assert run == front + [last];
      FilterSnoc(front, last, (c: Call) => !c.op.Sweep?);
      var kept := WithoutSweeps(run);
      if !last.op.Sweep? {
        assert kept == WithoutSweeps(front) + [last];
        assert kept[..|kept| - 1] == WithoutSweeps(front) && kept[|kept| - 1] == last;
      } else {
        assert kept == WithoutSweeps(front);
      }
    }
  }

  ghost predicate NoneBefore(run: seq<Call>, t: int) {
    forall i :: 0 <= i < |run| ==> t <= run[i].now
  }

  lemma ProperCons(first: Call, run: seq<Call>, policy: Policy)
    requires ProperRun(run, policy) && NoneBefore(run, first.now) && Follows(first.op, policy)
    ensures ProperRun([first] + run, policy)
  {
  }

  lemma ProperTail(run: seq<Call>, policy: Policy)
    requires ProperRun(run, policy) && run != []
    ensures ProperRun(run[1..], policy) && NoneBefore(run[1..], run[0].now) && Follows(run[0].op, policy)
  {
  }

  lemma KeptLater(run: seq<Call>, call: Call, t: int)
    requires NoneBefore(run + [call], t)
    ensures NoneBefore(WithoutSweeps(run) + [call], t)
  {
    var all, kept := run + [call], WithoutSweeps(run);
    forall i | 0 <= i < |kept| ensures t <= kept[i].now {
      assert kept[i] in run;
      var j :| 0 <= j < |run| && run[j] == kept[i];
      assert all[j] == run[j];
    }
    assert all[|run|] == call;
  }

  lemma {:induction false} KeptProper(run: seq<Call>, call: Call, policy: Policy)
    requires ProperRun(run + [call], policy)
    ensures ProperRun(WithoutSweeps(run) + [call], policy)
  {
    if run == [] {
      assert WithoutSweeps(run) + [call] == run + [call];
    } else {
      var rest := run[1..];
      assert (run + [call])[1..] == rest + [call];
      ProperTail(run + [call], policy);
      KeptProper(rest, call, policy);
      KeptLater(rest, call, run[0].now);
      ProperCons(run[0], WithoutSweeps(rest) + [call], policy);
      KeptCons(run, call);
    }
  }

  lemma KeptCons(run: seq<Call>, call: Call)
    requires run != []
    ensures var kept := WithoutSweeps(run[1..]) + [call];
            WithoutSweeps(run) + [call] == if run[0].op.Sweep? then kept else [run[0]] + kept
  {
  }

  /** The sweeper is invisible: removing any number of sweeps from a run changes no later answer. */
  lemma SweepsInvisible(run: seq<Call>, sweepAge: int, policy: Policy, call: Call)
    requires ProperRun(run + [call], policy)
    ensures AnswerAfter(run, sweepAge, call) == AnswerAfter(WithoutSweeps(run), sweepAge, call)
  {
    AnswersMatchFullHistory(run, sweepAge, policy, call);
    KeptProper(run, call, policy);
    AnswersMatchFullHistory(WithoutSweeps(run), sweepAge, policy, call);
    FullIgnoresSweeps(run);
  }

  // ---------- Sliding-window safety ----------

  /** How many requests fall in the half-open interval (t - window, t]. */
  function InWindow(h: seq<Req>, t: int, window: int): nat {
    if h == [] then 0
    else InWindow(h[..|h| - 1], t, window) + if t - window < h[|h| - 1].at <= t then 1 else 0
  }

  ghost predicate AtMostPerWindow(h: seq<Req>, limit: int, window: int) {
    forall t :: InWindow(h, t, window) <= if limit < 0 then 0 else limit
  }

  lemma {:induction false} InWindowYoung(h: seq<Req>, now: int, t: int, window: int)
    requires Chronological(h, now) && t >= now
    ensures InWindow(h, t, window) <= Young(h, now, window)
  {
    if h != [] {
      ChronologicalLater(h[..|h| - 1], h[|h| - 1].at, now);
      InWindowYoung(h[..|h| - 1], now, t, window);
    }
  }

  lemma {:induction false} InWindowWithout(h: seq<Req>, t: int, window: int, i: nat)
    requires i < |h|
    ensures InWindow(RemoveAt(h, i), t, window) <= InWindow(h, t, window)
    decreases |h|
  {
    if i == |h| - 1 {
      assert RemoveAt(h, i) == h[..|h| - 1];
    } else {
      var front := h[..|h| - 1];
      var cut := RemoveAt(h, i);
      assert cut[..|cut| - 1] == RemoveAt(front, i);
      InWindowWithout(front, t, window, i);
    }
  }

  lemma AcceptKeepsSafe(h: seq<Req>, now: int, limit: int, window: int, r: Req)
    requires Chronological(h, now) && AtMostPerWindow(h, limit, window)
    requires Young(h, now, window) < limit && r.at == now
    ensures AtMostPerWindow(h + [r], limit, window)
  {
    var more := h + [r];
    assert more[..|more| - 1] == h;
    forall t ensures InWindow(more, t, window) <= limit {
      if t >= now { InWindowYoung(h, now, t, window); }
    }
  }

  lemma ReleaseKeepsSafe(h: seq<Req>, limit: int, window: int, id: nat)
    requires AtMostPerWindow(h, limit, window)
    ensures AtMostPerWindow(Without(h, id), limit, window)
  {
    var i := LastIndex(h, id);
    if i >= 0 {
      forall t ensures InWindow(Without(h, id), t, window) <= if limit < 0 then 0 else limit {
        InWindowWithout(h, t, window, i);
      }
    }
  }

  /** On the key, every call uses the same limit and window. */
  predicate Fixed(op: Op, key: string, limit: int, window: int) {
    match op
    case Request(k, n, d) => k == key ==> n == limit && d == window
    case Reserve(k, n, d, _) => k == key ==> n == limit && d == window
    case Release(_, _) => true
    case Sweep => true
  }

  /** The full history is safe. */
  lemma {:induction false} HistorySafe(run: seq<Call>, policy: Policy, key: string, limit: int, window: int)
    requires ProperRun(run, policy)
    requires forall i :: 0 <= i < |run| ==> Fixed(run[i].op, key, limit, window)
    ensures AtMostPerWindow(HistoryOf(FullState(run), key), limit, window)
    decreases |run|
  {
    if run != [] {
      var front, last := run[..|run| - 1], run[|run| - 1];
      HistorySafe(front, policy, key, limit, window);
      RunRefines(front, 0, policy, last.now);
      var h := HistoryOf(FullState(front), key);
      assert Chronological(h, last.now) by {
        assert RelatedAt(RunState(front, 0), FullState(front), last.now, policy, key);
      }
      assert Fixed(last.op, key, limit, window);
      match last.op
      case Request(k, _, _) =>
        if k == key && Young(h, last.now, window) < limit { AcceptKeepsSafe(h, last.now, limit, window, Req(last.now, 0)); }
      case Reserve(k, _, _, _) =>
        if k == key && Young(h, last.now, window) < limit {
          AcceptKeepsSafe(h, last.now, limit, window, Req(last.now, NextID(FullState(front).next)));
        }
      case Release(k, id) => ReleaseKeepsSafe(h, limit, window, id);
      case Sweep =>
    }
  }

  predicate Asks(op: Op, key: string) {
    (op.Request? || op.Reserve?) && op.key == key
  }

  predicate Releases(op: Op, key: string) {
    op.Release? && op.key == key && op.id != 0
  }

  /** The requests on the key that the limiter itself answered with yes, less those released since. */
  function Accepted(run: seq<Call>, sweepAge: int, key: string): seq<Req> {
    if run == [] then []
    else
      var front, last := run[..|run| - 1], run[|run| - 1];
      Answered(Accepted(front, sweepAge, key), last, AnswerAfter(front, sweepAge, last), key)
  }

  /** What a call and its answer do to the accepted requests of a key. */
  function Answered(before: seq<Req>, call: Call, answer: Answer, key: string): seq<Req> {
    if Asks(call.op, key) && answer.Allowed? then before + [Req(call.now, answer.id)]
    else if Releases(call.op, key) then Without(before, call.op.id)
    else before
  }

  lemma ProperFront(run: seq<Call>, policy: Policy)
    requires run != [] && ProperRun(run, policy)
    ensures ProperRun(run[..|run| - 1], policy)
  {
  }

  /** What the limiter answered is what the full history holds. */
  lemma {:induction false} AcceptedIsHistory(run: seq<Call>, sweepAge: int, policy: Policy, key: string)
    requires ProperRun(run, policy)
    ensures Accepted(run, sweepAge, key) == HistoryOf(FullState(run), key)
  {
    if run != [] {
      var front, last := run[..|run| - 1], run[|run| - 1];
      ProperFront(run, policy);
      AcceptedIsHistory(front, sweepAge, policy, key);
      assert run == front + [last];
      AnswersMatchFullHistory(front, sweepAge, policy, last);
      HistoryStep(FullState(front), last, key);
    }
  }

  lemma HistoryStep(f: Full, call: Call, key: string)
    ensures var (f', answer) := FullStep(f, call.op, call.now);
            HistoryOf(f', key) == Answered(HistoryOf(f, key), call, answer, key)
  {
  }

  /**
   Safety over every interleaving of requests, reservations, releases and
   sweeps: with a fixed limit and window on a key, no window-long interval holds
   more than the limit of requests the limiter accepted and that were not released.
   */
  lemma WindowSafety(run: seq<Call>, sweepAge: int, policy: Policy, key: string, limit: int, window: int)
    requires ProperRun(run, policy)
    requires forall i :: 0 <= i < |run| ==> Fixed(run[i].op, key, limit, window)
    ensures AtMostPerWindow(Accepted(run, sweepAge, key), limit, window)
  {
    AcceptedIsHistory(run, sweepAge, policy, key);
    HistorySafe(run, policy, key, limit, window);
  }

  /** How many calls on the key the limiter answered with yes at a time in (t - window, t]. */
  function GrantedInWindow(run: seq<Call>, sweepAge: int, key: string, t: int, window: int): nat {
    if run == [] then 0
    else
      var front, last := run[..|run| - 1], run[|run| - 1];
      GrantedInWindow(front, sweepAge, key, t, window) +
      if Asks(last.op, key) && AnswerAfter(front, sweepAge, last).Allowed? && t - window < last.now <= t then 1 else 0
  }

  lemma {:induction false} GrantedIsAccepted(run: seq<Call>, sweepAge: int, key: string, t: int, window: int)
    requires forall i :: 0 <= i < |run| ==> !Releases(run[i].op, key)
    ensures GrantedInWindow(run, sweepAge, key, t, window) == InWindow(Accepted(run, sweepAge, key), t, window)
  {
    if run != [] {
      var front, last := run[..|run| - 1], run[|run| - 1];
      GrantedIsAccepted(front, sweepAge, key, t, window);
      assert !Releases(last.op, key);
      var answer := AnswerAfter(front, sweepAge, last);
      if Asks(last.op, key) && answer.Allowed? { InWindowSnoc(Accepted(front, sweepAge, key), Req(last.now, answer.id), t, window); }
    }
  }

  lemma InWindowSnoc(h: seq<Req>, r: Req, t: int, window: int)
    ensures InWindow(h + [r], t, window) == InWindow(h, t, window) + if t - window < r.at <= t then 1 else 0
  {
    assert (h + [r])[..|h|] == h;
  }

  /** Where nothing is released, the limiter says yes at most limit times in any window-long interval. */
  lemma GrantsPerWindow(run: seq<Call>, sweepAge: int, policy: Policy, key: string, limit: int, window: int, t: int)
    requires ProperRun(run, policy)
    requires forall i :: 0 <= i < |run| ==> Fixed(run[i].op, key, limit, window) && !Releases(run[i].op, key)
    ensures GrantedInWindow(run, sweepAge, key, t, window) <= if limit < 0 then 0 else limit
  {
    WindowSafety(run, sweepAge, policy, key, limit, window);
    GrantedIsAccepted(run, sweepAge, key, t, window);
  }

  // ---------- Exact release ----------

  /** Numbered requests carry ascending numbers, none beyond the counter. */
  ghost predicate NumbersAscend(h: seq<Req>, next: nat) {
    && (forall i :: 0 <= i < |h| ==> h[i].id <= next)
    && (forall i, j :: 0 <= i < j < |h| ==> h[j].id == 0 || h[i].id < h[j].id)
  }

  /** Before the 64-bit counter wraps, no two live reservations of a key share a number. */
  lemma {:induction false} ReservationsDistinct(run: seq<Call>, key: string)
    requires |run| < UINT64 - 1
    ensures FullState(run).next <= |run|
    ensures NumbersAscend(HistoryOf(FullState(run), key), FullState(run).next)
    decreases |run|
  {
    if run != [] {
      var front, last := run[..|run| - 1], run[|run| - 1];
      ReservationsDistinct(front, key);
      var f := FullState(front);
      var h := HistoryOf(f, key);
      assert NextID(f.next) == f.next + 1;
      match last.op
      case Request(k, _, _) =>
      case Reserve(k, _, _, _) =>
      case Release(k, id) => RemoveKeepsNumbers(h, f.next, id);
      case Sweep =>
    }
  }

  lemma RemoveKeepsNumbers(h: seq<Req>, next: nat, id: nat)
    requires NumbersAscend(h, next)
    ensures NumbersAscend(Without(h, id), next)
  {
  }

  /** Releasing a reservation takes out that very one and leaves the rest in order. */
  lemma ReleaseIsExact(h: seq<Req>, next: nat, i: nat)
    requires NumbersAscend(h, next) && i < |h| && h[i].id != 0
    ensures Without(h, h[i].id) == RemoveAt(h, i)
  {
    var r := LastIndex(h, h[i].id);
    assert r >= i;
  }
}
