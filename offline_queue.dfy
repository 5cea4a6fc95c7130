/**
 * The browser-side retry queue of actions recorded while offline
 * (frontend_backup/src/shared/services/offline/queue.ts).
 *
 * The IndexedDB object store is a sequence of records kept in ascending key order, which is
 * the order `getAll` returns them in; `put` replaces the record with the same key or inserts
 * it at its key's place; `delete` removes the record with that key; the key generator hands
 * out 1, 2, 3, ... and is not reset by `clear`. The HTTP request of each action is an
 * outcome chosen by the caller (a parameter), and `navigator.onLine` is a parameter too.
 */
module OfflineQueue {
  import opened Wrappers
  import opened Seqs
  import opened Sorting

  datatype ActionType = CreateAction | UpdateAction | DeleteAction
  datatype HttpMethod = Post | Put | Patch | Delete
  datatype Status = Pending | Processing | Failed | Completed

  /** A queued request; `data` is the request body, an opaque serialised payload. */
  datatype OfflineAction = OfflineAction(
    id: nat, kind: ActionType, endpoint: string, httpMethod: HttpMethod, data: Option<string>,
    timestamp: int, retries: nat, status: Status, error: Option<string>)

  /** What a caller passes to `enqueue`: an action without key, timestamp, retries and status. */
  datatype ActionInput = ActionInput(
    kind: ActionType, endpoint: string, httpMethod: HttpMethod, data: Option<string>, error: Option<string>)

  /** What the request threw: an `Error` carrying a message, or any other value. */
  datatype Thrown = ErrorObject(message: string) | OtherValue
  datatype Outcome = Success | Failure(thrown: Thrown)

  const MaxRetries: nat := 3
  /** How many completed actions cleanup keeps as history. */
  const KeepCompleted: nat := 50

  // ---------------------------------------------------------------- the object store

  predicate IdsBefore(a: OfflineAction, b: OfflineAction) { a.id < b.id }
  predicate DifferentIds(a: OfflineAction, b: OfflineAction) { a.id != b.id }

  /** Every key is one the generator has handed out before `next`. */
  ghost predicate Generated(s: seq<OfflineAction>, next: nat) {
    forall i :: 0 <= i < |s| ==> 1 <= s[i].id < next
  }

  /** Records are in strictly ascending key order. */
  ghost predicate Ordered(s: seq<OfflineAction>) {
    forall i, j :: 0 <= i < j < |s| ==> s[i].id < s[j].id
  }

  /** The record stored under key `id`, if any. */
  function Lookup(s: seq<OfflineAction>, id: nat): Option<OfflineAction> {
    if s == [] then None else if s[0].id == id then Some(s[0]) else Lookup(s[1..], id)
  }

  /** IndexedDB `put`: replaces the record with the same key, or inserts it at its key's place. */
  function Upsert(s: seq<OfflineAction>, r: OfflineAction): seq<OfflineAction> {
    if s == [] then [r]
    else if s[0].id == r.id then [r] + s[1..]
    else if r.id < s[0].id then [r] + s
    else [s[0]] + Upsert(s[1..], r)
  }

  /** IndexedDB `delete`: removes the record stored under `id`. */
  function Remove(s: seq<OfflineAction>, id: nat): seq<OfflineAction> {
    if s == [] then []
    else if s[0].id == id then Remove(s[1..], id)
    else [s[0]] + Remove(s[1..], id)
  }

  /** After a `put`, the key holds the new record and every other key holds what it held. */
  lemma {:induction false} UpsertLookup(s: seq<OfflineAction>, r: OfflineAction, id: nat)
    ensures Lookup(Upsert(s, r), id) == if id == r.id then Some(r) else Lookup(s, id)
  {
    if s != [] && s[0].id != r.id && r.id >= s[0].id {
      UpsertLookup(s[1..], r, id);
    }
  }

  /** A second `put` under the same key overwrites the first. */
  lemma {:induction false} UpsertTwice(s: seq<OfflineAction>, x: OfflineAction, y: OfflineAction)
    requires x.id == y.id
    ensures Upsert(Upsert(s, x), y) == Upsert(s, y)
  {
    if s != [] && s[0].id != x.id && x.id >= s[0].id {
      UpsertTwice(s[1..], x, y);
    }
  }

  /** A `put` keeps the store in key order and holds only the new record and old ones. */
  lemma {:induction false} UpsertOrdered(s: seq<OfflineAction>, r: OfflineAction)
    requires Ordered(s)
    ensures Ordered(Upsert(s, r))
    ensures forall x :: x in Upsert(s, r) ==> x == r || x in s
  {
    if s == [] {
    } else if s[0].id == r.id {
      OrderedTail(s);
      HeadBelowTail(s);
      ConsOrdered(r, s[1..]);
    } else if r.id < s[0].id {
      HeadBelowTail(s);
      assert s == [s[0]] + s[1..];
      ConsOrdered(r, s);
    } else {
      var t := s[1..];
      OrderedTail(s);
      UpsertOrdered(t, r);
      HeadBelowTail(s);
      ConsOrdered(s[0], Upsert(t, r));
      assert s == [s[0]] + t;
    }
  }

  /** Appending a record under a key larger than every stored one keeps the store in key order. */
  lemma AppendOrdered(s: seq<OfflineAction>, r: OfflineAction)
    requires Ordered(s) && forall i :: 0 <= i < |s| ==> s[i].id < r.id
    ensures Ordered(s + [r])
  {
    var u := s + [r];
    forall i, j | 0 <= i < j < |u| ensures u[i].id < u[j].id {
      assert u[i] == s[i];
      if j < |s| {
        assert u[j] == s[j];
      }
    }
  }

  /** A `put` of a record whose key came from the generator keeps every key a generated one. */
  lemma KeysBelow(s: seq<OfflineAction>, r: OfflineAction, next: nat)
    requires Ordered(s) && 1 <= r.id < next && Generated(s, next)
    ensures Generated(Upsert(s, r), next)
  {
    UpsertOrdered(s, r);
    forall i | 0 <= i < |Upsert(s, r)| ensures 1 <= Upsert(s, r)[i].id < next {
      var x := Upsert(s, r)[i];
      assert x in Upsert(s, r);
      if x != r {
        var m :| 0 <= m < |s| && s[m] == x;
      }
    }
  }

  /** A `put` under a key already stored at index `k` replaces exactly that index. */
  lemma {:induction false} UpsertReplaces(s: seq<OfflineAction>, k: nat, r: OfflineAction)
    requires Ordered(s) && k < |s| && s[k].id == r.id
    ensures Upsert(s, r) == s[k := r]
  {
    if k > 0 {
      assert s[0].id < s[k].id;
      var t := s[1..];
      OrderedTail(s);
      assert t[k - 1] == s[k];
      UpsertReplaces(t, k - 1, r);
      assert s == [s[0]] + t;
    }
  }

  /** A `delete` keeps exactly the records under other keys, in the same order. */
  lemma {:induction false} RemoveOrdered(s: seq<OfflineAction>, id: nat)
    requires Ordered(s)
    ensures Ordered(Remove(s, id))
    ensures forall x :: x in Remove(s, id) <==> x in s && x.id != id
  {
    if s != [] {
      var t := s[1..];
      OrderedTail(s);
      RemoveOrdered(t, id);
      assert s == [s[0]] + t;
      if s[0].id != id {
        HeadBelowTail(s);
        ConsOrdered(s[0], Remove(t, id));
      }
    }
  }

  /** The records after the first of an ordered store are in order too. */
  lemma OrderedTail(s: seq<OfflineAction>)
    requires Ordered(s) && s != []
    ensures Ordered(s[1..])
  {
    var t := s[1..];
    forall i, j | 0 <= i < j < |t| ensures t[i].id < t[j].id {
      assert t[i] == s[i + 1] && t[j] == s[j + 1];
    }
  }

  /** The first record of an ordered store has the smallest key. */
  lemma HeadBelowTail(s: seq<OfflineAction>)
    requires Ordered(s) && s != []
    ensures forall x :: x in s[1..] ==> s[0].id < x.id
  {
    forall x | x in s[1..] ensures s[0].id < x.id {
      var m :| 0 <= m < |s[1..]| && s[1..][m] == x;
      assert s[m + 1] == x;
    }
  }

  /** A record in front of an ordered store whose keys all exceed its own keeps the order. */
  lemma ConsOrdered(h: OfflineAction, u: seq<OfflineAction>)
    requires Ordered(u) && forall x :: x in u ==> h.id < x.id
    ensures Ordered([h] + u)
  {
    var v := [h] + u;
    forall i, j | 0 <= i < j < |v| ensures v[i].id < v[j].id {
      assert v[j] == u[j - 1];
      if i > 0 {
        assert v[i] == u[i - 1];
      }
    }
  }

  /** Keys in strictly ascending order are pairwise different. */
  lemma OrderedDistinct(s: seq<OfflineAction>)
    requires Ordered(s)
    ensures Pairwise(s, DifferentIds)
  {
    forall i, j | 0 <= i < j < |s| ensures DifferentIds(s[i], s[j]) {
      assert s[i].id < s[j].id;
    }
  }

  /** Two stored records with the same key are the same record. */
  lemma SameKeySameRecord(s: seq<OfflineAction>, x: OfflineAction, y: OfflineAction)
    requires Ordered(s) && x in s && y in s && x.id == y.id
    ensures x == y
  {
    var i :| 0 <= i < |s| && s[i] == x;
    var j :| 0 <= j < |s| && s[j] == y;
  }

  // ---------------------------------------------------------------- selection

  function Timestamp(a: OfflineAction): int { a.timestamp }
  /** The cleanup comparator `b.timestamp - a.timestamp`: newest first. */
  function Recency(a: OfflineAction): int { -a.timestamp }

  predicate IsSelectable(a: OfflineAction) { a.status == Pending || a.status == Failed }
  predicate IsCompleted(a: OfflineAction) { a.status == Completed }
  predicate IsFailed(a: OfflineAction) { a.status == Failed }

  /** `getPendingActions`: the pending and failed actions, oldest first, ties in key order. */
  function Selected(s: seq<OfflineAction>): seq<OfflineAction> {
    SortBy(Filter(s, IsSelectable), Timestamp)
  }

  lemma SelectedSpec(s: seq<OfflineAction>)
    ensures SortedBy(Selected(s), Timestamp)
    ensures |Selected(s)| == |Filter(s, IsSelectable)|
    ensures forall x :: x in Selected(s) <==> x in s && IsSelectable(x)
    ensures Ordered(s) ==> Pairwise(Selected(s), DifferentIds)
  {
    var f := Filter(s, IsSelectable);
    SortBySorted(f, Timestamp);
    SortByLength(f, Timestamp);
    SortByPermutes(f, Timestamp);
    forall x ensures x in Selected(s) <==> x in f {
      assert x in Selected(s) <==> x in multiset(Selected(s));
    }
    if Ordered(s) {
      OrderedDistinct(s);
      FilterPairwise(s, IsSelectable, DifferentIds);
      SortByPairwise(f, Timestamp, DifferentIds);
    }
  }

  lemma SelectedGenerated(s: seq<OfflineAction>, next: nat)
    requires Generated(s, next)
    ensures Generated(Selected(s), next)
  {
    SelectedSpec(s);
    forall k | 0 <= k < |Selected(s)| ensures 1 <= Selected(s)[k].id < next {
      assert Selected(s)[k] in Selected(s);
      var m :| 0 <= m < |s| && s[m] == Selected(s)[k];
    }
  }

  // ---------------------------------------------------------------- one action

  function ErrorText(t: Thrown): string {
    if t.ErrorObject? then t.message else "Unknown error"
  }

  /** The record a processed action is rewritten to once its request has settled. */
  function Settle(a: OfflineAction, o: Outcome): (r: OfflineAction)
    ensures r.id == a.id && r.timestamp == a.timestamp && r.data == a.data
    ensures o.Success? ==> r == a.(status := Completed)
    ensures o.Failure? ==> r.retries == a.retries + 1 && r.error == Some(ErrorText(o.thrown))
    ensures o.Failure? ==> (r.status == Failed <==> r.retries >= MaxRetries)
    ensures o.Failure? ==> (r.status == Pending <==> r.retries < MaxRetries)
  {
    match o
    case Success => a.(status := Completed)
    case Failure(t) =>
      var n := a.retries + 1;
      a.(retries := n, status := if n >= MaxRetries then Failed else Pending, error := Some(ErrorText(t)))
  }

  /** A freshly queued action stays selectable after one or two failed attempts and is failed after the third. */
  lemma RetriesExhaust(a: OfflineAction, t1: Thrown, t2: Thrown, t3: Thrown)
    requires a.retries == 0 && a.status == Pending
    ensures IsSelectable(Settle(a, Failure(t1))) && Settle(a, Failure(t1)).status == Pending
    ensures Settle(Settle(a, Failure(t1)), Failure(t2)).status == Pending
    ensures Settle(Settle(Settle(a, Failure(t1)), Failure(t2)), Failure(t3)).status == Failed
  {
  }

  /** The store after processing one action: marked processing, then settled. */
  function Step(s: seq<OfflineAction>, a: OfflineAction, o: Outcome): seq<OfflineAction> {
    Upsert(Upsert(s, a.(status := Processing)), Settle(a, o))
  }

  /** The store after processing `ps` in order, the `i`-th request settling as `o(i)`. */
  function ProcessAll(s: seq<OfflineAction>, ps: seq<OfflineAction>, o: nat -> Outcome): seq<OfflineAction>
    decreases |ps|
  {
    if ps == [] then s
    else Step(ProcessAll(s, ps[..|ps| - 1], o), ps[|ps| - 1], o(|ps| - 1))
  }

  /** Processing touches only the keys of the processed actions. */
  lemma {:induction false} ProcessAllKeepsOthers(s: seq<OfflineAction>, ps: seq<OfflineAction>, o: nat -> Outcome, id: nat)
    requires forall i :: 0 <= i < |ps| ==> ps[i].id != id
    ensures Lookup(ProcessAll(s, ps, o), id) == Lookup(s, id)
    decreases |ps|
  {
    if ps != [] {
      var a := ps[|ps| - 1];
      var prev := ProcessAll(s, ps[..|ps| - 1], o);
      ProcessAllKeepsOthers(s, ps[..|ps| - 1], o, id);
      UpsertLookup(prev, a.(status := Processing), id);
      UpsertLookup(Upsert(prev, a.(status := Processing)), Settle(a, o(|ps| - 1)), id);
    }
  }

  /** When the processed actions have different keys, each one ends settled by its own outcome. */
  lemma {:induction false} ProcessAllSettles(s: seq<OfflineAction>, ps: seq<OfflineAction>, o: nat -> Outcome, i: nat)
    requires Pairwise(ps, DifferentIds) && i < |ps|
    ensures Lookup(ProcessAll(s, ps, o), ps[i].id) == Some(Settle(ps[i], o(i)))
    decreases |ps|
  {
    var n := |ps| - 1;
    var a := ps[n];
    var init := ps[..n];
    var prev := ProcessAll(s, init, o);
    assert ProcessAll(s, ps, o) == Step(prev, a, o(n));
    UpsertLookup(prev, a.(status := Processing), ps[i].id);
    UpsertLookup(Upsert(prev, a.(status := Processing)), Settle(a, o(n)), ps[i].id);
    if i < n {
      assert DifferentIds(ps[i], ps[n]);
      PairwisePrefix(ps, DifferentIds, n);
      assert init[i] == ps[i];
      ProcessAllSettles(s, init, o, i);
    }
  }

  // ---------------------------------------------------------------- cleanup

  /** The completed actions, newest first, ties in key order. */
  function Ranked(s: seq<OfflineAction>): seq<OfflineAction> {
    SortBy(Filter(s, IsCompleted), Recency)
  }

  /** `completed.slice(50)`: the completed actions past the 50 newest. */
  function Expired(s: seq<OfflineAction>): seq<OfflineAction> {
    var r := Ranked(s);
    if |r| <= KeepCompleted then [] else r[KeepCompleted..]
  }

  /** The completed actions cleanup keeps. */
  function Kept(s: seq<OfflineAction>): seq<OfflineAction> {
    var r := Ranked(s);
    if |r| <= KeepCompleted then r else r[..KeepCompleted]
  }

  /** Deleting the listed actions one by one, skipping any whose key is 0 (`if (action.id)`). */
  function RemoveAll(s: seq<OfflineAction>, ds: seq<OfflineAction>): seq<OfflineAction>
    decreases |ds|
  {
    if ds == [] then s
    else
      var t := RemoveAll(s, ds[..|ds| - 1]);
      var d := ds[|ds| - 1];
      if d.id != 0 then Remove(t, d.id) else t
  }

  function CleanupOf(s: seq<OfflineAction>): seq<OfflineAction> {
    RemoveAll(s, Expired(s))
  }

  /** Deleting a list keeps the store ordered and keeps exactly the records whose key no listed action has. */
  lemma {:induction false} RemoveAllSpec(s: seq<OfflineAction>, ds: seq<OfflineAction>)
    requires Ordered(s)
    ensures Ordered(RemoveAll(s, ds))
    ensures forall x :: x in RemoveAll(s, ds) <==>
      x in s && forall i :: 0 <= i < |ds| && ds[i].id != 0 ==> ds[i].id != x.id
    decreases |ds|
  {
    if ds != [] {
      var init := ds[..|ds| - 1];
      var d := ds[|ds| - 1];
      RemoveAllSpec(s, init);
      var t := RemoveAll(s, init);
      if d.id != 0 {
        RemoveOrdered(t, d.id);
      }
      assert forall i :: 0 <= i < |init| ==> init[i] == ds[i];
    }
  }

  /** The ranking, its kept prefix and its expired suffix. */
  lemma RankedSpec(s: seq<OfflineAction>)
    ensures SortedBy(Ranked(s), Recency)
    ensures forall x :: x in Ranked(s) <==> x in s && IsCompleted(x)
    ensures Ordered(s) ==> Pairwise(Ranked(s), DifferentIds)
    ensures Kept(s) + Expired(s) == Ranked(s)
    ensures |Kept(s)| <= KeepCompleted
    ensures |Filter(s, IsCompleted)| >= KeepCompleted ==> |Kept(s)| == KeepCompleted
    ensures |Filter(s, IsCompleted)| < KeepCompleted ==> Kept(s) == Ranked(s)
  {
    var f := Filter(s, IsCompleted);
    SortBySorted(f, Recency);
    SortByLength(f, Recency);
    SortByPermutes(f, Recency);
    forall x ensures x in Ranked(s) <==> x in f {
      assert x in Ranked(s) <==> x in multiset(Ranked(s));
    }
    if Ordered(s) {
      OrderedDistinct(s);
      FilterPairwise(s, IsCompleted, DifferentIds);
      SortByPairwise(f, Recency, DifferentIds);
    }
  }

  /** No expired action shares its key with an action that is not completed. */
  lemma ExpiredSparesUnfinished(s: seq<OfflineAction>, x: OfflineAction)
    requires Ordered(s) && x in s && !IsCompleted(x)
    ensures forall i :: 0 <= i < |Expired(s)| && Expired(s)[i].id != 0 ==> Expired(s)[i].id != x.id
  {
    var ex := Expired(s);
    RankedSpec(s);
    forall i | 0 <= i < |ex| && ex[i].id != 0 ensures ex[i].id != x.id {
      assert ex[i] in Ranked(s);
      if ex[i].id == x.id {
        SameKeySameRecord(s, ex[i], x);
      }
    }
  }

  /** No expired action shares its key with a kept one. */
  lemma ExpiredSparesKept(s: seq<OfflineAction>, x: OfflineAction)
    requires Ordered(s) && x in Kept(s)
    ensures forall i :: 0 <= i < |Expired(s)| && Expired(s)[i].id != 0 ==> Expired(s)[i].id != x.id
  {
    var ex := Expired(s);
    var r := Ranked(s);
    RankedSpec(s);
    var n := |Kept(s)|;
    var k :| 0 <= k < n && Kept(s)[k] == x;
    forall i | 0 <= i < |ex| && ex[i].id != 0 ensures ex[i].id != x.id {
      assert r[k] == x && r[n + i] == ex[i];
      assert DifferentIds(r[k], r[n + i]);
    }
  }

  /** A completed action that is not kept is expired, and its key is deleted. */
  lemma ExpiredHitsOthers(s: seq<OfflineAction>, x: OfflineAction)
    requires Ordered(s) && (forall i :: 0 <= i < |s| ==> s[i].id != 0)
    requires x in s && IsCompleted(x) && x !in Kept(s)
    ensures exists i :: 0 <= i < |Expired(s)| && Expired(s)[i].id != 0 && Expired(s)[i].id == x.id
  {
    var r := Ranked(s);
    RankedSpec(s);
    assert x in r;
    var k :| 0 <= k < |r| && r[k] == x;
    assert Expired(s)[k - |Kept(s)|] == x;
  }

  /**
   * Cleanup keeps every action that is not completed and, of the completed ones, exactly the
   * 50 newest; since the store stays in key order, this fixes the whole result.
   */
  lemma CleanupKeeps(s: seq<OfflineAction>, x: OfflineAction)
    requires Ordered(s) && forall i :: 0 <= i < |s| ==> s[i].id != 0
    ensures Ordered(CleanupOf(s))
    ensures x in CleanupOf(s) <==> x in s && (!IsCompleted(x) || x in Kept(s))
  {
    RemoveAllSpec(s, Expired(s));
    if x in s && !IsCompleted(x) {
      ExpiredSparesUnfinished(s, x);
    } else if x in s && x in Kept(s) {
      ExpiredSparesKept(s, x);
    } else if x in s {
      ExpiredHitsOthers(s, x);
    }
  }

  /** Every completed action cleanup deletes is no newer than every completed action it keeps. */
  lemma CleanupKeepsNewest(s: seq<OfflineAction>, x: OfflineAction, y: OfflineAction)
    requires Ordered(s) && forall i :: 0 <= i < |s| ==> s[i].id != 0
    requires x in CleanupOf(s) && IsCompleted(x)
    requires y in s && IsCompleted(y) && y !in CleanupOf(s)
    ensures y.timestamp <= x.timestamp
  {
    CleanupKeeps(s, x);
    CleanupKeeps(s, y);
    RankedSpec(s);
    var r := Ranked(s);
    var k :| 0 <= k < |Kept(s)| && Kept(s)[k] == x;
    var m :| 0 <= m < |r| && r[m] == y;
    assert r[k] == x;
    assert Recency(r[k]) <= Recency(r[m]);
  }

  // ---------------------------------------------------------------- retries reset

  function Reset(a: OfflineAction): OfflineAction {
    a.(status := Pending, retries := 0, error := None)
  }

  /** The store after `retryFailed`'s loop: failed actions reset, every other record unchanged. */
  function ResetFailed(s: seq<OfflineAction>): (r: seq<OfflineAction>)
    ensures |r| == |s|
    ensures forall i :: 0 <= i < |s| ==> r[i].id == s[i].id && r[i].status != Failed
    ensures forall i :: 0 <= i < |s| ==> (IsSelectable(r[i]) <==> IsSelectable(s[i]))
    ensures forall i :: 0 <= i < |s| && s[i].status != Failed ==> r[i] == s[i]
    ensures forall i :: 0 <= i < |s| && s[i].status == Failed ==>
      r[i] == s[i].(status := Pending, retries := 0, error := None)
  {
    seq(|s|, i requires 0 <= i < |s| => if s[i].status == Failed then Reset(s[i]) else s[i])
  }

  /** `cur` is `orig` with exactly the actions in `done` reset. */
  ghost predicate ResetUpTo(orig: seq<OfflineAction>, cur: seq<OfflineAction>, done: seq<OfflineAction>) {
    |cur| == |orig| &&
    forall j :: 0 <= j < |orig| ==> cur[j] == if orig[j] in done then Reset(orig[j]) else orig[j]
  }

  /** Putting the reset copy of a stored action resets it in place and keeps the keys. */
  lemma ResetStep(orig: seq<OfflineAction>, cur: seq<OfflineAction>, done: seq<OfflineAction>, f: OfflineAction, next: nat)
    requires Ordered(orig) && ResetUpTo(orig, cur, done) && f in orig
    requires Generated(orig, next)
    ensures ResetUpTo(orig, Upsert(cur, Reset(f)), done + [f])
    ensures Ordered(Upsert(cur, Reset(f))) && Generated(Upsert(cur, Reset(f)), next)
  {
    var k :| 0 <= k < |orig| && orig[k] == f;
    SameKeys(orig, cur, next);
    UpsertReplaces(cur, k, Reset(f));
    ResetUpToStep(orig, cur, done, k);
    SameKeys(orig, cur[k := Reset(f)], next);
  }

  /** A store whose keys are, index by index, those of an ordered generated store is ordered and generated. */
  lemma SameKeys(orig: seq<OfflineAction>, cur: seq<OfflineAction>, next: nat)
    requires Ordered(orig) && Generated(orig, next) && |cur| == |orig|
    requires forall j :: 0 <= j < |orig| ==> cur[j] == orig[j] || cur[j] == Reset(orig[j])
    ensures Ordered(cur) && Generated(cur, next)
  {
    assert forall j :: 0 <= j < |orig| ==> cur[j].id == orig[j].id;
  }

  /** Resetting the action at index `k` extends the reset set by that action. */
  lemma ResetUpToStep(orig: seq<OfflineAction>, cur: seq<OfflineAction>, done: seq<OfflineAction>, k: nat)
    requires Ordered(orig) && ResetUpTo(orig, cur, done) && k < |orig|
    ensures ResetUpTo(orig, cur[k := Reset(orig[k])], done + [orig[k]])
  {
    forall j | 0 <= j < |orig| && j != k ensures orig[j] != orig[k] {
      assert orig[j].id != orig[k].id;
    }
  }

  /** Once every failed action is reset, the store is the reset store. */
  lemma ResetDone(orig: seq<OfflineAction>, cur: seq<OfflineAction>)
    requires ResetUpTo(orig, cur, Filter(orig, IsFailed))
    ensures cur == ResetFailed(orig)
  {
    forall j | 0 <= j < |orig| ensures cur[j] == ResetFailed(orig)[j] {
      assert orig[j] in Filter(orig, IsFailed) <==> orig[j].status == Failed;
    }
  }

  // ---------------------------------------------------------------- the service

  /** The store contents of a queue run that was allowed to start. */
  function RunOf(s: seq<OfflineAction>, o: nat -> Outcome): seq<OfflineAction> {
    var p := Selected(s);
    if p == [] then s else CleanupOf(ProcessAll(s, p, o))
  }

  /** A queue run settles every selected action with its own outcome and leaves the other keys alone. */
  lemma RunSettles(s: seq<OfflineAction>, o: nat -> Outcome, id: nat)
    requires Ordered(s)
    ensures forall i :: 0 <= i < |Selected(s)| ==>
      Lookup(ProcessAll(s, Selected(s), o), Selected(s)[i].id) == Some(Settle(Selected(s)[i], o(i)))
    ensures (forall i :: 0 <= i < |Selected(s)| ==> Selected(s)[i].id != id) ==>
      Lookup(ProcessAll(s, Selected(s), o), id) == Lookup(s, id)
  {
    SelectedSpec(s);
    forall i | 0 <= i < |Selected(s)|
      ensures Lookup(ProcessAll(s, Selected(s), o), Selected(s)[i].id) == Some(Settle(Selected(s)[i], o(i)))
    {
      ProcessAllSettles(s, Selected(s), o, i);
    }
    if forall i :: 0 <= i < |Selected(s)| ==> Selected(s)[i].id != id {
      ProcessAllKeepsOthers(s, Selected(s), o, id);
    }
  }

  class OfflineQueueService {
    var actions: seq<OfflineAction>
    var nextId: nat
    var isProcessing: bool

    /** Records are in key order and every key came from the generator, which starts at 1. */
    ghost predicate Valid()
      reads this
    {
      1 <= nextId && Ordered(actions) && Generated(actions, nextId)
    }

    constructor ()
      ensures Valid() && actions == [] && !isProcessing
    {
      actions := [];
      nextId := 1;
      isProcessing := false;
    }

    method Enqueue(input: ActionInput, now: int)
      requires Valid()
      modifies this
      ensures Valid() && nextId == old(nextId) + 1 && isProcessing == old(isProcessing)
      ensures actions == old(actions) + [OfflineAction(old(nextId), input.kind, input.endpoint,
        input.httpMethod, input.data, now, 0, Pending, input.error)]
    {
      AppendOrdered(actions, OfflineAction(nextId, input.kind, input.endpoint, input.httpMethod,
        input.data, now, 0, Pending, input.error));
      actions := actions + [OfflineAction(nextId, input.kind, input.endpoint, input.httpMethod,
        input.data, now, 0, Pending, input.error)];
      nextId := nextId + 1;
    }

    method GetPendingActions() returns (r: seq<OfflineAction>)
      ensures r == Selected(actions)
    {
      r := SortBy(Filter(actions, IsSelectable), Timestamp);
    }

    method GetPendingCount() returns (n: nat)
      ensures n == |Filter(actions, IsSelectable)|
    {
      var pending := GetPendingActions();
      SelectedSpec(actions);
      n := |pending|;
    }

    /** `processAction`: the action is a record read from the store, so its key is one the generator gave. */
    method ProcessAction(a: OfflineAction, o: Outcome) returns (ok: bool)
      requires Valid() && 1 <= a.id < nextId
      modifies this
      ensures Valid() && nextId == old(nextId) && isProcessing == old(isProcessing)
      ensures actions == Step(old(actions), a, o)
      ensures Lookup(actions, a.id) == Some(Settle(a, o))
      ensures ok <==> o.Success?
    {
      UpsertOrdered(actions, a.(status := Processing));
      KeysBelow(actions, a.(status := Processing), nextId);
      actions := Upsert(actions, a.(status := Processing));
      UpsertOrdered(actions, Settle(a, o));
      UpsertLookup(actions, Settle(a, o), a.id);
      KeysBelow(actions, Settle(a, o), nextId);
      actions := Upsert(actions, Settle(a, o));
      ok := o.Success?;
    }

    /** `cleanup`: deletes the completed actions past the 50 newest. */
    method Cleanup()
      requires Valid()
      modifies this
      ensures Valid() && nextId == old(nextId) && isProcessing == old(isProcessing)
      ensures actions == CleanupOf(old(actions))
    {
      var toDelete := Expired(actions);
      var i := 0;
      while i < |toDelete|
        invariant 0 <= i <= |toDelete|
        invariant nextId == old(nextId) && isProcessing == old(isProcessing)
        invariant actions == RemoveAll(old(actions), toDelete[..i])
        invariant Valid()
      {
        assert toDelete[..i + 1][..i] == toDelete[..i];
        if toDelete[i].id != 0 {
          RemoveOrdered(actions, toDelete[i].id);
          actions := Remove(actions, toDelete[i].id);
        }
        i := i + 1;
      }
      assert toDelete[..i] == toDelete;
    }

    /** `processQueue`: skipped while a run is in progress or offline; `o(i)` settles the `i`-th request. */
    method ProcessQueue(online: bool, o: nat -> Outcome)
      requires Valid()
      modifies this
      ensures Valid() && nextId == old(nextId)
      ensures old(isProcessing) || !online ==> actions == old(actions) && isProcessing == old(isProcessing)
      ensures !old(isProcessing) && online ==> actions == RunOf(old(actions), o) && !isProcessing
    {
      if isProcessing || !online {
        return;
      }
      isProcessing := true;
      var pending := GetPendingActions();
      if |pending| == 0 {
        isProcessing := false;
        return;
      }
      SelectedGenerated(actions, nextId);
      ProcessEach(pending, o);
      Cleanup();
      isProcessing := false;
    }

    /** The loop of `processQueue`: each pending action in turn, the `i`-th settling as `o(i)`. */
    method ProcessEach(pending: seq<OfflineAction>, o: nat -> Outcome)
      requires Valid() && Generated(pending, nextId)
      modifies this
      ensures Valid() && nextId == old(nextId) && isProcessing == old(isProcessing)
      ensures actions == ProcessAll(old(actions), pending, o)
    {
      var i := 0;
      while i < |pending|
        invariant 0 <= i <= |pending|
        invariant Valid() && nextId == old(nextId) && isProcessing == old(isProcessing)
        invariant actions == ProcessAll(old(actions), pending[..i], o)
      {
        assert pending[..i + 1][..i] == pending[..i];
        var ok := ProcessAction(pending[i], o(i));
        i := i + 1;
      }
      assert pending[..i] == pending;
    }

    /** `clearQueue`: the key generator is not reset. */
    method ClearQueue()
      requires Valid()
      modifies this
      ensures actions == [] && nextId == old(nextId) && isProcessing == old(isProcessing)
      ensures Valid()
    {
      actions := [];
    }

    /** `retryFailed`: resets every failed action, then starts a queue run. */
    method RetryFailed(online: bool, o: nat -> Outcome)
      requires Valid()
      modifies this
      ensures Valid() && nextId == old(nextId)
      ensures old(isProcessing) || !online ==> actions == ResetFailed(old(actions))
      ensures !old(isProcessing) && online ==> actions == RunOf(ResetFailed(old(actions)), o)
    {
      ResetFailedActions();
      ProcessQueue(online, o);
    }

    /** The loop of `retryFailed`: puts a reset copy of every failed action. */
    method ResetFailedActions()
      requires Valid()
      modifies this
      ensures Valid() && nextId == old(nextId) && isProcessing == old(isProcessing)
      ensures actions == ResetFailed(old(actions))
    {
      var failed := Filter(actions, IsFailed);
      var i := 0;
      while i < |failed|
        invariant 0 <= i <= |failed|
        invariant Valid() && nextId == old(nextId) && isProcessing == old(isProcessing)
        invariant ResetUpTo(old(actions), actions, failed[..i])
      {
        assert failed[i] in failed;
        ResetStep(old(actions), actions, failed[..i], failed[i], nextId);
        assert failed[..i + 1] == failed[..i] + [failed[i]];
        actions := Upsert(actions, Reset(failed[i]));
        i := i + 1;
      }
      assert failed[..i] == failed;
      ResetDone(old(actions), actions);
    }
  }
}
