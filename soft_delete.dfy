/**
 * The soft-delete lifecycle that every BaseModel row carries: a `delete` that only flags the
 * row, a `restore` that clears the flag, a physical `hard_delete`, the alive/deleted query sets
 * and the two managers `objects` (alive rows only) and `all_objects` (every row).
 */
module SoftDelete {
  import opened Wrappers
  import opened Seqs

  /** A UUID primary key; only equality between keys matters. */
  type Id = nat
  /** A `DateTimeField` value, as a count of clock ticks. */
  type Time = int

  /**
   * A stored row: UUIDModel's `id`, TimeStampedModel's `created_at`/`updated_at`,
   * SoftDeleteModel's `is_deleted`/`deleted_at`, and the entity's own fields in `data`.
   */
  datatype Row<T> = Row(id: Id, createdAt: Time, updatedAt: Time, isDeleted: bool, deletedAt: Option<Time>, data: T)

  /** A freshly inserted row: both stamps are the insertion time and the row is alive. */
  function NewRow<T>(id: Id, now: Time, data: T): (r: Row<T>)
    ensures !r.isDeleted && r.deletedAt == None && r.createdAt == now && r.updatedAt == now
    ensures r.id == id && r.data == data
  {
    Row(id, now, now, false, None, data)
  }

  ghost predicate DistinctIds<T>(rows: seq<Row<T>>) {
    forall i, j :: 0 <= i < j < |rows| ==> rows[i].id != rows[j].id
  }

  function Ids<T>(rows: seq<Row<T>>): set<Id> {
    set i | 0 <= i < |rows| :: rows[i].id
  }

  /** Removing rows never introduces two rows with the same key. */
  lemma FilterKeepsDistinctIds<T>(rows: seq<Row<T>>, p: Row<T> -> bool)
    requires DistinctIds(rows)
    ensures DistinctIds(Filter(rows, p))
  {
    FilterPairwise(rows, p, (a: Row<T>, b: Row<T>) => a.id != b.id);
  }

  /** The position of the row with key `id`, or -1 when no row has that key. */
  function IndexOf<T>(rows: seq<Row<T>>, id: Id): (k: int)
    ensures -1 <= k < |rows|
    ensures k >= 0 ==> rows[k].id == id && forall j :: 0 <= j < k ==> rows[j].id != id
    ensures k == -1 <==> id !in Ids(rows)
  {
    if rows == [] then -1
    else if rows[0].id == id then 0
    else
      var k := IndexOf(rows[1..], id);
      assert Ids(rows) == {rows[0].id} + Ids(rows[1..]) by {
        forall x | x in Ids(rows) ensures x in {rows[0].id} + Ids(rows[1..]) {
          var i :| 0 <= i < |rows| && rows[i].id == x;
          if i > 0 { assert rows[1..][i - 1].id == x; }
        }
        forall x | x in Ids(rows[1..]) ensures x in Ids(rows) {
          var i :| 0 <= i < |rows[1..]| && rows[1..][i].id == x;
          assert rows[i + 1].id == x;
        }
      }
      if k == -1 then -1 else k + 1
  }

  /** The row with key `id`, whatever its soft-delete flag (Django's base manager). */
  function Find<T>(rows: seq<Row<T>>, id: Id): (r: Option<Row<T>>)
    ensures r.Some? <==> id in Ids(rows)
    ensures r.Some? ==> r.value in rows && r.value.id == id
  {
    var k := IndexOf(rows, id);
    if k == -1 then None else Some(rows[k])
  }

  // ----- one instance: SoftDeleteModel.delete / restore (each followed by save()) -----

  /**
   * `delete()` on an instance: flag it, stamp `deleted_at`, and save, which refreshes the
   * `auto_now` stamp `updated_at`. The row itself stays.
   */
  function MarkDeleted<T>(r: Row<T>, now: Time): (d: Row<T>)
    ensures d.isDeleted && d.deletedAt == Some(now) && d.updatedAt == now
    ensures d.id == r.id && d.createdAt == r.createdAt && d.data == r.data
  {
    r.(isDeleted := true, deletedAt := Some(now), updatedAt := now)
  }

  /** `restore()` on an instance: clear the flag and the stamp, then save. */
  function Unmarked<T>(r: Row<T>, now: Time): (d: Row<T>)
    ensures !d.isDeleted && d.deletedAt == None && d.updatedAt == now
    ensures d.id == r.id && d.createdAt == r.createdAt && d.data == r.data
  {
    r.(isDeleted := false, deletedAt := None, updatedAt := now)
  }

  /**
   * Delete then restore gives back an alive row that differs from an alive original only in
   * the `updated_at` stamp written by the second save.
   */
  lemma RestoreUndoesDelete<T>(r: Row<T>, t1: Time, t2: Time)
    requires !r.isDeleted && r.deletedAt == None
    ensures Unmarked(MarkDeleted(r, t1), t2) == r.(updatedAt := t2)
  {
  }

  /** Deleting twice keeps the flag but replaces the first `deleted_at` stamp by the second. */
  lemma DeleteTwiceRestamps<T>(r: Row<T>, t1: Time, t2: Time)
    ensures MarkDeleted(MarkDeleted(r, t1), t2) == MarkDeleted(r, t2)
    ensures t1 != t2 ==> MarkDeleted(MarkDeleted(r, t1), t2) != MarkDeleted(r, t1)
  {
  }

  /** Saving `d` over the stored row with the same key; every other row is untouched. */
  function SaveRow<T>(rows: seq<Row<T>>, d: Row<T>): (r: seq<Row<T>>)
    requires d.id in Ids(rows)
    ensures |r| == |rows|
    ensures forall i :: 0 <= i < |rows| && rows[i].id != d.id ==> r[i] == rows[i]
    ensures forall i :: 0 <= i < |rows| && i == IndexOf(rows, d.id) ==> r[i] == d
  {
    rows[IndexOf(rows, d.id) := d]
  }

  /** With distinct keys, the row at position `i` is the one `Find` returns for its key. */
  lemma FindAt<T>(rows: seq<Row<T>>, i: int)
    requires DistinctIds(rows) && 0 <= i < |rows|
    ensures Find(rows, rows[i].id) == Some(rows[i])
    ensures IndexOf(rows, rows[i].id) == i
  {
    assert rows[i].id in Ids(rows);
  }

  /** Saving a row keeps the key set and the distinctness of keys, and rewrites exactly one position. */
  lemma SaveRowShape<T>(rows: seq<Row<T>>, d: Row<T>)
    requires DistinctIds(rows) && d.id in Ids(rows)
    ensures Ids(SaveRow(rows, d)) == Ids(rows)
    ensures DistinctIds(SaveRow(rows, d))
    ensures forall i :: 0 <= i < |rows| ==> SaveRow(rows, d)[i] == (if rows[i].id == d.id then d else rows[i])
  {
    var k := IndexOf(rows, d.id);
    var r := SaveRow(rows, d);
    forall i | 0 <= i < |rows| ensures r[i] == (if rows[i].id == d.id then d else rows[i]) {
      if rows[i].id == d.id { FindAt(rows, i); }
    }
    assert forall i :: 0 <= i < |rows| ==> r[i].id == rows[i].id;
  }

  /** No two rows share the value of `key` on their entity fields (a `unique_together`). */
  ghost predicate UniqueBy<T, K>(rows: seq<Row<T>>, key: T -> K) {
    forall a, b :: a in rows && b in rows && key(a.data) == key(b.data) ==> a == b
  }

  /** Re-saving a row whose `key` fields are unchanged keeps that uniqueness constraint. */
  lemma SaveRowKeepsUnique<T, K>(rows: seq<Row<T>>, d: Row<T>, key: T -> K)
    requires DistinctIds(rows) && d.id in Ids(rows) && key(d.data) == key(Find(rows, d.id).value.data)
    requires UniqueBy(rows, key)
    ensures UniqueBy(SaveRow(rows, d), key)
  {
    var r := SaveRow(rows, d);
    SaveRowShape(rows, d);
    var x := Find(rows, d.id).value;
    forall a, b | a in r && b in r && key(a.data) == key(b.data) ensures a == b {
      var ia :| 0 <= ia < |r| && r[ia] == a;
      var ib :| 0 <= ib < |r| && r[ib] == b;
      if rows[ia].id != d.id && rows[ib].id != d.id {
        assert rows[ia] in rows && rows[ib] in rows;
      }
    }
  }

  /** Inserting a row under a fresh key adds exactly that key. */
  lemma AppendRowShape<T>(rows: seq<Row<T>>, r: Row<T>)
    requires DistinctIds(rows) && r.id !in Ids(rows)
    ensures DistinctIds(rows + [r]) && Ids(rows + [r]) == Ids(rows) + {r.id}
  {
    var a := rows + [r];
    forall x | x in Ids(a) ensures x in Ids(rows) + {r.id} {
      var i :| 0 <= i < |a| && a[i].id == x;
      if i < |rows| { assert rows[i].id == x; }
    }
    forall x | x in Ids(rows) ensures x in Ids(a) {
      var i :| 0 <= i < |rows| && rows[i].id == x;
      assert a[i].id == x;
    }
    assert a[|rows|].id == r.id;
    forall i, j | 0 <= i < j < |a| ensures a[i].id != a[j].id {
      if j == |rows| { assert rows[i].id in Ids(rows); }
    }
  }

  /** Inserting a row whose `key` no stored row has keeps that uniqueness constraint. */
  lemma AppendKeepsUnique<T, K>(rows: seq<Row<T>>, r: Row<T>, key: T -> K)
    requires UniqueBy(rows, key)
    requires forall i :: 0 <= i < |rows| ==> key(rows[i].data) != key(r.data)
    ensures UniqueBy(rows + [r], key)
  {
    var a := rows + [r];
    forall x, y | x in a && y in a && key(x.data) == key(y.data) ensures x == y {
      var i :| 0 <= i < |a| && a[i] == x;
      var j :| 0 <= j < |a| && a[j] == y;
      if i < |rows| && j < |rows| {
        assert rows[i] in rows && rows[j] in rows;
      }
    }
  }

  /** Whether the default (alive-only) manager finds a row with key `id`. */
  predicate AliveKey<T>(rows: seq<Row<T>>, id: Id) {
    match Find(rows, id)
    case Some(r) => !r.isDeleted
    case None => false
  }

  /** `delete()` on the stored instance with key `id`, when there is one. */
  function DeleteById<T>(rows: seq<Row<T>>, id: Id, now: Time): seq<Row<T>> {
    if id in Ids(rows) then SaveRow(rows, MarkDeleted(Find(rows, id).value, now)) else rows
  }

  /**
   * An instance delete keeps every row and every key, flags exactly the row with key `id`, and
   * leaves every lookup by another key as it was.
   */
  lemma DeleteByIdEffect<T>(rows: seq<Row<T>>, id: Id, now: Time)
    requires DistinctIds(rows)
    ensures |DeleteById(rows, id, now)| == |rows|
    ensures Ids(DeleteById(rows, id, now)) == Ids(rows) && DistinctIds(DeleteById(rows, id, now))
    ensures forall i :: 0 <= i < |rows| ==>
      DeleteById(rows, id, now)[i] == (if rows[i].id == id then MarkDeleted(rows[i], now) else rows[i])
    ensures forall x :: x != id ==> Find(DeleteById(rows, id, now), x) == Find(rows, x)
    ensures id in Ids(rows) ==> Find(DeleteById(rows, id, now), id) == Some(MarkDeleted(Find(rows, id).value, now))
    ensures forall x :: Find(DeleteById(rows, id, now), x).Some? == Find(rows, x).Some?
    ensures forall x :: Find(rows, x).Some? ==> Find(DeleteById(rows, id, now), x).value.data == Find(rows, x).value.data
  {
    var r := DeleteById(rows, id, now);
    if id in Ids(rows) {
      var d := MarkDeleted(Find(rows, id).value, now);
      SaveRowShape(rows, d);
      forall i | 0 <= i < |rows| && rows[i].id == id ensures r[i] == MarkDeleted(rows[i], now) {
        FindAt(rows, i);
      }
      forall x | x in Ids(rows) ensures Find(r, x) == (if x == id then Some(d) else Find(rows, x)) {
        var k := IndexOf(rows, x);
        FindAt(rows, k);
        FindAt(r, k);
      }
    }
  }

  /** An instance delete keeps every uniqueness constraint of the table. */
  lemma DeleteByIdKeepsUnique<T, K>(rows: seq<Row<T>>, id: Id, now: Time, key: T -> K)
    requires DistinctIds(rows) && UniqueBy(rows, key)
    ensures UniqueBy(DeleteById(rows, id, now), key)
  {
    if id in Ids(rows) {
      SaveRowKeepsUnique(rows, MarkDeleted(Find(rows, id).value, now), key);
    }
  }

  /** Two versions of a table that differ at most in their stamps and soft-delete flags. */
  ghost predicate SameShape<T>(a: seq<Row<T>>, b: seq<Row<T>>) {
    |a| == |b| && forall i :: 0 <= i < |a| ==> a[i].id == b[i].id && a[i].data == b[i].data
  }

  /** Flag changes keep the key set, the distinctness of keys, and every uniqueness constraint. */
  lemma SameShapeKeeps<T, K>(a: seq<Row<T>>, b: seq<Row<T>>, key: T -> K)
    requires SameShape(a, b) && DistinctIds(b)
    ensures Ids(a) == Ids(b) && DistinctIds(a)
    ensures UniqueBy(b, key) ==> UniqueBy(a, key)
  {
    SameShapeIds(a, b);
    if UniqueBy(b, key) {
      forall x, y | x in a && y in a && key(x.data) == key(y.data) ensures x == y {
        var i :| 0 <= i < |a| && a[i] == x;
        var j :| 0 <= j < |a| && a[j] == y;
        SameShapeSameKey(a, b, key, i, j);
      }
    }
  }

  lemma SameShapeIds<T>(a: seq<Row<T>>, b: seq<Row<T>>)
    requires SameShape(a, b)
    ensures Ids(a) == Ids(b)
    ensures DistinctIds(b) ==> DistinctIds(a)
  {
    assert forall i :: 0 <= i < |b| ==> b[i].id in Ids(a);
  }

  /** Two positions of `a` with equal keys are one position when `b` is unique and keyed. */
  lemma SameShapeSameKey<T, K>(a: seq<Row<T>>, b: seq<Row<T>>, key: T -> K, i: nat, j: nat)
    requires SameShape(a, b) && DistinctIds(b) && UniqueBy(b, key)
    requires i < |a| && j < |a| && key(a[i].data) == key(a[j].data)
    ensures i == j
  {
    assert b[i] in b && b[j] in b;
    assert b[i] == b[j];
  }

  /** An instance delete changes only stamps and flags. */
  lemma DeleteByIdShape<T>(rows: seq<Row<T>>, id: Id, now: Time)
    requires DistinctIds(rows)
    ensures SameShape(DeleteById(rows, id, now), rows)
  {
    DeleteByIdEffect(rows, id, now);
  }

  // ----- SoftDeleteQuerySet: alive(), deleted() and the bulk update()s -----

  predicate IsAlive<T>(r: Row<T>) { !r.isDeleted }

  /** `alive()`: the rows whose flag is clear. */
  function Alive<T>(rows: seq<Row<T>>): seq<Row<T>> {
    Filter(rows, (r: Row<T>) => !r.isDeleted)
  }

  /** `deleted()`: the rows whose flag is set. */
  function DeletedOnly<T>(rows: seq<Row<T>>): seq<Row<T>> {
    Filter(rows, (r: Row<T>) => r.isDeleted)
  }

  /** Every row lies in exactly one of `alive()` and `deleted()`. */
  lemma {:induction false} AliveDeletedPartition<T>(rows: seq<Row<T>>)
    ensures forall i :: 0 <= i < |rows| ==> (rows[i] in Alive(rows) <==> !rows[i].isDeleted)
    ensures forall i :: 0 <= i < |rows| ==> (rows[i] in DeletedOnly(rows) <==> rows[i].isDeleted)
    ensures |Alive(rows)| + |DeletedOnly(rows)| == |rows|
  {
    if rows != [] {
      AliveDeletedPartition(rows[1..]);
      assert Alive(rows) == (if rows[0].isDeleted then [] else [rows[0]]) + Alive(rows[1..]);
      assert DeletedOnly(rows) == (if rows[0].isDeleted then [rows[0]] else []) + DeletedOnly(rows[1..]);
    }
  }

  /** Query-set `delete()`: one `update(is_deleted=True, deleted_at=now)` over the selected rows. */
  function BulkDelete<T>(rows: seq<Row<T>>, sel: set<Id>, now: Time): seq<Row<T>> {
    seq(|rows|, i requires 0 <= i < |rows| =>
      if rows[i].id in sel then rows[i].(isDeleted := true, deletedAt := Some(now)) else rows[i])
  }

  /** Query-set `restore()`: one `update(is_deleted=False, deleted_at=None)` over the selected rows. */
  function BulkRestore<T>(rows: seq<Row<T>>, sel: set<Id>): seq<Row<T>> {
    seq(|rows|, i requires 0 <= i < |rows| =>
      if rows[i].id in sel then rows[i].(isDeleted := false, deletedAt := None) else rows[i])
  }

  /** Query-set `hard_delete()`: the selected rows are physically removed. */
  function BulkHardDelete<T>(rows: seq<Row<T>>, sel: set<Id>): seq<Row<T>> {
    Filter(rows, (r: Row<T>) => r.id !in sel)
  }

  /** The number of rows an `update()` over `sel` reports as matched. */
  function Matched<T>(rows: seq<Row<T>>, sel: set<Id>): nat {
    |Filter(rows, (r: Row<T>) => r.id in sel)|
  }

  /**
   * Query-set `delete()` removes nothing: every row keeps its key, stamps and fields, the
   * selected rows become deleted and the others are unchanged. `update()` bypasses `save()`,
   * so `updated_at` is not refreshed.
   */
  lemma BulkDeleteKeepsRows<T>(rows: seq<Row<T>>, sel: set<Id>, now: Time)
    ensures |BulkDelete(rows, sel, now)| == |rows|
    ensures forall i :: 0 <= i < |rows| ==>
      var d := BulkDelete(rows, sel, now)[i];
      d.id == rows[i].id && d.data == rows[i].data &&
      d.createdAt == rows[i].createdAt && d.updatedAt == rows[i].updatedAt &&
      (rows[i].id in sel ==> d.isDeleted && d.deletedAt == Some(now)) &&
      (rows[i].id !in sel ==> d == rows[i])
    ensures Ids(BulkDelete(rows, sel, now)) == Ids(rows)
  {
    var d := BulkDelete(rows, sel, now);
    assert forall i :: 0 <= i < |rows| ==> d[i].id == rows[i].id;
  }

  /** After a query-set `delete()`, no selected row is alive any more. */
  lemma {:induction false} BulkDeleteHidesSelected<T>(rows: seq<Row<T>>, sel: set<Id>, now: Time)
    ensures forall i :: 0 <= i < |Alive(BulkDelete(rows, sel, now))| ==>
      var r := Alive(BulkDelete(rows, sel, now))[i];
      r.id !in sel && r in rows
  {
    var d := BulkDelete(rows, sel, now);
    forall i | 0 <= i < |Alive(d)| ensures Alive(d)[i].id !in sel && Alive(d)[i] in rows {
      var r := Alive(d)[i];
      assert r in d && !r.isDeleted;
      var k :| 0 <= k < |d| && d[k] == r;
    }
  }

  /** Query-set `restore()` undoes a query-set `delete()` on the same rows when those rows were alive. */
  lemma BulkRestoreUndoesDelete<T>(rows: seq<Row<T>>, sel: set<Id>, now: Time)
    requires forall i :: 0 <= i < |rows| && rows[i].id in sel ==> !rows[i].isDeleted && rows[i].deletedAt == None
    ensures BulkRestore(BulkDelete(rows, sel, now), sel) == rows
  {
    var r := BulkRestore(BulkDelete(rows, sel, now), sel);
    assert |r| == |rows|;
    forall i | 0 <= i < |rows| ensures r[i] == rows[i] {
    }
  }

  lemma {:induction false} IdsOfFilter<T>(rows: seq<Row<T>>, p: Row<T> -> bool)
    ensures Ids(Filter(rows, p)) == (set i | 0 <= i < |rows| && p(rows[i]) :: rows[i].id)
  {
    var f := Filter(rows, p);
    forall x | x in Ids(f) ensures x in (set i | 0 <= i < |rows| && p(rows[i]) :: rows[i].id) {
      var i :| 0 <= i < |f| && f[i].id == x;
      assert f[i] in rows;
      var k :| 0 <= k < |rows| && rows[k] == f[i];
    }
    forall x | x in (set i | 0 <= i < |rows| && p(rows[i]) :: rows[i].id) ensures x in Ids(f) {
      var i :| 0 <= i < |rows| && p(rows[i]) && rows[i].id == x;
      assert rows[i] in f;
      var k :| 0 <= k < |f| && f[k] == rows[i];
    }
  }

  /** Query-set `hard_delete()` removes exactly the selected keys. */
  lemma BulkHardDeleteRemoves<T>(rows: seq<Row<T>>, sel: set<Id>)
    ensures Ids(BulkHardDelete(rows, sel)) == Ids(rows) - sel
    ensures forall i :: 0 <= i < |rows| && rows[i].id !in sel ==> rows[i] in BulkHardDelete(rows, sel)
  {
    IdsOfFilter(rows, (r: Row<T>) => r.id !in sel);
  }

  // ----- SoftDeleteManager: objects (alive only) and all_objects -----

  /** `get_queryset()` of a manager: alive rows for `objects`, every row for `all_objects`. */
  function ManagerRows<T>(rows: seq<Row<T>>, aliveOnly: bool): seq<Row<T>> {
    if aliveOnly then Alive(rows) else rows
  }

  /** `objects` sees exactly the alive rows, `all_objects` every row. */
  lemma ManagerViews<T>(rows: seq<Row<T>>)
    ensures forall r :: r in ManagerRows(rows, true) <==> r in rows && !r.isDeleted
    ensures ManagerRows(rows, false) == rows
  {
  }

  /** `hard_delete()` of a manager: a query-set hard delete over the manager's own rows. */
  function ManagerHardDelete<T>(rows: seq<Row<T>>, aliveOnly: bool): seq<Row<T>> {
    BulkHardDelete(rows, Ids(ManagerRows(rows, aliveOnly)))
  }

  /** `restore()` of a manager: a query-set restore over the manager's own rows. */
  function ManagerRestore<T>(rows: seq<Row<T>>, aliveOnly: bool): seq<Row<T>> {
    BulkRestore(rows, Ids(ManagerRows(rows, aliveOnly)))
  }

  /**
   * Because `objects` only sees alive rows, `objects.restore()` brings back nothing (every
   * deleted row stays deleted) and `objects.hard_delete()` keeps exactly the deleted rows;
   * `all_objects.restore()` makes every row alive.
   */
  lemma ManagerScopes<T>(rows: seq<Row<T>>)
    requires DistinctIds(rows)
    ensures forall i :: 0 <= i < |rows| ==> ManagerRestore(rows, true)[i].isDeleted == rows[i].isDeleted
    ensures ManagerHardDelete(rows, true) == DeletedOnly(rows)
    ensures forall i :: 0 <= i < |rows| ==> !ManagerRestore(rows, false)[i].isDeleted
  {
    var alive := Ids(Alive(rows));
    IdsOfFilter(rows, (r: Row<T>) => !r.isDeleted);
    forall i | 0 <= i < |rows| && rows[i].isDeleted ensures rows[i].id !in alive {
      assert forall k :: 0 <= k < |rows| && rows[k].id == rows[i].id ==> k == i;
    }
    AliveHardDelete(rows, alive);
    assert forall i :: 0 <= i < |rows| ==> rows[i].id in Ids(ManagerRows(rows, false));
  }

  lemma {:induction false} AliveHardDelete<T>(rows: seq<Row<T>>, alive: set<Id>)
    requires forall i :: 0 <= i < |rows| && !rows[i].isDeleted ==> rows[i].id in alive
    requires forall i :: 0 <= i < |rows| && rows[i].isDeleted ==> rows[i].id !in alive
    ensures BulkHardDelete(rows, alive) == DeletedOnly(rows)
  {
    if rows != [] {
      AliveHardDelete(rows[1..], alive);
    }
  }

  /**
   * One table behind the ORM. Instance methods load the row by key, change it and save it;
   * query-set and manager methods are bulk `update()`s or deletes over a selection of keys.
   */
  class Table<T> {
    var rows: seq<Row<T>>

    ghost predicate Valid()
      reads this
    {
      DistinctIds(rows)
    }

    constructor ()
      ensures Valid() && rows == []
    {
      rows := [];
    }

    /** `Model.objects.all()` */
    function Objects(): seq<Row<T>>
      reads this
    {
      ManagerRows(rows, true)
    }

    /** `Model.all_objects.all()` */
    function AllObjects(): seq<Row<T>>
      reads this
    {
      ManagerRows(rows, false)
    }

    /** `instance.delete()` on the stored instance with key `id`. */
    method Delete(id: Id, now: Time)
      requires Valid() && id in Ids(rows)
      modifies this
      ensures Valid()
      ensures rows == SaveRow(old(rows), MarkDeleted(old(Find(rows, id)).value, now))
    {
      var k := IndexOf(rows, id);
      var d := MarkDeleted(rows[k], now);
      rows := rows[k := d];
    }

    /** `instance.restore()` on the stored instance with key `id`. */
    method Restore(id: Id, now: Time)
      requires Valid() && id in Ids(rows)
      modifies this
      ensures Valid()
      ensures rows == SaveRow(old(rows), Unmarked(old(Find(rows, id)).value, now))
    {
      var k := IndexOf(rows, id);
      var d := Unmarked(rows[k], now);
      rows := rows[k := d];
    }

    /** `instance.hard_delete()`, within this one table (cascades across tables are the tenancy model's). */
    method HardDelete(id: Id)
      requires Valid()
      modifies this
      ensures Valid()
      ensures rows == BulkHardDelete(old(rows), {id})
    {
      var _ := QuerySetHardDelete({id});
    }

    /** Query-set `delete()`; returns the number of rows the update matched. */
    method QuerySetDelete(sel: set<Id>, now: Time) returns (n: nat)
      requires Valid()
      modifies this
      ensures Valid()
      ensures rows == BulkDelete(old(rows), sel, now) && n == Matched(old(rows), sel)
    {
      n := Matched(rows, sel);
      var d := BulkDelete(rows, sel, now);
      assert forall i :: 0 <= i < |rows| ==> d[i].id == rows[i].id;
      rows := d;
    }

    /** Query-set `restore()`; returns the number of rows the update matched. */
    method QuerySetRestore(sel: set<Id>) returns (n: nat)
      requires Valid()
      modifies this
      ensures Valid()
      ensures rows == BulkRestore(old(rows), sel) && n == Matched(old(rows), sel)
    {
      n := Matched(rows, sel);
      var d := BulkRestore(rows, sel);
      assert forall i :: 0 <= i < |rows| ==> d[i].id == rows[i].id;
      rows := d;
    }

    /** Query-set `hard_delete()`; returns the number of rows removed. */
    method QuerySetHardDelete(sel: set<Id>) returns (n: nat)
      requires Valid()
      modifies this
      ensures Valid()
      ensures rows == BulkHardDelete(old(rows), sel) && n == Matched(old(rows), sel)
    {
      n := Matched(rows, sel);
      FilterKeepsDistinctIds(rows, (r: Row<T>) => r.id !in sel);
      rows := BulkHardDelete(rows, sel);
    }

    /** `Model.objects.hard_delete()` (aliveOnly) or `Model.all_objects.hard_delete()`. */
    method ManagerHardDeleteAll(aliveOnly: bool) returns (n: nat)
      requires Valid()
      modifies this
      ensures Valid()
      ensures rows == ManagerHardDelete(old(rows), aliveOnly)
      ensures n == Matched(old(rows), Ids(ManagerRows(old(rows), aliveOnly)))
    {
      n := QuerySetHardDelete(Ids(ManagerRows(rows, aliveOnly)));
    }

    /** `Model.objects.restore()` (aliveOnly) or `Model.all_objects.restore()`. */
    method ManagerRestoreAll(aliveOnly: bool) returns (n: nat)
      requires Valid()
      modifies this
      ensures Valid()
      ensures rows == ManagerRestore(old(rows), aliveOnly)
      ensures n == Matched(old(rows), Ids(ManagerRows(old(rows), aliveOnly)))
    {
      n := QuerySetRestore(Ids(ManagerRows(rows, aliveOnly)));
    }
  }
}
