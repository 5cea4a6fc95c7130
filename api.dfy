/**
 * The write paths of the REST API as state changes of one database
 * (backend_django/apps/core/views.py `perform_create`/`perform_destroy` and the serializers'
 * `create`): each request is checked first, and only an accepted request changes the tables.
 * Primary keys of new rows (UUIDs) and the clock are parameters.
 */
module Api {
  import opened Wrappers
  import opened SoftDelete
  import opened Tenancy
  import opened Permissions
  import opened Views
  import opened Serializers

  /** The scoping keys of a stock movement's validated payload; `lot` is present when sent, possibly null. */
  function MovementPayload(m: StockMovement, lotSent: bool): Payload {
    Payload(Absent, Absent, Absent,
      if m.lot.Some? then Ref(m.lot.value) else if lotSent then Null else Absent,
      Ref(m.stockItem))
  }

  /** An enterprise's payload carries no scoping key: `owner` is read-only, so nothing is checked beyond login. */
  function EnterprisePayload(): Payload {
    Payload(Absent, Absent, Absent, Absent, Absent)
  }

  /** A payload the create check accepts names an alive stock item and, when given, an alive lot. */
  lemma AcceptedMovementIsCreatable(s: Store, c: Caller, m: StockMovement, lotSent: bool, id: Id, now: Time)
    requires CreateDecision(s, c, MovementPayload(m, lotSent)).Ok?
    ensures CreateMovement(s, m, id, now).Ok?
  {
  }

  class Backend {
    var db: Store

    ghost predicate Consistent()
      reads this
    {
      Valid(db) && EventRefsOk(db)
    }

    constructor (s: Store)
      requires Valid(s) && EventRefsOk(s)
      ensures db == s && Consistent()
    {
      db := s;
    }

    /**
     * DELETE on one object: `get_object` and `perform_destroy`'s role check decide; an accepted
     * request soft-deletes that one row.
     */
    method Destroy(c: Caller, o: Obj, now: Time) returns (r: Result<(), ApiError>)
      requires Consistent()
      modifies this
      ensures Consistent()
      ensures r == DestroyDecision(old(db), c, o)
      ensures r.Ok? ==> db == SoftDeleteObj(old(db), o, now)
      ensures r.Err? ==> db == old(db)
    {
      r := DestroyDecision(db, c, o);
      if r.Ok? {
        SoftDeleteKeepsValid(db, o, now);
        db := SoftDeleteObj(db, o, now);
      }
    }

    /**
     * POST of a stock movement: the create check, then `StockMovementSerializer.create`.
     */
    method CreateStockMovement(c: Caller, m: StockMovement, lotSent: bool, id: Id, now: Time)
      returns (r: Result<Id, ApiError>)
      requires Consistent() && id !in Ids(db.movements)
      modifies this
      ensures Consistent()
      ensures var d := CreateDecision(old(db), c, MovementPayload(m, lotSent));
        r == if d.Ok? then Ok(id) else Err(d.error)
      ensures r.Err? ==> db == old(db)
      ensures r.Ok? ==> CreateMovement(old(db), m, id, now) == Ok(db)
    {
      var d := CreateDecision(db, c, MovementPayload(m, lotSent));
      if d.Err? {
        return Err(d.error);
      }
      AcceptedMovementIsCreatable(db, c, m, lotSent, id, now);
      SaveMovement(m, id, now);
      r := Ok(id);
    }

    /**
     * `StockMovementSerializer.create` once its references are validated: inserts the movement,
     * then moves the stock item's quantity in place and saves only that field.
     */
    method SaveMovement(m: StockMovement, id: Id, now: Time)
      requires Consistent() && id !in Ids(db.movements) && CreateMovement(db, m, id, now).Ok?
      modifies this
      ensures Consistent()
      ensures CreateMovement(old(db), m, id, now) == Ok(db)
    {
      CreateMovementKeepsValid(db, m, id, now);
      ghost var expected := CreateMovement(db, m, id, now).value;
      var stock := Find(db.stockItems, m.stockItem).value;
      db := db.(movements := db.movements + [NewRow(id, now, m)]);
      db := db.(stockItems := SaveRow(db.stockItems, Restocked(stock, m)));
      assert db == expected;
    }

    /**
     * POST of an enterprise: login is the only check; `EnterpriseSerializer.create` makes the
     * caller the owner and gets or creates the owner membership.
     */
    method CreateEnterprise(c: Caller, name: string, entId: Id, memId: Id, now: Time)
      returns (r: Result<Id, ApiError>)
      requires Consistent() && entId !in Ids(db.enterprises) && memId !in Ids(db.memberships)
      modifies this
      ensures Consistent()
      ensures c.Anonymous? ==> r == Err(NotAuthenticated) && db == old(db)
      ensures c.Authenticated? ==> r == Ok(entId)
      ensures c.Authenticated? ==> Serializers.CreateEnterprise(old(db), c.user, name, entId, memId, now) == Ok(db)
      ensures c.Authenticated? ==> RoleIn(db, c, Some(entId)) == Some(Owner)
    {
      var d := CreateDecision(db, c, EnterprisePayload());
      if d.Err? {
        return Err(d.error);
      }
      CreateEnterpriseKeepsValid(db, c.user, name, entId, memId, now);
      CreateEnterpriseOwns(db, c.user, name, entId, memId, now);
      db := Serializers.CreateEnterprise(db, c.user, name, entId, memId, now).value;
      r := Ok(entId);
    }
  }
}
