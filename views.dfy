/**
 * The member-scoped API of views.py: the enterprise scope of every collection, the per-viewset
 * filters, the owner/admin write check and where create, update and destroy take the enterprise
 * they check from.
 */
module Views {
  import opened Wrappers
  import opened Seqs
  import opened SoftDelete
  import opened Tenancy
  import opened Permissions

  // ----- the scope of BaseMemberViewSet.get_queryset -----

  /**
   * The enterprise keys of the caller's alive memberships (the enterprise itself may be
   * soft-deleted) together with the alive enterprises the caller owns (`Enterprise.objects`).
   */
  function ScopeIds(s: Store, u: UserId): set<Id> {
    (set i | 0 <= i < |s.memberships| && !s.memberships[i].isDeleted && s.memberships[i].data.user == u
           :: s.memberships[i].data.enterprise)
    + (set i | 0 <= i < |s.enterprises| && !s.enterprises[i].isDeleted && s.enterprises[i].data.owner == u
             :: s.enterprises[i].id)
  }

  /** The caller owns the enterprise `e` and that enterprise is alive. */
  predicate OwnsAlive(s: Store, u: UserId, e: Id) {
    match Find(s.enterprises, e)
    case Some(ent) => !ent.isDeleted && ent.data.owner == u
    case None => false
  }

  /** The scope is exactly: an alive membership, or ownership of an alive enterprise. */
  lemma ScopeIff(s: Store, u: UserId, e: Id)
    requires DistinctIds(s.enterprises)
    ensures e in ScopeIds(s, u) <==> HasAliveMembership(s, u, e) || OwnsAlive(s, u, e)
  {
    if e in Ids(s.enterprises) {
      var k := IndexOf(s.enterprises, e);
      FindAt(s.enterprises, k);
      if OwnsAlive(s, u, e) {
        assert !s.enterprises[k].isDeleted && s.enterprises[k].data.owner == u;
      }
    }
    if e in ScopeIds(s, u) && !HasAliveMembership(s, u, e) {
      var i :| 0 <= i < |s.enterprises| && !s.enterprises[i].isDeleted && s.enterprises[i].data.owner == u &&
               s.enterprises[i].id == e;
      FindAt(s.enterprises, i);
    }
  }

  /** Everything in scope gives the caller a role there. */
  lemma ScopeGivesStanding(s: Store, u: UserId)
    requires DistinctIds(s.enterprises)
    ensures forall e :: e in ScopeIds(s, u) ==> HasStanding(s, u, e)
  {
    forall e | e in ScopeIds(s, u) ensures HasStanding(s, u, e) {
      ScopeIff(s, u, e);
    }
  }

  /**
   * The scope is narrower than the roles: the owner of a soft-deleted enterprise with no alive
   * membership in it still holds the `owner` role there, but lists nothing of it.
   */
  lemma DeletedOwnedOutsideScope(s: Store, u: UserId, e: Id)
    requires DistinctIds(s.enterprises)
    requires IsOwner(s, u, e) && !OwnsAlive(s, u, e) && !HasAliveMembership(s, u, e)
    ensures e !in ScopeIds(s, u)
    ensures RoleIn(s, Authenticated(u), Some(e)) == Some(Owner)
  {
    ScopeIff(s, u, e);
  }

  /** A chain walk that ends in the scope. */
  predicate InScope(e: Option<Id>, scope: set<Id>) {
    e.Some? && e.value in scope
  }

  // ----- the query-parameter filters of each viewset -----

  /** An id parameter (None when absent or empty) matches when absent or equal. */
  predicate IdMatches(param: Option<Id>, v: Id) {
    param.None? || param.value == v
  }

  /** An id parameter against a nullable key: a null key never equals a given id. */
  predicate OptIdMatches(param: Option<Id>, v: Option<Id>) {
    param.None? || v == Some(param.value)
  }

  /** `species__code=<code>` through a (nullable) species key. */
  predicate SpeciesCodeMatches(s: Store, param: Option<string>, sp: Option<Id>) {
    param.None? ||
    (sp.Some? && FindSpecies(s.species, sp.value).Some? && FindSpecies(s.species, sp.value).value.code == param.value)
  }

  datatype FarmQuery = FarmQuery(enterprise: Option<Id>)
  datatype UnitQuery = UnitQuery(farm: Option<Id>, species: Option<string>)
  datatype LotQuery = LotQuery(unit: Option<Id>, farm: Option<Id>, species: Option<string>, status: Option<string>)
  datatype RecordQuery = RecordQuery(lot: Option<Id>, dateFrom: Option<Date>, dateTo: Option<Date>)
  datatype EntryQuery = EntryQuery(farm: Option<Id>, lot: Option<Id>)
  datatype MovementQuery = MovementQuery(stockItem: Option<Id>, farm: Option<Id>)

  predicate FarmKept(s: Store, scope: set<Id>, q: FarmQuery, f: Row<Farm>) {
    !f.isDeleted && f.data.enterprise in scope && IdMatches(q.enterprise, f.data.enterprise)
  }

  predicate UnitKept(s: Store, scope: set<Id>, q: UnitQuery, x: Row<Unit>) {
    && !x.isDeleted && InScope(FarmEnterprise(s, x.data.farm), scope)
    && IdMatches(q.farm, x.data.farm) && SpeciesCodeMatches(s, q.species, x.data.species)
  }

  predicate LotKept(s: Store, scope: set<Id>, q: LotQuery, x: Row<Lot>) {
    && !x.isDeleted && InScope(UnitEnterprise(s, x.data.unit), scope)
    && IdMatches(q.unit, x.data.unit)
    && (q.farm.None? || (Find(s.units, x.data.unit).Some? && Find(s.units, x.data.unit).value.data.farm == q.farm.value))
    && SpeciesCodeMatches(s, q.species, Some(x.data.species))
    && (q.status.None? || StatusCode(x.data.status) == q.status.value)
  }

  predicate RecordKept(s: Store, scope: set<Id>, q: RecordQuery, x: Row<DailyRecord>) {
    && !x.isDeleted && InScope(LotEnterprise(s, x.data.lot), scope)
    && IdMatches(q.lot, x.data.lot)
    && (q.dateFrom.None? || x.data.date >= q.dateFrom.value)
    && (q.dateTo.None? || x.data.date <= q.dateTo.value)
  }

  predicate HealthKept(s: Store, scope: set<Id>, lot: Option<Id>, x: Row<HealthEvent>) {
    !x.isDeleted && InScope(LotEnterprise(s, x.data.lot), scope) && IdMatches(lot, x.data.lot)
  }

  predicate ReproductionKept(s: Store, scope: set<Id>, lot: Option<Id>, x: Row<ReproductionEvent>) {
    !x.isDeleted && InScope(LotEnterprise(s, x.data.lot), scope) && IdMatches(lot, x.data.lot)
  }

  predicate EntryKept(s: Store, scope: set<Id>, q: EntryQuery, x: Row<FinancialEntry>) {
    && !x.isDeleted && InScope(FarmEnterprise(s, x.data.farm), scope)
    && IdMatches(q.farm, x.data.farm) && OptIdMatches(q.lot, x.data.lot)
  }

  predicate StockItemKept(s: Store, scope: set<Id>, farm: Option<Id>, x: Row<StockItem>) {
    !x.isDeleted && InScope(FarmEnterprise(s, x.data.farm), scope) && IdMatches(farm, x.data.farm)
  }

  predicate MovementKept(s: Store, scope: set<Id>, q: MovementQuery, x: Row<StockMovement>) {
    && !x.isDeleted && InScope(StockItemEnterprise(s, x.data.stockItem), scope)
    && IdMatches(q.stockItem, x.data.stockItem)
    && (q.farm.None? ||
        (Find(s.stockItems, x.data.stockItem).Some? && Find(s.stockItems, x.data.stockItem).value.data.farm == q.farm.value))
  }

  // ----- the listings (rows in table order; `order_by` is not modelled) -----

  /** FarmViewSet: the alive farms of the scope, optionally of one enterprise. */
  function ListFarms(s: Store, u: UserId, q: FarmQuery): (r: seq<Row<Farm>>)
    ensures forall i :: 0 <= i < |r| ==> r[i] in s.farms && FarmKept(s, ScopeIds(s, u), q, r[i])
    ensures forall i :: 0 <= i < |s.farms| && FarmKept(s, ScopeIds(s, u), q, s.farms[i]) ==> s.farms[i] in r
  {
    var scope := ScopeIds(s, u);
    Filter(s.farms, (x: Row<Farm>) => FarmKept(s, scope, q, x))
  }

  /** UnitViewSet: alive units whose farm's enterprise is in scope, by farm and species code. */
  function ListUnits(s: Store, u: UserId, q: UnitQuery): (r: seq<Row<Unit>>)
    ensures forall i :: 0 <= i < |r| ==> r[i] in s.units && UnitKept(s, ScopeIds(s, u), q, r[i])
    ensures forall i :: 0 <= i < |s.units| && UnitKept(s, ScopeIds(s, u), q, s.units[i]) ==> s.units[i] in r
  {
    var scope := ScopeIds(s, u);
    Filter(s.units, (x: Row<Unit>) => UnitKept(s, scope, q, x))
  }

  /** LotViewSet: alive lots in scope, by unit, the unit's farm, species code and status. */
  function ListLots(s: Store, u: UserId, q: LotQuery): (r: seq<Row<Lot>>)
    ensures forall i :: 0 <= i < |r| ==> r[i] in s.lots && LotKept(s, ScopeIds(s, u), q, r[i])
    ensures forall i :: 0 <= i < |s.lots| && LotKept(s, ScopeIds(s, u), q, s.lots[i]) ==> s.lots[i] in r
  {
    var scope := ScopeIds(s, u);
    Filter(s.lots, (x: Row<Lot>) => LotKept(s, scope, q, x))
  }

  /** LotDailyRecordViewSet: alive records in scope, by lot and an inclusive date range. */
  function ListRecords(s: Store, u: UserId, q: RecordQuery): (r: seq<Row<DailyRecord>>)
    ensures forall i :: 0 <= i < |r| ==> r[i] in s.records && RecordKept(s, ScopeIds(s, u), q, r[i])
    ensures forall i :: 0 <= i < |s.records| && RecordKept(s, ScopeIds(s, u), q, s.records[i]) ==> s.records[i] in r
  {
    var scope := ScopeIds(s, u);
    Filter(s.records, (x: Row<DailyRecord>) => RecordKept(s, scope, q, x))
  }

  /** HealthEventViewSet: alive events in scope, by lot. */
  function ListHealthEvents(s: Store, u: UserId, lot: Option<Id>): (r: seq<Row<HealthEvent>>)
    ensures forall i :: 0 <= i < |r| ==> r[i] in s.healthEvents && HealthKept(s, ScopeIds(s, u), lot, r[i])
    ensures forall i :: 0 <= i < |s.healthEvents| && HealthKept(s, ScopeIds(s, u), lot, s.healthEvents[i]) ==> s.healthEvents[i] in r
  {
    var scope := ScopeIds(s, u);
    Filter(s.healthEvents, (x: Row<HealthEvent>) => HealthKept(s, scope, lot, x))
  }

  /** ReproductionEventViewSet: alive events in scope, by lot. */
  function ListReproductionEvents(s: Store, u: UserId, lot: Option<Id>): (r: seq<Row<ReproductionEvent>>)
    ensures forall i :: 0 <= i < |r| ==> r[i] in s.reproductionEvents && ReproductionKept(s, ScopeIds(s, u), lot, r[i])
    ensures forall i :: 0 <= i < |s.reproductionEvents| && ReproductionKept(s, ScopeIds(s, u), lot, s.reproductionEvents[i]) ==>
      s.reproductionEvents[i] in r
  {
    var scope := ScopeIds(s, u);
    Filter(s.reproductionEvents, (x: Row<ReproductionEvent>) => ReproductionKept(s, scope, lot, x))
  }

  /** FinancialEntryViewSet: alive entries whose farm is in scope, by farm and lot. */
  function ListEntries(s: Store, u: UserId, q: EntryQuery): (r: seq<Row<FinancialEntry>>)
    ensures forall i :: 0 <= i < |r| ==> r[i] in s.entries && EntryKept(s, ScopeIds(s, u), q, r[i])
    ensures forall i :: 0 <= i < |s.entries| && EntryKept(s, ScopeIds(s, u), q, s.entries[i]) ==> s.entries[i] in r
  {
    var scope := ScopeIds(s, u);
    Filter(s.entries, (x: Row<FinancialEntry>) => EntryKept(s, scope, q, x))
  }

  /** StockItemViewSet: alive items whose farm is in scope, by farm. */
  function ListStockItems(s: Store, u: UserId, farm: Option<Id>): (r: seq<Row<StockItem>>)
    ensures forall i :: 0 <= i < |r| ==> r[i] in s.stockItems && StockItemKept(s, ScopeIds(s, u), farm, r[i])
    ensures forall i :: 0 <= i < |s.stockItems| && StockItemKept(s, ScopeIds(s, u), farm, s.stockItems[i]) ==> s.stockItems[i] in r
  {
    var scope := ScopeIds(s, u);
    Filter(s.stockItems, (x: Row<StockItem>) => StockItemKept(s, scope, farm, x))
  }

  /** StockMovementViewSet: alive movements whose stock item is in scope, by item and the item's farm. */
  function ListMovements(s: Store, u: UserId, q: MovementQuery): (r: seq<Row<StockMovement>>)
    ensures forall i :: 0 <= i < |r| ==> r[i] in s.movements && MovementKept(s, ScopeIds(s, u), q, r[i])
    ensures forall i :: 0 <= i < |s.movements| && MovementKept(s, ScopeIds(s, u), q, s.movements[i]) ==> s.movements[i] in r
  {
    var scope := ScopeIds(s, u);
    Filter(s.movements, (x: Row<StockMovement>) => MovementKept(s, scope, q, x))
  }

  /** EnterpriseViewSet: alive enterprises the caller owns or holds an alive membership in, each once. */
  function ListEnterprises(s: Store, u: UserId): (r: seq<Row<Enterprise>>)
    requires DistinctIds(s.enterprises)
    ensures forall i, j :: 0 <= i < j < |r| ==> r[i].id != r[j].id
    ensures forall i :: 0 <= i < |r| ==> r[i] in s.enterprises && !r[i].isDeleted &&
                                         (r[i].data.owner == u || HasAliveMembership(s, u, r[i].id))
    ensures forall i :: 0 <= i < |s.enterprises| && !s.enterprises[i].isDeleted &&
                        (s.enterprises[i].data.owner == u || HasAliveMembership(s, u, s.enterprises[i].id)) ==>
                        s.enterprises[i] in r
  {
    var keep := (x: Row<Enterprise>) => !x.isDeleted && (x.data.owner == u || HasAliveMembership(s, u, x.id));
    FilterKeepsDistinctIds(s.enterprises, keep);
    Filter(s.enterprises, keep)
  }

  /**
   * Non-members never see rows: when the caller neither owns `e` nor holds an alive membership in
   * it, no listing, whatever its query parameters, returns a row whose chain ends at `e`.
   */
  lemma NoLeak(s: Store, u: UserId, e: Id, fq: FarmQuery, uq: UnitQuery, lq: LotQuery, rq: RecordQuery,
               lot: Option<Id>, eq: EntryQuery, farm: Option<Id>, mq: MovementQuery)
    requires DistinctIds(s.enterprises) && !HasStanding(s, u, e)
    ensures forall x :: x in ListFarms(s, u, fq) ==> x.data.enterprise != e
    ensures forall x :: x in ListUnits(s, u, uq) ==> FarmEnterprise(s, x.data.farm) != Some(e)
    ensures forall x :: x in ListLots(s, u, lq) ==> UnitEnterprise(s, x.data.unit) != Some(e)
    ensures forall x :: x in ListRecords(s, u, rq) ==> LotEnterprise(s, x.data.lot) != Some(e)
    ensures forall x :: x in ListHealthEvents(s, u, lot) ==> LotEnterprise(s, x.data.lot) != Some(e)
    ensures forall x :: x in ListReproductionEvents(s, u, lot) ==> LotEnterprise(s, x.data.lot) != Some(e)
    ensures forall x :: x in ListEntries(s, u, eq) ==> FarmEnterprise(s, x.data.farm) != Some(e)
    ensures forall x :: x in ListStockItems(s, u, farm) ==> FarmEnterprise(s, x.data.farm) != Some(e)
    ensures forall x :: x in ListMovements(s, u, mq) ==> StockItemEnterprise(s, x.data.stockItem) != Some(e)
    ensures forall x :: x in ListEnterprises(s, u) ==> x.id != e
  {
    ScopeGivesStanding(s, u);
    assert e !in ScopeIds(s, u);
    forall x | x in ListEnterprises(s, u) ensures x.id != e {
      var i :| 0 <= i < |ListEnterprises(s, u)| && ListEnterprises(s, u)[i] == x;
      var k :| 0 <= k < |s.enterprises| && s.enterprises[k] == x;
      FindAt(s.enterprises, k);
    }
  }

  /** The enterprise listing is exactly the alive enterprises in which the caller has standing. */
  lemma EnterpriseListingIsStanding(s: Store, u: UserId)
    requires DistinctIds(s.enterprises)
    ensures forall x :: x in ListEnterprises(s, u) <==> x in s.enterprises && !x.isDeleted && HasStanding(s, u, x.id)
  {
    forall x | x in s.enterprises ensures x in ListEnterprises(s, u) <==> !x.isDeleted && HasStanding(s, u, x.id) {
      var k :| 0 <= k < |s.enterprises| && s.enterprises[k] == x;
      FindAt(s.enterprises, k);
    }
    forall x | x in ListEnterprises(s, u) ensures x in s.enterprises {
      var i :| 0 <= i < |ListEnterprises(s, u)| && ListEnterprises(s, u)[i] == x;
    }
  }

  /** A stored unit whose farm's enterprise is in the caller's scope passes the object check. */
  lemma UnitInScopeReadable(s: Store, u: UserId, x: Row<Unit>)
    requires DistinctIds(s.enterprises) && DistinctIds(s.units) && x in s.units
    requires InScope(FarmEnterprise(s, x.data.farm), ScopeIds(s, u))
    ensures HasObjectPermission(s, Authenticated(u), UnitObj(x.id))
  {
    var k :| 0 <= k < |s.units| && s.units[k] == x;
    FindAt(s.units, k);
    assert EnterpriseOf(s, UnitObj(x.id)) == FarmEnterprise(s, x.data.farm);
    ScopeIff(s, u, FarmEnterprise(s, x.data.farm).value);
    RoleIffStanding(s, u, FarmEnterprise(s, x.data.farm).value);
  }

  /** A stored lot whose unit's enterprise is in the caller's scope passes the object check. */
  lemma LotInScopeReadable(s: Store, u: UserId, x: Row<Lot>)
    requires DistinctIds(s.enterprises) && DistinctIds(s.lots) && x in s.lots
    requires InScope(UnitEnterprise(s, x.data.unit), ScopeIds(s, u))
    ensures HasObjectPermission(s, Authenticated(u), LotObj(x.id))
  {
    var k :| 0 <= k < |s.lots| && s.lots[k] == x;
    FindAt(s.lots, k);
    assert EnterpriseOf(s, LotObj(x.id)) == UnitEnterprise(s, x.data.unit);
    ScopeIff(s, u, UnitEnterprise(s, x.data.unit).value);
    RoleIffStanding(s, u, UnitEnterprise(s, x.data.unit).value);
  }

  /** A listed unit or lot can also be retrieved: its object permission holds. */
  lemma ListedUnitsAndLotsReadable(s: Store, u: UserId, uq: UnitQuery, lq: LotQuery)
    requires DistinctIds(s.enterprises) && DistinctIds(s.units) && DistinctIds(s.lots)
    ensures forall x :: x in ListUnits(s, u, uq) ==> HasObjectPermission(s, Authenticated(u), UnitObj(x.id))
    ensures forall x :: x in ListLots(s, u, lq) ==> HasObjectPermission(s, Authenticated(u), LotObj(x.id))
  {
    forall x | x in ListUnits(s, u, uq) ensures HasObjectPermission(s, Authenticated(u), UnitObj(x.id)) {
      var i :| 0 <= i < |ListUnits(s, u, uq)| && ListUnits(s, u, uq)[i] == x;
      UnitInScopeReadable(s, u, x);
    }
    forall x | x in ListLots(s, u, lq) ensures HasObjectPermission(s, Authenticated(u), LotObj(x.id)) {
      var i :| 0 <= i < |ListLots(s, u, lq)| && ListLots(s, u, lq)[i] == x;
      LotInScopeReadable(s, u, x);
    }
  }

  /** A stored movement without a lot resolves to no enterprise, so it fails the object check. */
  lemma MovementWithoutLotUnowned(s: Store, c: Caller, x: Row<StockMovement>)
    requires DistinctIds(s.movements) && x in s.movements && x.data.lot.None?
    ensures !HasObjectPermission(s, c, StockMovementObj(x.id))
  {
    var k :| 0 <= k < |s.movements| && s.movements[k] == x;
    FindAt(s.movements, k);
    assert LotAttribute(s, StockMovementObj(x.id)) == None;
  }

  /**
   * Listing and object permission disagree on stock movements: the list scopes them through the
   * stock item, the object check through the lot, so a listed movement without a lot can be
   * neither retrieved, updated nor deleted.
   */
  lemma ListedMovementWithoutLotUnreadable(s: Store, u: UserId, q: MovementQuery, x: Row<StockMovement>)
    requires DistinctIds(s.movements) && x in ListMovements(s, u, q) && x.data.lot.None?
    ensures !HasObjectPermission(s, Authenticated(u), StockMovementObj(x.id))
  {
    var i :| 0 <= i < |ListMovements(s, u, q)| && ListMovements(s, u, q)[i] == x;
    MovementWithoutLotUnowned(s, Authenticated(u), x);
  }

  // ----- the write path: _enterprise_from_serializer, _ensure_write_role, perform_* -----

  /** A key of the validated payload: not present, present and null, or a reference. */
  datatype Field = Absent | Null | Ref(id: Id)

  /** The scoping keys a validated payload may carry (each serializer carries a subset of them). */
  datatype Payload = Payload(enterprise: Field, farm: Field, unit: Field, lot: Field, stockItem: Field)

  /**
   * `_enterprise_from_serializer`: the first present key among enterprise, farm, unit, lot and
   * stock_item decides, through that key's chain. A null `enterprise` gives None; a null value
   * under any other key is dereferenced and fails (an uncaught AttributeError, a server error).
   */
  function PayloadEnterprise(s: Store, p: Payload): (r: Result<Option<Id>, ApiError>)
    ensures r.Err? <==>
      (FirstPresentKey(p) == 1 && p.farm.Null?) || (FirstPresentKey(p) == 2 && p.unit.Null?) ||
      (FirstPresentKey(p) == 3 && p.lot.Null?) || (FirstPresentKey(p) == 4 && p.stockItem.Null?)
    ensures r.Err? ==> r.error == ServerError
    ensures p.enterprise.Ref? ==> r == Ok(Some(p.enterprise.id))
    ensures p.enterprise.Null? || FirstPresentKey(p) == 5 ==> r == Ok(None)
  {
    if !p.enterprise.Absent? then Ok(if p.enterprise.Ref? then Some(p.enterprise.id) else None)
    else if !p.farm.Absent? then (if p.farm.Ref? then Ok(FarmEnterprise(s, p.farm.id)) else Err(ServerError))
    else if !p.unit.Absent? then (if p.unit.Ref? then Ok(UnitEnterprise(s, p.unit.id)) else Err(ServerError))
    else if !p.lot.Absent? then (if p.lot.Ref? then Ok(LotEnterprise(s, p.lot.id)) else Err(ServerError))
    else if !p.stockItem.Absent? then (if p.stockItem.Ref? then Ok(StockItemEnterprise(s, p.stockItem.id)) else Err(ServerError))
    else Ok(None)
  }

  /**
   * The serializers' relational fields: each reference must name an alive row (the default
   * manager backs their query sets); only `lot`, nullable on stock movements and financial
   * entries, may be null. A failure is a 400.
   */
  predicate PayloadValid(s: Store, p: Payload) {
    && (p.enterprise.Ref? ==> Find(s.enterprises, p.enterprise.id).Some? && !Find(s.enterprises, p.enterprise.id).value.isDeleted)
    && (p.farm.Ref? ==> Find(s.farms, p.farm.id).Some? && !Find(s.farms, p.farm.id).value.isDeleted)
    && (p.unit.Ref? ==> Find(s.units, p.unit.id).Some? && !Find(s.units, p.unit.id).value.isDeleted)
    && (p.lot.Ref? ==> Find(s.lots, p.lot.id).Some? && !Find(s.lots, p.lot.id).value.isDeleted)
    && (p.stockItem.Ref? ==> Find(s.stockItems, p.stockItem.id).Some? && !Find(s.stockItems, p.stockItem.id).value.isDeleted)
    && !p.enterprise.Null? && !p.farm.Null? && !p.unit.Null? && !p.stockItem.Null?
  }

  /** The enterprise that the first present key leads to, ignoring whether its value is null. */
  function FirstPresentKey(p: Payload): nat {
    if !p.enterprise.Absent? then 0 else if !p.farm.Absent? then 1 else if !p.unit.Absent? then 2
    else if !p.lot.Absent? then 3 else if !p.stockItem.Absent? then 4 else 5
  }

  /**
   * On a validated payload over a consistent store, the payload enterprise is a stored
   * enterprise as soon as some key is present and non-null at the head of the order; it is None
   * exactly when no key is present; it fails exactly when the first present key is a null `lot`.
   */
  lemma PayloadEnterpriseCases(s: Store, p: Payload)
    requires RefsOk(s) && PayloadValid(s, p)
    ensures PayloadEnterprise(s, p).Err? <==> FirstPresentKey(p) == 3 && p.lot.Null?
    ensures PayloadEnterprise(s, p) == Ok(None) <==> FirstPresentKey(p) == 5
    ensures PayloadEnterprise(s, p).Ok? && PayloadEnterprise(s, p).value.Some? ==>
      PayloadEnterprise(s, p).value.value in Ids(s.enterprises)
  {
    if p.farm.Ref? { FarmResolves(s, p.farm.id); }
    if p.unit.Ref? { UnitResolves(s, p.unit.id); }
    if p.lot.Ref? { LotResolves(s, p.lot.id); }
    if p.stockItem.Ref? { StockItemResolves(s, p.stockItem.id); }
  }

  /** Only owners and admins write. */
  predicate WriteRole(r: Option<Role>) {
    r == Some(Owner) || r == Some(Admin)
  }

  /** `_ensure_write_role`: passes for `owner` or `admin`, refuses `user` or no role with a 403. */
  function EnsureWriteRole(s: Store, c: Caller, e: Id): (r: Result<(), ApiError>)
    ensures r.Ok? <==> WriteRole(RoleIn(s, c, Some(e)))
    ensures r.Err? ==> r.error == PermissionDenied
  {
    if WriteRole(RoleIn(s, c, Some(e))) then Ok(()) else Err(PermissionDenied)
  }

  /** `perform_create`: the role check runs, before the save, only when the payload names an enterprise. */
  function CheckCreate(s: Store, c: Caller, p: Payload): (r: Result<(), ApiError>)
    ensures r.Ok? <==>
      PayloadEnterprise(s, p).Ok? &&
      (PayloadEnterprise(s, p).value.Some? ==> WriteRole(RoleIn(s, c, PayloadEnterprise(s, p).value)))
    ensures r.Err? && PayloadEnterprise(s, p).Ok? ==> r.error == PermissionDenied
  {
    match PayloadEnterprise(s, p)
    case Err(err) => Err(err)
    case Ok(None) => Ok(())
    case Ok(Some(e)) => EnsureWriteRole(s, c, e)
  }

  /** `perform_update`: the payload enterprise, else (when it is None) the stored object's. */
  function CheckUpdate(s: Store, c: Caller, p: Payload, stored: Obj): (r: Result<(), ApiError>)
    ensures PayloadEnterprise(s, p).Err? ==> r == Err(ServerError)
    ensures PayloadEnterprise(s, p).Ok? && PayloadEnterprise(s, p).value.Some? ==> r == CheckCreate(s, c, p)
    ensures PayloadEnterprise(s, p) == Ok(None) ==> r == CheckDestroy(s, c, stored)
  {
    match PayloadEnterprise(s, p)
    case Err(err) => Err(err)
    case Ok(pe) =>
      var e := if pe.Some? then pe else EnterpriseOf(s, stored);
      if e.Some? then EnsureWriteRole(s, c, e.value) else Ok(())
  }

  /** `perform_destroy`: the stored object's enterprise, checked before the soft delete. */
  function CheckDestroy(s: Store, c: Caller, stored: Obj): (r: Result<(), ApiError>)
    ensures r.Ok? <==> EnterpriseOf(s, stored).None? || WriteRole(RoleIn(s, c, EnterpriseOf(s, stored)))
    ensures r.Err? ==> r.error == PermissionDenied
  {
    match EnterpriseOf(s, stored)
    case None => Ok(())
    case Some(e) => EnsureWriteRole(s, c, e)
  }

  /**
   * Where the checked enterprise comes from: create takes the payload's, update the payload's and
   * otherwise the stored object's, destroy the stored object's; no check without an enterprise.
   */
  lemma CheckedEnterprise(s: Store, c: Caller, p: Payload, stored: Obj)
    ensures PayloadEnterprise(s, p) == Ok(None) ==> CheckCreate(s, c, p) == Ok(())
    ensures PayloadEnterprise(s, p).Ok? && PayloadEnterprise(s, p).value.Some? ==>
      CheckCreate(s, c, p).Ok? == WriteRole(RoleIn(s, c, PayloadEnterprise(s, p).value)) &&
      CheckUpdate(s, c, p, stored) == CheckCreate(s, c, p)
    ensures PayloadEnterprise(s, p) == Ok(None) ==> CheckUpdate(s, c, p, stored) == CheckDestroy(s, c, stored)
    ensures CheckDestroy(s, c, stored).Ok? <==>
      EnterpriseOf(s, stored).None? || WriteRole(RoleIn(s, c, EnterpriseOf(s, stored)))
  {
  }

  /**
   * A member whose role is `user` cannot create a lot: posting a lot payload naming an alive unit
   * of an enterprise the caller does not own is refused with a 403.
   */
  lemma UserRoleCannotCreateLot(s: Store, u: UserId, unit: Id, k: int)
    requires MembershipsUnique(s)
    requires 0 <= k < |s.memberships| && !s.memberships[k].isDeleted && s.memberships[k].data.user == u
    requires UnitEnterprise(s, unit) == Some(s.memberships[k].data.enterprise) && s.memberships[k].data.role == User
    requires !IsOwner(s, u, s.memberships[k].data.enterprise)
    ensures CheckCreate(s, Authenticated(u), Payload(Absent, Absent, Ref(unit), Absent, Absent)) == Err(PermissionDenied)
  {
    var e := s.memberships[k].data.enterprise;
    RoleFromMembership(s, u, e, User);
    assert RoleIn(s, Authenticated(u), Some(e)) == Some(User);
    assert PayloadEnterprise(s, Payload(Absent, Absent, Ref(unit), Absent, Absent)) == Ok(Some(e));
  }

  // ----- the corrected write checks (see the findings) -----

  function OptSet(e: Option<Id>): set<Id> {
    if e.Some? then {e.value} else {}
  }

  /** Every enterprise the payload reaches, through every present non-null key. */
  function PayloadEnterprises(s: Store, p: Payload): set<Id> {
    (if p.enterprise.Ref? then {p.enterprise.id} else {})
    + (if p.farm.Ref? then OptSet(FarmEnterprise(s, p.farm.id)) else {})
    + (if p.unit.Ref? then OptSet(UnitEnterprise(s, p.unit.id)) else {})
    + (if p.lot.Ref? then OptSet(LotEnterprise(s, p.lot.id)) else {})
    + (if p.stockItem.Ref? then OptSet(StockItemEnterprise(s, p.stockItem.id)) else {})
  }

  /** The caller may write in every enterprise of the set. */
  predicate WritableAll(s: Store, c: Caller, es: set<Id>) {
    forall e | e in es :: WriteRole(RoleIn(s, c, Some(e)))
  }

  /** Create: a write role in every enterprise the payload reaches. */
  function CheckCreateAll(s: Store, c: Caller, p: Payload): (r: Result<(), ApiError>)
    ensures r.Ok? <==> WritableAll(s, c, PayloadEnterprises(s, p))
    ensures r.Err? ==> r.error == PermissionDenied
  {
    if WritableAll(s, c, PayloadEnterprises(s, p)) then Ok(()) else Err(PermissionDenied)
  }

  /** Update: a write role in every enterprise the payload reaches and in the stored object's. */
  function CheckUpdateAll(s: Store, c: Caller, p: Payload, stored: Obj): (r: Result<(), ApiError>)
    ensures r.Ok? <==> WritableAll(s, c, PayloadEnterprises(s, p) + OptSet(EnterpriseOf(s, stored)))
    ensures r.Err? ==> r.error == PermissionDenied
  {
    if WritableAll(s, c, PayloadEnterprises(s, p) + OptSet(EnterpriseOf(s, stored))) then Ok(()) else Err(PermissionDenied)
  }

  /**
   * The corrected checks are never weaker than the written ones where those reach a decision:
   * the enterprise the written check consults is among those the corrected one consults.
   */
  lemma CheckAllRefines(s: Store, c: Caller, p: Payload, stored: Obj)
    ensures PayloadEnterprise(s, p).Ok? && PayloadEnterprise(s, p).value.Some? ==>
      PayloadEnterprise(s, p).value.value in PayloadEnterprises(s, p)
    ensures CheckCreateAll(s, c, p).Ok? && PayloadEnterprise(s, p).Ok? ==> CheckCreate(s, c, p).Ok?
    ensures CheckUpdateAll(s, c, p, stored).Ok? && PayloadEnterprise(s, p).Ok? ==> CheckUpdate(s, c, p, stored).Ok?
  {
  }

  /**
   * A stock movement payload naming a lot and a stock item: the written check consults only the
   * lot's enterprise, so an admin of the lot's enterprise passes it for any enterprise's stock
   * item; the corrected check refuses unless the caller may also write in the item's enterprise.
   */
  lemma MovementLotShadowsStockItem(s: Store, c: Caller, lot: Id, item: Id)
    requires RefsOk(s) && lot in Ids(s.lots) && item in Ids(s.stockItems)
    requires WriteRole(RoleIn(s, c, LotEnterprise(s, lot))) && !WriteRole(RoleIn(s, c, StockItemEnterprise(s, item)))
    ensures CheckCreate(s, c, Payload(Absent, Absent, Absent, Ref(lot), Ref(item))) == Ok(())
    ensures CheckCreateAll(s, c, Payload(Absent, Absent, Absent, Ref(lot), Ref(item))) == Err(PermissionDenied)
  {
    LotResolves(s, lot);
    StockItemResolves(s, item);
    assert StockItemEnterprise(s, item).value in PayloadEnterprises(s, Payload(Absent, Absent, Absent, Ref(lot), Ref(item)));
  }

  /**
   * A stock movement payload with `lot` explicitly null: the written derivation dereferences the
   * null lot and fails with a server error before reaching the stock item; the corrected check
   * decides on the stock item's enterprise alone.
   */
  lemma NullLotMovementFails(s: Store, c: Caller, item: Id)
    requires RefsOk(s) && item in Ids(s.stockItems)
    ensures CheckCreate(s, c, Payload(Absent, Absent, Absent, Null, Ref(item))) == Err(ServerError)
    ensures CheckCreateAll(s, c, Payload(Absent, Absent, Absent, Null, Ref(item))).Ok? <==>
      WriteRole(RoleIn(s, c, StockItemEnterprise(s, item)))
  {
    StockItemResolves(s, item);
    assert PayloadEnterprises(s, Payload(Absent, Absent, Absent, Null, Ref(item))) == {StockItemEnterprise(s, item).value};
  }

  /**
   * An update that moves a unit to a farm of another enterprise: the written check consults only
   * the destination, so an admin there removes the unit from an enterprise where the caller may
   * not write; the corrected check also requires a write role at the origin.
   */
  lemma UpdateMovesOutUnchecked(s: Store, c: Caller, unit: Id, farm: Id)
    requires FarmEnterprise(s, farm).Some? && UnitEnterprise(s, unit).Some?
    requires WriteRole(RoleIn(s, c, FarmEnterprise(s, farm))) && !WriteRole(RoleIn(s, c, UnitEnterprise(s, unit)))
    ensures CheckUpdate(s, c, Payload(Absent, Ref(farm), Absent, Absent, Absent), UnitObj(unit)) == Ok(())
    ensures CheckUpdateAll(s, c, Payload(Absent, Ref(farm), Absent, Absent, Absent), UnitObj(unit)) == Err(PermissionDenied)
  {
    var p := Payload(Absent, Ref(farm), Absent, Absent, Absent);
    assert PayloadEnterprise(s, p) == Ok(FarmEnterprise(s, farm));
    assert EnterpriseOf(s, UnitObj(unit)) == UnitEnterprise(s, unit);
    assert UnitEnterprise(s, unit).value in PayloadEnterprises(s, p) + OptSet(EnterpriseOf(s, UnitObj(unit)));
  }

  /**
   * The corrected checks protect every enterprise a write touches: the created row's parents,
   * and, on update, also the enterprise the stored object belonged to.
   */
  lemma CheckAllGuardsTouched(s: Store, c: Caller, p: Payload, stored: Obj)
    ensures CheckCreateAll(s, c, p).Ok? ==> forall e :: e in PayloadEnterprises(s, p) ==> WriteRole(RoleIn(s, c, Some(e)))
    ensures CheckUpdateAll(s, c, p, stored).Ok? ==>
      (forall e :: e in PayloadEnterprises(s, p) ==> WriteRole(RoleIn(s, c, Some(e)))) &&
      (EnterpriseOf(s, stored).Some? ==> WriteRole(RoleIn(s, c, EnterpriseOf(s, stored))))
    ensures c.Anonymous? ==> (CheckCreateAll(s, c, p).Ok? <==> PayloadEnterprises(s, p) == {})
  {
    if c.Anonymous? && PayloadEnterprises(s, p) != {} {
      var e :| e in PayloadEnterprises(s, p);
      assert !WriteRole(RoleIn(s, c, Some(e)));
    }
    if CheckUpdateAll(s, c, p, stored).Ok? && EnterpriseOf(s, stored).Some? {
      assert EnterpriseOf(s, stored).value in OptSet(EnterpriseOf(s, stored));
    }
  }

  // ----- a request against one object: get_object, then the check, then the effect -----

  /**
   * `get_object`'s query set: the object is an alive row of a viewset's scoped collection. Species
   * have a list route only, and memberships and breeding types no route at all.
   */
  predicate Visible(s: Store, u: UserId, o: Obj) {
    var scope := ScopeIds(s, u);
    match o
    case EnterpriseObj(id) =>
      Find(s.enterprises, id).Some? && !Find(s.enterprises, id).value.isDeleted &&
      (Find(s.enterprises, id).value.data.owner == u || HasAliveMembership(s, u, id))
    case FarmObj(id) => Find(s.farms, id).Some? && FarmKept(s, scope, FarmQuery(None), Find(s.farms, id).value)
    case UnitObj(id) => Find(s.units, id).Some? && UnitKept(s, scope, UnitQuery(None, None), Find(s.units, id).value)
    case LotObj(id) => Find(s.lots, id).Some? && LotKept(s, scope, LotQuery(None, None, None, None), Find(s.lots, id).value)
    case DailyRecordObj(id) =>
      Find(s.records, id).Some? && RecordKept(s, scope, RecordQuery(None, None, None), Find(s.records, id).value)
    case HealthEventObj(id) => Find(s.healthEvents, id).Some? && HealthKept(s, scope, None, Find(s.healthEvents, id).value)
    case ReproductionEventObj(id) =>
      Find(s.reproductionEvents, id).Some? && ReproductionKept(s, scope, None, Find(s.reproductionEvents, id).value)
    case FinancialEntryObj(id) => Find(s.entries, id).Some? && EntryKept(s, scope, EntryQuery(None, None), Find(s.entries, id).value)
    case StockItemObj(id) => Find(s.stockItems, id).Some? && StockItemKept(s, scope, None, Find(s.stockItems, id).value)
    case StockMovementObj(id) =>
      Find(s.movements, id).Some? && MovementKept(s, scope, MovementQuery(None, None), Find(s.movements, id).value)
    case _ => false
  }

  /** Retrieval: authentication, then the scoped lookup (404), then the object permission (403). */
  function GetObject(s: Store, c: Caller, o: Obj): (r: Result<(), ApiError>)
    ensures r.Ok? <==> c.Authenticated? && Visible(s, c.user, o) && HasObjectPermission(s, c, o)
    ensures c.Anonymous? ==> r == Err(NotAuthenticated)
    ensures c.Authenticated? && !Visible(s, c.user, o) ==> r == Err(NotFound)
    ensures c.Authenticated? && Visible(s, c.user, o) && !HasObjectPermission(s, c, o) ==> r == Err(PermissionDenied)
  {
    if !HasPermission(c) then Err(NotAuthenticated)
    else if !Visible(s, c.user, o) then Err(NotFound)
    else if !HasObjectPermission(s, c, o) then Err(PermissionDenied)
    else Ok(())
  }

  /** DELETE on one object: `get_object`, then `perform_destroy`'s check. */
  function DestroyDecision(s: Store, c: Caller, o: Obj): (r: Result<(), ApiError>)
    ensures r.Ok? <==> GetObject(s, c, o).Ok? && CheckDestroy(s, c, o).Ok?
    ensures GetObject(s, c, o).Err? ==> r == GetObject(s, c, o)
    ensures r.Err? ==> r.error != ServerError && r.error != BadRequest
  {
    match GetObject(s, c, o)
    case Err(err) => Err(err)
    case Ok(_) => CheckDestroy(s, c, o)
  }

  /**
   * A delete goes through iff the caller is authenticated, sees the object, the object resolves
   * to an enterprise, and the caller is its owner or an admin there; members with the `user` role
   * get a 403.
   */
  lemma DestroyIff(s: Store, c: Caller, o: Obj)
    ensures DestroyDecision(s, c, o).Ok? <==>
      c.Authenticated? && Visible(s, c.user, o) && EnterpriseOf(s, o).Some? && WriteRole(RoleIn(s, c, EnterpriseOf(s, o)))
    ensures c.Anonymous? ==> DestroyDecision(s, c, o) == Err(NotAuthenticated)
    ensures c.Authenticated? && !Visible(s, c.user, o) ==> DestroyDecision(s, c, o) == Err(NotFound)
    ensures c.Authenticated? && Visible(s, c.user, o) && RoleIn(s, c, EnterpriseOf(s, o)) == Some(User) ==>
      DestroyDecision(s, c, o) == Err(PermissionDenied)
  {
  }

  /**
   * Since an enterprise resolves to no enterprise, its object permission always fails: no caller
   * ever deletes an enterprise, its owner included.
   */
  lemma EnterpriseNeverDestroyed(s: Store, c: Caller, e: Id)
    ensures DestroyDecision(s, c, EnterpriseObj(e)).Err?
    ensures c.Authenticated? && Visible(s, c.user, EnterpriseObj(e)) ==> DestroyDecision(s, c, EnterpriseObj(e)) == Err(PermissionDenied)
  {
  }

  /**
   * PUT/PATCH on one object: `get_object`, payload validation (400), then the write check;
   * the check is the corrected one, which also protects the stored object's enterprise.
   */
  function UpdateDecision(s: Store, c: Caller, o: Obj, p: Payload): (r: Result<(), ApiError>)
    ensures r.Ok? <==> GetObject(s, c, o).Ok? && PayloadValid(s, p) && CheckUpdateAll(s, c, p, o).Ok?
    ensures GetObject(s, c, o).Err? ==> r == GetObject(s, c, o)
    ensures GetObject(s, c, o).Ok? && !PayloadValid(s, p) ==> r == Err(BadRequest)
    ensures r.Err? ==> r.error != ServerError
  {
    match GetObject(s, c, o)
    case Err(err) => Err(err)
    case Ok(_) => if !PayloadValid(s, p) then Err(BadRequest) else CheckUpdateAll(s, c, p, o)
  }

  /** POST to a collection: authentication, payload validation (400), then the corrected create check. */
  function CreateDecision(s: Store, c: Caller, p: Payload): (r: Result<(), ApiError>)
    ensures r.Ok? <==> c.Authenticated? && PayloadValid(s, p) && CheckCreateAll(s, c, p).Ok?
    ensures c.Anonymous? ==> r == Err(NotAuthenticated)
    ensures c.Authenticated? && !PayloadValid(s, p) ==> r == Err(BadRequest)
    ensures r.Err? ==> r.error != ServerError
  {
    if !HasPermission(c) then Err(NotAuthenticated)
    else if !PayloadValid(s, p) then Err(BadRequest)
    else CheckCreateAll(s, c, p)
  }

  /**
   * An accepted update came from a caller who sees the object and may write both where it is and
   * where the payload puts it; an accepted create names only alive parents the caller may write in.
   */
  lemma AcceptedWritesAreAuthorized(s: Store, c: Caller, o: Obj, p: Payload)
    ensures UpdateDecision(s, c, o, p).Ok? ==>
      c.Authenticated? && Visible(s, c.user, o) && HasObjectPermission(s, c, o) && PayloadValid(s, p) &&
      WriteRole(RoleIn(s, c, EnterpriseOf(s, o))) && WritableAll(s, c, PayloadEnterprises(s, p))
    ensures CreateDecision(s, c, p).Ok? <==>
      c.Authenticated? && PayloadValid(s, p) && WritableAll(s, c, PayloadEnterprises(s, p))
  {
    if UpdateDecision(s, c, o, p).Ok? {
      assert EnterpriseOf(s, o).value in PayloadEnterprises(s, p) + OptSet(EnterpriseOf(s, o));
    }
  }

  // ----- the effect of a delete: instance.delete() on the one stored row -----

  /** `instance.delete()` on the object's row; species and breeding types are not soft-deletable. */
  function SoftDeleteObj(s: Store, o: Obj, now: Time): Store {
    match o
    case EnterpriseObj(id) => s.(enterprises := DeleteById(s.enterprises, id, now))
    case FarmObj(id) => s.(farms := DeleteById(s.farms, id, now))
    case MembershipObj(id) => s.(memberships := DeleteById(s.memberships, id, now))
    case UnitObj(id) => s.(units := DeleteById(s.units, id, now))
    case LotObj(id) => s.(lots := DeleteById(s.lots, id, now))
    case DailyRecordObj(id) => s.(records := DeleteById(s.records, id, now))
    case HealthEventObj(id) => s.(healthEvents := DeleteById(s.healthEvents, id, now))
    case ReproductionEventObj(id) => s.(reproductionEvents := DeleteById(s.reproductionEvents, id, now))
    case FinancialEntryObj(id) => s.(entries := DeleteById(s.entries, id, now))
    case StockItemObj(id) => s.(stockItems := DeleteById(s.stockItems, id, now))
    case StockMovementObj(id) => s.(movements := DeleteById(s.movements, id, now))
    case SpeciesObj(_) => s
    case BreedingTypeObj(_) => s
  }

  /** The object's row is stored and alive (species and breeding types have no flag). */
  predicate AliveObj(s: Store, o: Obj) {
    match o
    case EnterpriseObj(id) => Find(s.enterprises, id).Some? && !Find(s.enterprises, id).value.isDeleted
    case FarmObj(id) => Find(s.farms, id).Some? && !Find(s.farms, id).value.isDeleted
    case MembershipObj(id) => Find(s.memberships, id).Some? && !Find(s.memberships, id).value.isDeleted
    case UnitObj(id) => Find(s.units, id).Some? && !Find(s.units, id).value.isDeleted
    case LotObj(id) => Find(s.lots, id).Some? && !Find(s.lots, id).value.isDeleted
    case DailyRecordObj(id) => Find(s.records, id).Some? && !Find(s.records, id).value.isDeleted
    case HealthEventObj(id) => Find(s.healthEvents, id).Some? && !Find(s.healthEvents, id).value.isDeleted
    case ReproductionEventObj(id) => Find(s.reproductionEvents, id).Some? && !Find(s.reproductionEvents, id).value.isDeleted
    case FinancialEntryObj(id) => Find(s.entries, id).Some? && !Find(s.entries, id).value.isDeleted
    case StockItemObj(id) => Find(s.stockItems, id).Some? && !Find(s.stockItems, id).value.isDeleted
    case StockMovementObj(id) => Find(s.movements, id).Some? && !Find(s.movements, id).value.isDeleted
    case SpeciesObj(id) => id in SpeciesIds(s.species)
    case BreedingTypeObj(id) => id in BreedingTypeIds(s.breedingTypes)
  }

  /** The kinds that carry the soft-delete flag. */
  predicate SoftDeletable(o: Obj) {
    !o.SpeciesObj? && !o.BreedingTypeObj?
  }

  /** Two stores that differ at most in stamps and soft-delete flags. */
  ghost predicate SameStoreShape(s2: Store, s: Store) {
    s2.breedingTypes == s.breedingTypes && s2.species == s.species &&
    SameShape(s2.enterprises, s.enterprises) &&
    SameShape(s2.farms, s.farms) &&
    SameShape(s2.memberships, s.memberships) &&
    SameShape(s2.units, s.units) &&
    SameShape(s2.lots, s.lots) &&
    SameShape(s2.records, s.records) &&
    SameShape(s2.healthEvents, s.healthEvents) &&
    SameShape(s2.reproductionEvents, s.reproductionEvents) &&
    SameShape(s2.entries, s.entries) &&
    SameShape(s2.stockItems, s.stockItems) &&
    SameShape(s2.movements, s.movements)
  }

  /** Changing flags only keeps the key sets and the distinctness of keys. */
  lemma SameStoreShapeKeepsKeys(s2: Store, s: Store)
    requires SameStoreShape(s2, s) && KeysDistinct(s)
    ensures KeysDistinct(s2)
    ensures Ids(s2.enterprises) == Ids(s.enterprises) && Ids(s2.farms) == Ids(s.farms)
    ensures Ids(s2.units) == Ids(s.units) && Ids(s2.lots) == Ids(s.lots) && Ids(s2.stockItems) == Ids(s.stockItems)
  {
    SameShapeKeeps(s2.enterprises, s.enterprises, (x: Enterprise) => 0);
    SameShapeKeeps(s2.farms, s.farms, (x: Farm) => 0);
    SameShapeKeeps(s2.memberships, s.memberships, MembershipKey);
    SameShapeKeeps(s2.units, s.units, (x: Unit) => 0);
    SameShapeKeeps(s2.lots, s.lots, LotKey);
    SameShapeKeeps(s2.records, s.records, RecordKey);
    SameShapeKeeps(s2.healthEvents, s.healthEvents, (x: HealthEvent) => 0);
    SameShapeKeeps(s2.reproductionEvents, s.reproductionEvents, (x: ReproductionEvent) => 0);
    SameShapeKeeps(s2.entries, s.entries, (x: FinancialEntry) => 0);
    SameShapeKeeps(s2.stockItems, s.stockItems, StockItemKey);
    SameShapeKeeps(s2.movements, s.movements, (x: StockMovement) => 0);
  }

  /** Changing flags only keeps every uniqueness constraint. */
  lemma SameStoreShapeKeepsUnique(s2: Store, s: Store)
    requires SameStoreShape(s2, s) && KeysDistinct(s) && UniqueOk(s)
    ensures UniqueOk(s2)
  {
    SameShapeKeeps(s2.memberships, s.memberships, MembershipKey);
    SameShapeKeeps(s2.lots, s.lots, LotKey);
    SameShapeKeeps(s2.records, s.records, RecordKey);
    SameShapeKeeps(s2.stockItems, s.stockItems, StockItemKey);
  }

  /** Changing flags only keeps every foreign key pointing at a stored row. */
  lemma SameStoreShapeKeepsRefs(s2: Store, s: Store)
    requires SameStoreShape(s2, s) && KeysDistinct(s) && RefsOk(s) && EventRefsOk(s)
    ensures RefsOk(s2) && EventRefsOk(s2)
  {
    SameStoreShapeKeepsKeys(s2, s);
  }

  /** Changing flags only keeps every schema guarantee of the store. */
  lemma SameStoreShapeKeepsValid(s2: Store, s: Store)
    requires SameStoreShape(s2, s) && Valid(s) && EventRefsOk(s)
    ensures Valid(s2) && EventRefsOk(s2)
  {
    SameStoreShapeKeepsKeys(s2, s);
    SameStoreShapeKeepsUnique(s2, s);
    SameStoreShapeKeepsRefs(s2, s);
  }

  /** A soft delete changes at most the stamps and flag of one row. */
  lemma SoftDeleteShape(s: Store, o: Obj, now: Time)
    requires KeysDistinct(s)
    ensures SameStoreShape(SoftDeleteObj(s, o, now), s)
  {
    match o {
      case EnterpriseObj(id) => DeleteByIdShape(s.enterprises, id, now);
      case FarmObj(id) => DeleteByIdShape(s.farms, id, now);
      case MembershipObj(id) => DeleteByIdShape(s.memberships, id, now);
      case UnitObj(id) => DeleteByIdShape(s.units, id, now);
      case LotObj(id) => DeleteByIdShape(s.lots, id, now);
      case DailyRecordObj(id) => DeleteByIdShape(s.records, id, now);
      case HealthEventObj(id) => DeleteByIdShape(s.healthEvents, id, now);
      case ReproductionEventObj(id) => DeleteByIdShape(s.reproductionEvents, id, now);
      case FinancialEntryObj(id) => DeleteByIdShape(s.entries, id, now);
      case StockItemObj(id) => DeleteByIdShape(s.stockItems, id, now);
      case StockMovementObj(id) => DeleteByIdShape(s.movements, id, now);
      case _ =>
    }
  }

  /** The effect of a delete keeps the store consistent. */
  lemma SoftDeleteKeepsValid(s: Store, o: Obj, now: Time)
    requires Valid(s) && EventRefsOk(s)
    ensures Valid(SoftDeleteObj(s, o, now)) && EventRefsOk(SoftDeleteObj(s, o, now))
  {
    SoftDeleteShape(s, o, now);
    SameStoreShapeKeepsValid(SoftDeleteObj(s, o, now), s);
  }

  /**
   * A delete touches only the receiving table: every other table is unchanged, so the children
   * of a deleted parent stay exactly as they were.
   */
  lemma SoftDeleteSparesOtherTables(s: Store, o: Obj, now: Time)
    ensures !o.EnterpriseObj? ==> SoftDeleteObj(s, o, now).enterprises == s.enterprises
    ensures !o.FarmObj? ==> SoftDeleteObj(s, o, now).farms == s.farms
    ensures !o.MembershipObj? ==> SoftDeleteObj(s, o, now).memberships == s.memberships
    ensures !o.UnitObj? ==> SoftDeleteObj(s, o, now).units == s.units
    ensures !o.LotObj? ==> SoftDeleteObj(s, o, now).lots == s.lots
    ensures !o.DailyRecordObj? ==> SoftDeleteObj(s, o, now).records == s.records
    ensures !o.HealthEventObj? ==> SoftDeleteObj(s, o, now).healthEvents == s.healthEvents
    ensures !o.ReproductionEventObj? ==> SoftDeleteObj(s, o, now).reproductionEvents == s.reproductionEvents
    ensures !o.FinancialEntryObj? ==> SoftDeleteObj(s, o, now).entries == s.entries
    ensures !o.StockItemObj? ==> SoftDeleteObj(s, o, now).stockItems == s.stockItems
    ensures !o.StockMovementObj? ==> SoftDeleteObj(s, o, now).movements == s.movements
    ensures SoftDeleteObj(s, o, now).species == s.species && SoftDeleteObj(s, o, now).breedingTypes == s.breedingTypes
  {
  }

  /** Within its table, the receiving row stays stored but is no longer alive. */
  lemma SoftDeleteHidesRow(s: Store, o: Obj, now: Time)
    requires KeysDistinct(s) && Stored(s, o) && SoftDeletable(o)
    ensures Stored(SoftDeleteObj(s, o, now), o) && !AliveObj(SoftDeleteObj(s, o, now), o)
  {
    match o {
      case EnterpriseObj(id) => DeleteByIdEffect(s.enterprises, id, now);
      case FarmObj(id) => DeleteByIdEffect(s.farms, id, now);
      case MembershipObj(id) => DeleteByIdEffect(s.memberships, id, now);
      case UnitObj(id) => DeleteByIdEffect(s.units, id, now);
      case LotObj(id) => DeleteByIdEffect(s.lots, id, now);
      case DailyRecordObj(id) => DeleteByIdEffect(s.records, id, now);
      case HealthEventObj(id) => DeleteByIdEffect(s.healthEvents, id, now);
      case ReproductionEventObj(id) => DeleteByIdEffect(s.reproductionEvents, id, now);
      case FinancialEntryObj(id) => DeleteByIdEffect(s.entries, id, now);
      case StockItemObj(id) => DeleteByIdEffect(s.stockItems, id, now);
      case StockMovementObj(id) => DeleteByIdEffect(s.movements, id, now);
    }
  }
}
