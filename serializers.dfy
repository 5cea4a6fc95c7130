/**
 * The serializers' own logic: `LotSerializer.validate`, the owner membership that
 * `EnterpriseSerializer.create` adds, the stock ledger that `StockMovementSerializer.create`
 * keeps, and the writable and read-only field sets of every serializer.
 */
module Serializers {
  import opened Wrappers
  import opened Seqs
  import opened SoftDelete
  import opened Tenancy
  import opened Permissions

  /** Why a payload is refused before it is saved (HTTP 400), or why the database refuses the save. */
  datatype ValidationError = Required | DoesNotExist | BreedingTypeMismatch | IntegrityError

  // ----- LotSerializer.validate -----

  /** The `unit` and `species` keys of a lot payload; None when the key is absent. */
  datatype LotAttrs = LotAttrs(unit: Option<Id>, species: Option<Id>)

  function UnitBreedingType(s: Store, unit: Id): Option<Id> {
    match Find(s.units, unit)
    case None => None
    case Some(u) => Some(u.data.breedingType)
  }

  function SpeciesBreedingType(s: Store, sp: Id): Option<Id> {
    match FindSpecies(s.species, sp)
    case None => None
    case Some(x) => Some(x.breedingType)
  }

  /** The payload's unit, else the unit of the lot being updated. */
  function ChosenUnit(a: LotAttrs, instance: Option<Lot>): Option<Id> {
    if a.unit.Some? then a.unit else if instance.Some? then Some(instance.value.unit) else None
  }

  /** The payload's species, else the species of the lot being updated. */
  function ChosenSpecies(a: LotAttrs, instance: Option<Lot>): Option<Id> {
    if a.species.Some? then a.species else if instance.Some? then Some(instance.value.species) else None
  }

  /** Both a unit and a species are at hand, both carry a breeding type, and the two differ. */
  predicate BreedingTypesClash(s: Store, unit: Option<Id>, sp: Option<Id>) {
    && unit.Some? && sp.Some?
    && UnitBreedingType(s, unit.value).Some? && SpeciesBreedingType(s, sp.value).Some?
    && UnitBreedingType(s, unit.value) != SpeciesBreedingType(s, sp.value)
  }

  /**
   * Field validation of a lot payload followed by `validate`: on a full write (create or PUT)
   * both keys are required; a given unit must be alive and a given species must exist; then the
   * unit and species, each falling back to the instance's, must not have different breeding types.
   */
  function LotValidate(s: Store, a: LotAttrs, instance: Option<Lot>, partial: bool): Result<LotAttrs, ValidationError> {
    if !partial && (a.unit.None? || a.species.None?) then Err(Required)
    else if a.unit.Some? && !AliveKey(s.units, a.unit.value) then Err(DoesNotExist)
    else if a.species.Some? && a.species.value !in SpeciesIds(s.species) then Err(DoesNotExist)
    else if BreedingTypesClash(s, ChosenUnit(a, instance), ChosenSpecies(a, instance)) then Err(BreedingTypeMismatch)
    else Ok(a)
  }

  /** Whether the keys a lot payload gives pass field validation. */
  predicate LotFieldsOk(s: Store, a: LotAttrs, partial: bool) {
    && (partial || (a.unit.Some? && a.species.Some?))
    && (a.unit.Some? ==> AliveKey(s.units, a.unit.value))
    && (a.species.Some? ==> a.species.value in SpeciesIds(s.species))
  }

  /**
   * The breeding-type check refuses a payload whose fields are valid exactly when the chosen
   * unit's and species' breeding types differ; a payload that passes comes back as it was.
   */
  lemma LotValidateIff(s: Store, a: LotAttrs, instance: Option<Lot>, partial: bool)
    ensures LotValidate(s, a, instance, partial) == Err(BreedingTypeMismatch) <==>
      LotFieldsOk(s, a, partial) && BreedingTypesClash(s, ChosenUnit(a, instance), ChosenSpecies(a, instance))
    ensures LotValidate(s, a, instance, partial).Ok? <==>
      LotFieldsOk(s, a, partial) && !BreedingTypesClash(s, ChosenUnit(a, instance), ChosenSpecies(a, instance))
    ensures LotValidate(s, a, instance, partial).Ok? ==> LotValidate(s, a, instance, partial).value == a
  {
  }

  /** A lot accepted on create names an alive unit and a species of the same breeding type. */
  lemma CreatedLotIsConsistent(s: Store, a: LotAttrs)
    requires LotValidate(s, a, None, false).Ok?
    ensures a.unit.Some? && a.species.Some? && AliveKey(s.units, a.unit.value)
    ensures UnitBreedingType(s, a.unit.value).Some?
    ensures UnitBreedingType(s, a.unit.value) == SpeciesBreedingType(s, a.species.value)
  {
    assert FindSpecies(s.species, a.species.value).Some?;
  }

  /** A partial update that changes only the species is checked against the stored lot's unit. */
  lemma SpeciesOnlyUpdateUsesStoredUnit(s: Store, sp: Id, l: Lot)
    requires sp in SpeciesIds(s.species) && l.unit in Ids(s.units)
    ensures LotValidate(s, LotAttrs(None, Some(sp)), Some(l), true).Err? <==>
      UnitBreedingType(s, l.unit) != SpeciesBreedingType(s, sp)
  {
    assert FindSpecies(s.species, sp).Some?;
  }

  // ----- EnterpriseSerializer.create -----

  /** Whether any membership row, alive or soft-deleted, has the key (u, e). */
  predicate HasMembershipKey(ms: seq<Row<Membership>>, u: UserId, e: Id) {
    exists i | 0 <= i < |ms| :: ms[i].data.user == u && ms[i].data.enterprise == e
  }

  /**
   * `Membership.objects.get_or_create(user=u, enterprise=e, defaults={'role': role})`: the lookup
   * goes through the alive-only manager, so an alive row is kept as it is; when only a
   * soft-deleted row has the key, the insert breaks `unique_together`.
   */
  function GetOrCreateMembership(s: Store, u: UserId, e: Id, role: Role, id: Id, now: Time): Result<Store, ValidationError> {
    if HasAliveMembership(s, u, e) then Ok(s)
    else if HasMembershipKey(s.memberships, u, e) then Err(IntegrityError)
    else Ok(s.(memberships := s.memberships + [NewRow(id, now, Membership(u, e, role))]))
  }

  /**
   * After `get_or_create` the caller has an alive membership; an existing one is left untouched
   * (its role is not overwritten); the call fails only when a soft-deleted row blocks the key;
   * and no other table changes.
   */
  lemma GetOrCreateEffect(s: Store, u: UserId, e: Id, role: Role, id: Id, now: Time)
    ensures GetOrCreateMembership(s, u, e, role, id, now).Err? <==>
      !HasAliveMembership(s, u, e) && HasMembershipKey(s.memberships, u, e)
    ensures GetOrCreateMembership(s, u, e, role, id, now).Ok? ==>
      HasAliveMembership(GetOrCreateMembership(s, u, e, role, id, now).value, u, e)
    ensures HasAliveMembership(s, u, e) ==> GetOrCreateMembership(s, u, e, role, id, now) == Ok(s)
    ensures GetOrCreateMembership(s, u, e, role, id, now).Ok? ==>
      GetOrCreateMembership(s, u, e, role, id, now).value.(memberships := s.memberships) == s
  {
    if !HasAliveMembership(s, u, e) && !HasMembershipKey(s.memberships, u, e) {
      var ms := s.memberships + [NewRow(id, now, Membership(u, e, role))];
      assert !ms[|s.memberships|].isDeleted && ms[|s.memberships|].data.user == u;
    }
  }

  /** A second `get_or_create` with the same key changes nothing. */
  lemma GetOrCreateIdempotent(s: Store, u: UserId, e: Id, role: Role, id1: Id, id2: Id, t1: Time, t2: Time)
    requires GetOrCreateMembership(s, u, e, role, id1, t1).Ok?
    ensures GetOrCreateMembership(GetOrCreateMembership(s, u, e, role, id1, t1).value, u, e, role, id2, t2) ==
      GetOrCreateMembership(s, u, e, role, id1, t1)
  {
    GetOrCreateEffect(s, u, e, role, id1, t1);
  }

  /** The enterprise row `super().create` inserts, owned by the requesting user. */
  function InsertEnterprise(s: Store, owner: UserId, name: string, id: Id, now: Time): Store {
    s.(enterprises := s.enterprises + [NewRow(id, now, Enterprise(name, owner))])
  }

  /** `EnterpriseSerializer.create`: the requesting user becomes the owner and gets an owner membership. */
  function CreateEnterprise(s: Store, owner: UserId, name: string, entId: Id, memId: Id, now: Time): Result<Store, ValidationError> {
    GetOrCreateMembership(InsertEnterprise(s, owner, name, entId, now), owner, entId, Owner, memId, now)
  }

  /** The membership rows for the key (u, e). */
  function MembershipsFor(ms: seq<Row<Membership>>, u: UserId, e: Id): seq<Row<Membership>> {
    Filter(ms, (r: Row<Membership>) => r.data.user == u && r.data.enterprise == e)
  }

  /**
   * Creating an enterprise under fresh keys always succeeds: the caller owns the new enterprise,
   * its role there is `owner`, and exactly one membership row exists for (owner, enterprise):
   * an alive one with role `owner`.
   */
  lemma CreateEnterpriseOwns(s: Store, owner: UserId, name: string, entId: Id, memId: Id, now: Time)
    requires RefsOk(s) && DistinctIds(s.enterprises) && entId !in Ids(s.enterprises)
    ensures CreateEnterprise(s, owner, name, entId, memId, now).Ok?
    ensures RoleIn(CreateEnterprise(s, owner, name, entId, memId, now).value, Authenticated(owner), Some(entId)) == Some(Owner)
    ensures MembershipsFor(CreateEnterprise(s, owner, name, entId, memId, now).value.memberships, owner, entId) ==
      [NewRow(memId, now, Membership(owner, entId, Owner))]
  {
    var s1 := InsertEnterprise(s, owner, name, entId, now);
    var row := NewRow(memId, now, Membership(owner, entId, Owner));
    var p := (r: Row<Membership>) => r.data.user == owner && r.data.enterprise == entId;
    assert !HasMembershipKey(s1.memberships, owner, entId) by {
      forall i | 0 <= i < |s.memberships| ensures s.memberships[i].data.enterprise != entId {
        assert s.memberships[i].data.enterprise in Ids(s.enterprises);
      }
    }
    var s2 := s1.(memberships := s.memberships + [row]);
    assert CreateEnterprise(s, owner, name, entId, memId, now) == Ok(s2);
    FilterAppend(s.memberships, [row], p);
    FilterNone(s.memberships, p);
    assert IsOwner(s2, owner, entId) by {
      AppendRowShape(s.enterprises, NewRow(entId, now, Enterprise(name, owner)));
      FindAt(s2.enterprises, |s.enterprises|);
    }
  }

  /** A new enterprise and its owner membership, under fresh keys, keep the store consistent. */
  lemma CreateEnterpriseKeepsValid(s: Store, owner: UserId, name: string, entId: Id, memId: Id, now: Time)
    requires Valid(s) && EventRefsOk(s) && entId !in Ids(s.enterprises) && memId !in Ids(s.memberships)
    ensures CreateEnterprise(s, owner, name, entId, memId, now).Ok?
    ensures Valid(CreateEnterprise(s, owner, name, entId, memId, now).value)
    ensures EventRefsOk(CreateEnterprise(s, owner, name, entId, memId, now).value)
  {
    CreateEnterpriseOwns(s, owner, name, entId, memId, now);
    var erow := NewRow(entId, now, Enterprise(name, owner));
    var row := NewRow(memId, now, Membership(owner, entId, Owner));
    AppendEnterpriseKeepsValid(s, erow);
    var s1 := s.(enterprises := s.enterprises + [erow]);
    AppendOwnerMembershipKeepsValid(s1, row, entId);
    assert CreateEnterprise(s, owner, name, entId, memId, now).value == s1.(memberships := s.memberships + [row]);
  }

  /** Appending an enterprise under a fresh key keeps the store consistent and adds its key. */
  lemma AppendEnterpriseKeepsValid(s: Store, erow: Row<Enterprise>)
    requires Valid(s) && EventRefsOk(s) && erow.id !in Ids(s.enterprises)
    ensures Valid(s.(enterprises := s.enterprises + [erow]))
    ensures EventRefsOk(s.(enterprises := s.enterprises + [erow]))
    ensures Ids(s.enterprises + [erow]) == Ids(s.enterprises) + {erow.id}
  {
    AppendRowShape(s.enterprises, erow);
  }

  /**
   * Appending a membership under a fresh key, for an enterprise that no membership names yet,
   * keeps the store consistent.
   */
  lemma AppendOwnerMembershipKeepsValid(s: Store, row: Row<Membership>, e: Id)
    requires Valid(s) && EventRefsOk(s) && row.id !in Ids(s.memberships)
    requires row.data.enterprise == e && e in Ids(s.enterprises)
    requires forall i :: 0 <= i < |s.memberships| ==> s.memberships[i].data.enterprise != e
    ensures Valid(s.(memberships := s.memberships + [row]))
    ensures EventRefsOk(s.(memberships := s.memberships + [row]))
  {
    AppendRowShape(s.memberships, row);
    AppendKeepsUnique(s.memberships, row, MembershipKey);
    var ms := s.memberships + [row];
    forall i | 0 <= i < |ms| ensures ms[i].data.enterprise in Ids(s.enterprises) {
      if i < |s.memberships| {
        assert ms[i] == s.memberships[i];
      }
    }
  }

  // ----- the stock ledger of StockMovementSerializer.create -----

  predicate IsInbound(m: StockMovement) { m.movementType == In }
  predicate IsOutbound(m: StockMovement) { m.movementType != In }
  function Quantity(m: StockMovement): real { m.quantity }

  /** The new quantity of the stock item after one movement: `in` adds, anything else subtracts, with no floor. */
  function ApplyMovement(q: real, m: StockMovement): real {
    if m.movementType == In then q + m.quantity else q - m.quantity
  }

  /** The quantity after creating the movements of `ms` in turn. */
  function ApplyAll(q: real, ms: seq<StockMovement>): real
    decreases |ms|
  {
    if ms == [] then q else ApplyAll(ApplyMovement(q, ms[0]), ms[1..])
  }

  /** The total of inbound and the total of outbound quantities. */
  function Inbound(ms: seq<StockMovement>): real { SumReal(Filter(ms, IsInbound), Quantity) }
  function Outbound(ms: seq<StockMovement>): real { SumReal(Filter(ms, IsOutbound), Quantity) }

  /** The signed contribution of one movement. */
  function Signed(m: StockMovement): real { if m.movementType == In then m.quantity else -m.quantity }

  /** The ledger: the stored quantity plus everything that came in minus everything that went out. */
  lemma {:induction false} LedgerBalance(q: real, ms: seq<StockMovement>)
    ensures ApplyAll(q, ms) == q + Inbound(ms) - Outbound(ms)
    decreases |ms|
  {
    if ms != [] {
      LedgerBalance(ApplyMovement(q, ms[0]), ms[1..]);
    }
  }

  lemma {:induction false} LedgerSigned(q: real, ms: seq<StockMovement>)
    ensures ApplyAll(q, ms) == q + SumReal(ms, Signed)
    decreases |ms|
  {
    if ms != [] {
      LedgerSigned(ApplyMovement(q, ms[0]), ms[1..]);
    }
  }

  /** The final quantity does not depend on the order in which the movements are created. */
  lemma LedgerOrderIndependent(q: real, a: seq<StockMovement>, b: seq<StockMovement>)
    requires multiset(a) == multiset(b)
    ensures ApplyAll(q, a) == ApplyAll(q, b)
  {
    LedgerSigned(q, a);
    LedgerSigned(q, b);
    SumRealPermutation(a, b, Signed);
  }

  /** Movements compose: creating `a` then `b` is creating `a + b`. */
  lemma {:induction false} LedgerAppend(q: real, a: seq<StockMovement>, b: seq<StockMovement>)
    ensures ApplyAll(ApplyAll(q, a), b) == ApplyAll(q, a + b)
    decreases |a|
  {
    if a != [] {
      assert (a + b)[1..] == a[1..] + b;
      LedgerAppend(ApplyMovement(q, a[0]), a[1..], b);
    } else {
      assert a + b == b;
    }
  }

  /** An item holding 10 that takes an `out` of 3 holds 7; an `out` larger than the stock drives it negative. */
  lemma LedgerExamples(item: Id, d: Date)
    ensures ApplyMovement(10.0, StockMovement(item, Out, 3.0, d, None, "test")) == 7.0
    ensures ApplyMovement(1.0, StockMovement(item, Out, 3.0, d, None, "")) < 0.0
  {
  }

  /** The stock item row after the quantity update; `update_fields=['quantity']` leaves `updated_at` alone. */
  function Restocked(it: Row<StockItem>, m: StockMovement): Row<StockItem> {
    it.(data := it.data.(quantity := ApplyMovement(it.data.quantity, m)))
  }

  /** Inserts the movement row and rewrites the linked item's quantity. */
  function RecordMovement(s: Store, m: StockMovement, id: Id, now: Time): Store
    requires m.stockItem in Ids(s.stockItems)
  {
    s.(movements := s.movements + [NewRow(id, now, m)],
       stockItems := SaveRow(s.stockItems, Restocked(Find(s.stockItems, m.stockItem).value, m)))
  }

  /**
   * `StockMovementSerializer.create`: the payload's stock item and lot (when given) must be alive;
   * then the movement is saved and the stock item's quantity moved by it.
   */
  function CreateMovement(s: Store, m: StockMovement, id: Id, now: Time): Result<Store, ValidationError> {
    if !AliveKey(s.stockItems, m.stockItem) then Err(DoesNotExist)
    else if m.lot.Some? && !AliveKey(s.lots, m.lot.value) then Err(DoesNotExist)
    else Ok(RecordMovement(s, m, id, now))
  }

  /**
   * A created movement is appended, the linked item's quantity (and nothing else of it) moves by
   * the movement, every other item and every other table is as it was; a dangling reference
   * is refused and changes nothing.
   */
  lemma CreateMovementEffect(s: Store, m: StockMovement, id: Id, now: Time)
    requires DistinctIds(s.stockItems)
    ensures CreateMovement(s, m, id, now).Ok? <==>
      AliveKey(s.stockItems, m.stockItem) && (m.lot.Some? ==> AliveKey(s.lots, m.lot.value))
    ensures CreateMovement(s, m, id, now).Ok? ==>
      var s2 := CreateMovement(s, m, id, now).value;
      && s2.movements == s.movements + [NewRow(id, now, m)]
      && |s2.stockItems| == |s.stockItems|
      && (forall i :: 0 <= i < |s.stockItems| ==>
            s2.stockItems[i] == (if s.stockItems[i].id == m.stockItem then Restocked(s.stockItems[i], m) else s.stockItems[i]))
      && s2.(movements := s.movements, stockItems := s.stockItems) == s
  {
    if CreateMovement(s, m, id, now).Ok? {
      var k := IndexOf(s.stockItems, m.stockItem);
      FindAt(s.stockItems, k);
      SaveRowShape(s.stockItems, Restocked(s.stockItems[k], m));
    }
  }

  /** The quantity the item with key `item` holds, when stored. */
  function ItemQuantity(s: Store, item: Id): Option<real> {
    match Find(s.stockItems, item)
    case None => None
    case Some(r) => Some(r.data.quantity)
  }

  /** After a created movement the item's stored quantity is the ledger's next balance. */
  lemma CreateMovementMovesQuantity(s: Store, m: StockMovement, id: Id, now: Time)
    requires DistinctIds(s.stockItems) && CreateMovement(s, m, id, now).Ok?
    ensures ItemQuantity(CreateMovement(s, m, id, now).value, m.stockItem) ==
      Some(ApplyAll(ItemQuantity(s, m.stockItem).value, [m]))
    ensures forall x :: x != m.stockItem ==> ItemQuantity(CreateMovement(s, m, id, now).value, x) == ItemQuantity(s, x)
  {
    var k := IndexOf(s.stockItems, m.stockItem);
    FindAt(s.stockItems, k);
    var d := Restocked(s.stockItems[k], m);
    SaveRowShape(s.stockItems, d);
    var r := SaveRow(s.stockItems, d);
    FindAt(r, k);
    forall x | x != m.stockItem ensures Find(r, x) == Find(s.stockItems, x) {
      if x in Ids(s.stockItems) {
        var j := IndexOf(s.stockItems, x);
        FindAt(s.stockItems, j);
        FindAt(r, j);
      }
    }
  }

  /** A created movement under a fresh key keeps the store consistent. */
  lemma CreateMovementKeepsValid(s: Store, m: StockMovement, id: Id, now: Time)
    requires Valid(s) && EventRefsOk(s) && id !in Ids(s.movements) && CreateMovement(s, m, id, now).Ok?
    ensures Valid(CreateMovement(s, m, id, now).value) && EventRefsOk(CreateMovement(s, m, id, now).value)
  {
    var k := IndexOf(s.stockItems, m.stockItem);
    FindAt(s.stockItems, k);
    var d := Restocked(s.stockItems[k], m);
    RestockKeepsValid(s, d);
    var s1 := s.(stockItems := SaveRow(s.stockItems, d));
    AppendMovementKeepsValid(s1, NewRow(id, now, m));
    assert CreateMovement(s, m, id, now).value == s1.(movements := s.movements + [NewRow(id, now, m)]);
  }

  /** Rewriting a stock item without touching its farm or name keeps the store consistent. */
  lemma RestockKeepsValid(s: Store, d: Row<StockItem>)
    requires Valid(s) && EventRefsOk(s) && d.id in Ids(s.stockItems)
    requires StockItemKey(d.data) == StockItemKey(Find(s.stockItems, d.id).value.data)
    ensures Valid(s.(stockItems := SaveRow(s.stockItems, d)))
    ensures EventRefsOk(s.(stockItems := SaveRow(s.stockItems, d)))
    ensures Ids(SaveRow(s.stockItems, d)) == Ids(s.stockItems)
  {
    SaveRowShape(s.stockItems, d);
    SaveRowKeepsUnique(s.stockItems, d, StockItemKey);
    var r := SaveRow(s.stockItems, d);
    forall i | 0 <= i < |r| ensures r[i].data.farm in Ids(s.farms) {
      if s.stockItems[i].id == d.id {
        var x := Find(s.stockItems, d.id).value;
        assert x.data.farm in Ids(s.farms) by {
          var j :| 0 <= j < |s.stockItems| && s.stockItems[j] == x;
        }
      }
    }
  }

  /** Appending a movement under a fresh key whose references are stored keeps the store consistent. */
  lemma AppendMovementKeepsValid(s: Store, row: Row<StockMovement>)
    requires Valid(s) && EventRefsOk(s) && row.id !in Ids(s.movements)
    requires row.data.stockItem in Ids(s.stockItems)
    requires row.data.lot.Some? ==> row.data.lot.value in Ids(s.lots)
    ensures Valid(s.(movements := s.movements + [row])) && EventRefsOk(s.(movements := s.movements + [row]))
  {
    AppendRowShape(s.movements, row);
    var ms := s.movements + [row];
    forall i | 0 <= i < |ms| ensures ms[i].data.stockItem in Ids(s.stockItems) {
      if i < |s.movements| {
        assert ms[i] == s.movements[i];
      }
    }
  }

  // ----- writable and read-only fields -----

  /** The model serializers of the API. */
  datatype Resource =
    | EnterpriseResource | FarmResource | BreedingTypeResource | SpeciesResource | UnitResource | LotResource
    | DailyRecordResource | HealthEventResource | ReproductionEventResource | FinancialEntryResource
    | StockItemResource | StockMovementResource

  /** `Meta.fields` of each serializer. */
  function Fields(r: Resource): seq<string> {
    match r
    case EnterpriseResource => ["id", "name", "owner", "created_at", "updated_at"]
    case FarmResource => ["id", "enterprise", "name", "location", "created_at", "updated_at"]
    case BreedingTypeResource => ["id", "code", "name", "created_at", "updated_at"]
    case SpeciesResource => ["id", "code", "name", "breeding_type", "created_at", "updated_at"]
    case UnitResource => ["id", "farm", "breeding_type", "species", "name", "capacity", "conditions", "created_at", "updated_at"]
    case LotResource =>
      ["id", "unit", "species", "code", "entry_date", "initial_count", "status", "destination", "created_at", "updated_at"]
    case DailyRecordResource =>
      ["id", "lot", "date", "mortality", "feed_intake_kg", "milk_production_l", "eggs_count", "avg_weight_kg",
       "notes", "created_at", "updated_at"]
    case HealthEventResource =>
      ["id", "lot", "date", "event_type", "product", "dose", "veterinarian", "notes", "created_at", "updated_at"]
    case ReproductionEventResource =>
      ["id", "lot", "date", "event_type", "gestation_days", "born_alive", "born_dead", "notes", "created_at", "updated_at"]
    case FinancialEntryResource =>
      ["id", "farm", "lot", "date", "entry_type", "category", "amount", "notes", "created_at", "updated_at"]
    case StockItemResource =>
      ["id", "farm", "name", "item_type", "quantity", "unit", "alert_threshold", "created_at", "updated_at"]
    case StockMovementResource =>
      ["id", "stock_item", "movement_type", "quantity", "date", "lot", "reason", "created_at", "updated_at"]
  }

  /** `Meta.read_only_fields`: the key and the stamps everywhere, and the owner of an enterprise. */
  function ReadOnlyFields(r: Resource): set<string> {
    if r == EnterpriseResource then {"id", "owner", "created_at", "updated_at"} else {"id", "created_at", "updated_at"}
  }

  /** The fields a client may send. */
  function WritableFields(r: Resource): set<string> {
    (set i | 0 <= i < |Fields(r)| :: Fields(r)[i]) - ReadOnlyFields(r)
  }

  /** A client can never set a key or a time stamp. */
  lemma StampsReadOnly(r: Resource)
    ensures "id" in Fields(r) && "created_at" in Fields(r) && "updated_at" in Fields(r)
    ensures "id" !in WritableFields(r) && "created_at" !in WritableFields(r) && "updated_at" !in WritableFields(r)
  {
    assert Fields(r)[0] == "id";
    assert Fields(r)[|Fields(r)| - 2] == "created_at" && Fields(r)[|Fields(r)| - 1] == "updated_at";
  }

  /** The owner of an enterprise is set by the server, never by the client. */
  lemma OwnerReadOnly()
    ensures "owner" in Fields(EnterpriseResource) && "owner" !in WritableFields(EnterpriseResource)
  {
    assert Fields(EnterpriseResource)[2] == "owner";
  }

  /** The soft-delete flags are not exposed, so they change only through `delete()` and `restore()`. */
  lemma SoftDeleteFlagsHidden(r: Resource)
    ensures "is_deleted" !in Fields(r) && "deleted_at" !in Fields(r)
  {
    IsDeletedHidden(r);
    DeletedAtHidden(r);
  }

  lemma IsDeletedHidden(r: Resource)
    ensures "is_deleted" !in Fields(r)
  {
  }

  lemma DeletedAtHidden(r: Resource)
    ensures "deleted_at" !in Fields(r)
  {
  }

  /**
   * Every parent key is writable, so an update may move a row under another parent, and a stock
   * item's `quantity` is writable, so the ledger balance is relative to the stored quantity.
   */
  lemma WritableParentKeys()
    ensures "enterprise" in WritableFields(FarmResource)
    ensures "farm" in WritableFields(UnitResource) && "farm" in WritableFields(StockItemResource)
    ensures "unit" in WritableFields(LotResource) && "lot" in WritableFields(DailyRecordResource)
    ensures "stock_item" in WritableFields(StockMovementResource) && "lot" in WritableFields(StockMovementResource)
    ensures "quantity" in WritableFields(StockItemResource)
  {
    assert Fields(FarmResource)[1] == "enterprise";
    assert Fields(UnitResource)[1] == "farm";
    assert Fields(StockItemResource)[1] == "farm" && Fields(StockItemResource)[4] == "quantity";
    assert Fields(LotResource)[1] == "unit";
    assert Fields(DailyRecordResource)[1] == "lot";
    assert Fields(StockMovementResource)[1] == "stock_item" && Fields(StockMovementResource)[5] == "lot";
  }
}
