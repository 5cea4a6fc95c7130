/**
 * The tenancy data graph: Enterprise -> Farm -> Unit -> Lot -> daily records and events,
 * Farm -> StockItem -> StockMovement, Enterprise -> Membership(user, role), and the reference
 * data BreedingType -> Species. A `Store` is one snapshot of every table; `Valid` is what the
 * database schema guarantees about it (keys, foreign keys, `unique` and `unique_together`).
 */
module Tenancy {
  import opened Wrappers
  import opened SoftDelete

  /** The key of a user of the authentication model, which is not itself part of this model. */
  type UserId = nat
  /** A `DateField` value, as a day number. */
  type Date = int

  // ----- choice sets -----

  /** Membership.ROLE_CHOICES: 'owner', 'admin', 'user'. */
  datatype Role = Owner | Admin | User

  /** Lot.STATUS_CHOICES: 'active', 'closed'. */
  datatype LotStatus = Active | Closed

  /** The stored string of a lot status, as a `status` query parameter compares it. */
  function StatusCode(st: LotStatus): string {
    match st
    case Active => "active"
    case Closed => "closed"
  }

  /** HealthEvent.EVENT_TYPES */
  datatype HealthEventType = Vaccination | Treatment | Disease
  /** StockItem.ITEM_TYPES: 'feed', 'med', 'other'. */
  datatype ItemType = Feed | Med | OtherItem
  /** StockMovement.MOVEMENT_TYPES: 'in', 'out'. */
  datatype MovementType = In | Out
  /** FinancialEntry.entry_type: revenue adds to a margin, any other type subtracts. */
  datatype EntryType = Revenue | Expense

  // ----- entities (the fields of each model besides id, stamps and soft-delete flags) -----

  datatype Enterprise = Enterprise(name: string, owner: UserId)
  datatype Farm = Farm(enterprise: Id, name: string, location: string)
  datatype Membership = Membership(user: UserId, enterprise: Id, role: Role)

  /** Reference data: neither BreedingType nor Species is a soft-delete model. */
  datatype BreedingType = BreedingType(id: Id, createdAt: Time, updatedAt: Time, code: string, name: string)
  datatype Species = Species(id: Id, createdAt: Time, updatedAt: Time, code: string, name: string, breedingType: Id)

  /** `capacity` is a PositiveIntegerField (zero allowed); `conditions` is a JSON document. */
  datatype Unit = Unit(farm: Id, breedingType: Id, species: Option<Id>, name: string, capacity: nat, conditions: string)
  datatype Lot = Lot(unit: Id, species: Id, code: string, entryDate: Date, initialCount: nat, status: LotStatus, destination: string)
  datatype DailyRecord = DailyRecord(
    lot: Id, date: Date, mortality: nat, feedIntakeKg: real, milkProductionL: real,
    eggsCount: nat, avgWeightKg: real, notes: string)
  datatype HealthEvent = HealthEvent(
    lot: Id, date: Date, eventType: HealthEventType, product: string, dose: string, veterinarian: string, notes: string)
  datatype ReproductionEvent = ReproductionEvent(
    lot: Id, date: Date, eventType: string, gestationDays: int, bornAlive: nat, bornDead: nat, notes: string)
  datatype FinancialEntry = FinancialEntry(
    farm: Id, lot: Option<Id>, date: Date, entryType: EntryType, category: string, amount: real, notes: string)
  /** `quantity` and `alert_threshold` default to 0 and `unit` to "kg". */
  datatype StockItem = StockItem(farm: Id, name: string, itemType: ItemType, quantity: real, unit: string, alertThreshold: real)
  datatype StockMovement = StockMovement(
    stockItem: Id, movementType: MovementType, quantity: real, date: Date, lot: Option<Id>, reason: string)

  /** One snapshot of every table, each in primary-key order. */
  datatype Store = Store(
    enterprises: seq<Row<Enterprise>>,
    farms: seq<Row<Farm>>,
    memberships: seq<Row<Membership>>,
    breedingTypes: seq<BreedingType>,
    species: seq<Species>,
    units: seq<Row<Unit>>,
    lots: seq<Row<Lot>>,
    records: seq<Row<DailyRecord>>,
    healthEvents: seq<Row<HealthEvent>>,
    reproductionEvents: seq<Row<ReproductionEvent>>,
    entries: seq<Row<FinancialEntry>>,
    stockItems: seq<Row<StockItem>>,
    movements: seq<Row<StockMovement>>)

  function BreedingTypeIds(bts: seq<BreedingType>): set<Id> {
    set i | 0 <= i < |bts| :: bts[i].id
  }

  function SpeciesIds(sp: seq<Species>): set<Id> {
    set i | 0 <= i < |sp| :: sp[i].id
  }

  function FindSpecies(sp: seq<Species>, id: Id): (r: Option<Species>)
    ensures r.Some? <==> id in SpeciesIds(sp)
    ensures r.Some? ==> r.value in sp && r.value.id == id
  {
    if sp == [] then None
    else if sp[0].id == id then Some(sp[0])
    else
      var r := FindSpecies(sp[1..], id);
      assert SpeciesIds(sp) == {sp[0].id} + SpeciesIds(sp[1..]) by {
        forall x | x in SpeciesIds(sp) ensures x in {sp[0].id} + SpeciesIds(sp[1..]) {
          var i :| 0 <= i < |sp| && sp[i].id == x;
          if i > 0 { assert sp[1..][i - 1].id == x; }
        }
      }
      r
  }

  // ----- the schema's guarantees -----

  /** Every table has distinct primary keys. */
  ghost predicate KeysDistinct(s: Store) {
    && DistinctIds(s.enterprises) && DistinctIds(s.farms) && DistinctIds(s.memberships)
    && (forall i, j :: 0 <= i < j < |s.breedingTypes| ==> s.breedingTypes[i].id != s.breedingTypes[j].id)
    && (forall i, j :: 0 <= i < j < |s.species| ==> s.species[i].id != s.species[j].id)
    && DistinctIds(s.units) && DistinctIds(s.lots) && DistinctIds(s.records)
    && DistinctIds(s.healthEvents) && DistinctIds(s.reproductionEvents) && DistinctIds(s.entries)
    && DistinctIds(s.stockItems) && DistinctIds(s.movements)
  }

  /**
   * Every foreign key of core/models.py (together with the `breeding_type` keys, required since
   * migration 0006) points at a stored row, whatever that row's soft-delete flag.
   */
  ghost predicate RefsOk(s: Store) {
    && (forall i :: 0 <= i < |s.farms| ==> s.farms[i].data.enterprise in Ids(s.enterprises))
    && (forall i :: 0 <= i < |s.memberships| ==> s.memberships[i].data.enterprise in Ids(s.enterprises))
    && (forall i :: 0 <= i < |s.species| ==> s.species[i].breedingType in BreedingTypeIds(s.breedingTypes))
    && (forall i :: 0 <= i < |s.units| ==>
          && s.units[i].data.farm in Ids(s.farms)
          && s.units[i].data.breedingType in BreedingTypeIds(s.breedingTypes)
          && (s.units[i].data.species.Some? ==> s.units[i].data.species.value in SpeciesIds(s.species)))
    && (forall i :: 0 <= i < |s.lots| ==>
          s.lots[i].data.unit in Ids(s.units) && s.lots[i].data.species in SpeciesIds(s.species))
    && (forall i :: 0 <= i < |s.records| ==> s.records[i].data.lot in Ids(s.lots))
    && (forall i :: 0 <= i < |s.healthEvents| ==> s.healthEvents[i].data.lot in Ids(s.lots))
    && (forall i :: 0 <= i < |s.stockItems| ==> s.stockItems[i].data.farm in Ids(s.farms))
    && (forall i :: 0 <= i < |s.movements| ==>
          && s.movements[i].data.stockItem in Ids(s.stockItems)
          && (s.movements[i].data.lot.Some? ==> s.movements[i].data.lot.value in Ids(s.lots)))
  }

  /** The foreign keys of ReproductionEvent and FinancialEntry. */
  ghost predicate EventRefsOk(s: Store) {
    && (forall i :: 0 <= i < |s.reproductionEvents| ==> s.reproductionEvents[i].data.lot in Ids(s.lots))
    && (forall i :: 0 <= i < |s.entries| ==>
          && s.entries[i].data.farm in Ids(s.farms)
          && (s.entries[i].data.lot.Some? ==> s.entries[i].data.lot.value in Ids(s.lots)))
  }

  /** The `unique_together` keys of Membership, Lot, LotDailyRecord and StockItem. */
  function MembershipKey(m: Membership): (UserId, Id) { (m.user, m.enterprise) }
  function LotKey(l: Lot): (Id, string) { (l.unit, l.code) }
  function RecordKey(r: DailyRecord): (Id, Date) { (r.lot, r.date) }
  function StockItemKey(it: StockItem): (Id, string) { (it.farm, it.name) }

  /** `unique_together = ('user', 'enterprise')` on Membership. */
  ghost predicate MembershipsUnique(s: Store) {
    UniqueBy(s.memberships, MembershipKey)
  }

  /** The `unique=True` and `unique_together` constraints, over every row (alive or soft-deleted). */
  ghost predicate UniqueOk(s: Store) {
    && MembershipsUnique(s)
    && (forall a, b :: a in s.species && b in s.species && a.code == b.code ==> a == b)
    && (forall a, b :: a in s.breedingTypes && b in s.breedingTypes && a.code == b.code ==> a == b)
    && UniqueBy(s.lots, LotKey)
    && UniqueBy(s.records, RecordKey)
    && UniqueBy(s.stockItems, StockItemKey)
  }

  ghost predicate Valid(s: Store) {
    KeysDistinct(s) && RefsOk(s) && UniqueOk(s)
  }

  // ----- walks up the parent chain (forward foreign keys, which ignore the soft-delete flag) -----

  function FarmEnterprise(s: Store, farm: Id): Option<Id> {
    match Find(s.farms, farm)
    case None => None
    case Some(f) => Some(f.data.enterprise)
  }

  function UnitEnterprise(s: Store, unit: Id): Option<Id> {
    match Find(s.units, unit)
    case None => None
    case Some(u) => FarmEnterprise(s, u.data.farm)
  }

  function LotEnterprise(s: Store, lot: Id): Option<Id> {
    match Find(s.lots, lot)
    case None => None
    case Some(l) => UnitEnterprise(s, l.data.unit)
  }

  function StockItemEnterprise(s: Store, item: Id): Option<Id> {
    match Find(s.stockItems, item)
    case None => None
    case Some(it) => FarmEnterprise(s, it.data.farm)
  }

  /** The farm a lot belongs to (through its unit). */
  function LotFarm(s: Store, lot: Id): Option<Id> {
    match Find(s.lots, lot)
    case None => None
    case Some(l) =>
      match Find(s.units, l.data.unit)
      case None => None
      case Some(u) => Some(u.data.farm)
  }

  /**
   * Each farm, unit, lot and stock item has exactly one enterprise: in a valid store the walk
   * up its parent chain always arrives at a stored enterprise.
   */
  lemma FarmResolves(s: Store, f: Id)
    requires RefsOk(s) && f in Ids(s.farms)
    ensures FarmEnterprise(s, f).Some? && FarmEnterprise(s, f).value in Ids(s.enterprises)
  {
    var k := IndexOf(s.farms, f);
    assert FarmEnterprise(s, f) == Some(s.farms[k].data.enterprise);
  }

  lemma UnitResolves(s: Store, u: Id)
    requires RefsOk(s) && u in Ids(s.units)
    ensures UnitEnterprise(s, u).Some? && UnitEnterprise(s, u).value in Ids(s.enterprises)
  {
    var k := IndexOf(s.units, u);
    var r := s.units[k];
    FarmResolves(s, r.data.farm);
    assert UnitEnterprise(s, u) == FarmEnterprise(s, r.data.farm);
  }

  lemma LotResolves(s: Store, l: Id)
    requires RefsOk(s) && l in Ids(s.lots)
    ensures LotEnterprise(s, l).Some? && LotEnterprise(s, l).value in Ids(s.enterprises)
    ensures LotFarm(s, l).Some? && LotFarm(s, l).value in Ids(s.farms)
    ensures LotFarm(s, l).Some? ==> FarmEnterprise(s, LotFarm(s, l).value) == LotEnterprise(s, l)
  {
    var k := IndexOf(s.lots, l);
    var r := s.lots[k];
    UnitResolves(s, r.data.unit);
    var m := IndexOf(s.units, r.data.unit);
    var u := s.units[m];
    assert LotEnterprise(s, l) == UnitEnterprise(s, r.data.unit) == FarmEnterprise(s, u.data.farm);
    assert LotFarm(s, l) == Some(u.data.farm);
  }

  lemma StockItemResolves(s: Store, it: Id)
    requires RefsOk(s) && it in Ids(s.stockItems)
    ensures StockItemEnterprise(s, it).Some? && StockItemEnterprise(s, it).value in Ids(s.enterprises)
  {
    var k := IndexOf(s.stockItems, it);
    var r := s.stockItems[k];
    FarmResolves(s, r.data.farm);
    assert StockItemEnterprise(s, it) == FarmEnterprise(s, r.data.farm);
  }

  /**
   * The uniqueness constraints as the database reports them: two rows at different positions
   * never share a (user, enterprise), a (unit, code), a (lot, date) or a (farm, name), and no
   * two species and no two breeding types share a `code`.
   */
  lemma UniqueTogether(s: Store)
    requires Valid(s)
    ensures forall i, j :: 0 <= i < j < |s.memberships| ==>
      (s.memberships[i].data.user, s.memberships[i].data.enterprise) != (s.memberships[j].data.user, s.memberships[j].data.enterprise)
    ensures forall i, j :: 0 <= i < j < |s.lots| ==>
      (s.lots[i].data.unit, s.lots[i].data.code) != (s.lots[j].data.unit, s.lots[j].data.code)
    ensures forall i, j :: 0 <= i < j < |s.records| ==>
      (s.records[i].data.lot, s.records[i].data.date) != (s.records[j].data.lot, s.records[j].data.date)
    ensures forall i, j :: 0 <= i < j < |s.stockItems| ==>
      (s.stockItems[i].data.farm, s.stockItems[i].data.name) != (s.stockItems[j].data.farm, s.stockItems[j].data.name)
    ensures forall i, j :: 0 <= i < j < |s.species| ==> s.species[i].code != s.species[j].code
    ensures forall i, j :: 0 <= i < j < |s.breedingTypes| ==> s.breedingTypes[i].code != s.breedingTypes[j].code
  {
    forall i, j | 0 <= i < j < |s.memberships|
      ensures (s.memberships[i].data.user, s.memberships[i].data.enterprise) != (s.memberships[j].data.user, s.memberships[j].data.enterprise)
    {
      assert s.memberships[i] in s.memberships && s.memberships[j] in s.memberships;
      assert s.memberships[i].id != s.memberships[j].id;
    }
    forall i, j | 0 <= i < j < |s.lots|
      ensures (s.lots[i].data.unit, s.lots[i].data.code) != (s.lots[j].data.unit, s.lots[j].data.code)
    {
      assert s.lots[i] in s.lots && s.lots[j] in s.lots;
      assert s.lots[i].id != s.lots[j].id;
    }
    forall i, j | 0 <= i < j < |s.records|
      ensures (s.records[i].data.lot, s.records[i].data.date) != (s.records[j].data.lot, s.records[j].data.date)
    {
      assert s.records[i] in s.records && s.records[j] in s.records;
      assert s.records[i].id != s.records[j].id;
    }
    forall i, j | 0 <= i < j < |s.stockItems|
      ensures (s.stockItems[i].data.farm, s.stockItems[i].data.name) != (s.stockItems[j].data.farm, s.stockItems[j].data.name)
    {
      assert s.stockItems[i] in s.stockItems && s.stockItems[j] in s.stockItems;
      assert s.stockItems[i].id != s.stockItems[j].id;
    }
    forall i, j | 0 <= i < j < |s.species| ensures s.species[i].code != s.species[j].code {
      assert s.species[i] in s.species && s.species[j] in s.species;
      assert s.species[i].id != s.species[j].id;
    }
    forall i, j | 0 <= i < j < |s.breedingTypes| ensures s.breedingTypes[i].code != s.breedingTypes[j].code {
      assert s.breedingTypes[i] in s.breedingTypes && s.breedingTypes[j] in s.breedingTypes;
      assert s.breedingTypes[i].id != s.breedingTypes[j].id;
    }
  }
}
