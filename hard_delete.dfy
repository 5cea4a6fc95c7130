/**
 * Physical deletion (`hard_delete`) under the schema's `on_delete` rules: CASCADE down the
 * ownership tree, PROTECT on species and breeding types, SET_NULL on a stock movement's lot.
 * Django's collector reaches related rows through the base manager, so soft-deleted children are
 * removed with their parent like any other.
 */
module HardDelete {
  import opened Wrappers
  import opened Seqs
  import opened SoftDelete
  import opened Tenancy
  import opened Permissions

  /** The keys one hard delete removes, per table. */
  datatype Deletion = Deletion(
    enterprises: set<Id>, farms: set<Id>, memberships: set<Id>, units: set<Id>, lots: set<Id>,
    records: set<Id>, healthEvents: set<Id>, reproductionEvents: set<Id>, entries: set<Id>,
    stockItems: set<Id>, movements: set<Id>)

  function NoDeletion(): Deletion {
    Deletion({}, {}, {}, {}, {}, {}, {}, {}, {}, {}, {})
  }

  /** SET_NULL: the movements that pointed at a removed lot keep existing with no lot. */
  function NullLots(ms: seq<Row<StockMovement>>, lots: set<Id>): (r: seq<Row<StockMovement>>)
    ensures |r| == |ms|
    ensures forall i :: 0 <= i < |ms| ==> r[i].id == ms[i].id && r[i].data.stockItem == ms[i].data.stockItem
    ensures forall i :: 0 <= i < |ms| ==>
      r[i].data.lot == (if ms[i].data.lot.Some? && ms[i].data.lot.value in lots then None else ms[i].data.lot)
  {
    seq(|ms|, i requires 0 <= i < |ms| =>
      if ms[i].data.lot.Some? && ms[i].data.lot.value in lots then ms[i].(data := ms[i].data.(lot := None)) else ms[i])
  }

  /** Remove every selected row at once, then null the lot of the movements left pointing at a removed lot. */
  function RemoveAll(s: Store, d: Deletion): Store {
    s.(enterprises := BulkHardDelete(s.enterprises, d.enterprises),
       farms := BulkHardDelete(s.farms, d.farms),
       memberships := BulkHardDelete(s.memberships, d.memberships),
       units := BulkHardDelete(s.units, d.units),
       lots := BulkHardDelete(s.lots, d.lots),
       records := BulkHardDelete(s.records, d.records),
       healthEvents := BulkHardDelete(s.healthEvents, d.healthEvents),
       reproductionEvents := BulkHardDelete(s.reproductionEvents, d.reproductionEvents),
       entries := BulkHardDelete(s.entries, d.entries),
       stockItems := BulkHardDelete(s.stockItems, d.stockItems),
       movements := NullLots(BulkHardDelete(s.movements, d.movements), d.lots))
  }

  /**
   * The CASCADE foreign keys of core/models.py: a row whose parent is removed is removed too.
   * (The rules of FinancialEntry and ReproductionEvent are not part of this model.)
   */
  ghost predicate Closed(s: Store, d: Deletion) {
    && (forall i :: 0 <= i < |s.farms| && s.farms[i].data.enterprise in d.enterprises ==> s.farms[i].id in d.farms)
    && (forall i :: 0 <= i < |s.memberships| && s.memberships[i].data.enterprise in d.enterprises ==>
          s.memberships[i].id in d.memberships)
    && (forall i :: 0 <= i < |s.units| && s.units[i].data.farm in d.farms ==> s.units[i].id in d.units)
    && (forall i :: 0 <= i < |s.lots| && s.lots[i].data.unit in d.units ==> s.lots[i].id in d.lots)
    && (forall i :: 0 <= i < |s.records| && s.records[i].data.lot in d.lots ==> s.records[i].id in d.records)
    && (forall i :: 0 <= i < |s.healthEvents| && s.healthEvents[i].data.lot in d.lots ==> s.healthEvents[i].id in d.healthEvents)
    && (forall i :: 0 <= i < |s.stockItems| && s.stockItems[i].data.farm in d.farms ==> s.stockItems[i].id in d.stockItems)
    && (forall i :: 0 <= i < |s.movements| && s.movements[i].data.stockItem in d.stockItems ==> s.movements[i].id in d.movements)
  }

  // ----- the cascade from each kind of root -----

  function LotsChildren(s: Store, lots: set<Id>): Deletion {
    NoDeletion().(
      lots := lots,
      records := set i | 0 <= i < |s.records| && s.records[i].data.lot in lots :: s.records[i].id,
      healthEvents := set i | 0 <= i < |s.healthEvents| && s.healthEvents[i].data.lot in lots :: s.healthEvents[i].id)
  }

  function ItemsChildren(s: Store, items: set<Id>): Deletion {
    NoDeletion().(
      stockItems := items,
      movements := set i | 0 <= i < |s.movements| && s.movements[i].data.stockItem in items :: s.movements[i].id)
  }

  function UnitsChildren(s: Store, units: set<Id>): Deletion {
    LotsChildren(s, set i | 0 <= i < |s.lots| && s.lots[i].data.unit in units :: s.lots[i].id).(units := units)
  }

  function FarmsChildren(s: Store, farms: set<Id>): Deletion {
    var u := UnitsChildren(s, set i | 0 <= i < |s.units| && s.units[i].data.farm in farms :: s.units[i].id);
    var it := ItemsChildren(s, set i | 0 <= i < |s.stockItems| && s.stockItems[i].data.farm in farms :: s.stockItems[i].id);
    u.(farms := farms, stockItems := it.stockItems, movements := it.movements)
  }

  function EnterprisesChildren(s: Store, es: set<Id>): Deletion {
    FarmsChildren(s, set i | 0 <= i < |s.farms| && s.farms[i].data.enterprise in es :: s.farms[i].id).(
      enterprises := es,
      memberships := set i | 0 <= i < |s.memberships| && s.memberships[i].data.enterprise in es :: s.memberships[i].id)
  }

  /** Every cascade is closed under the CASCADE rules, whichever kind it starts from. */
  lemma CascadesClosed(s: Store, es: set<Id>, farms: set<Id>, units: set<Id>, lots: set<Id>, items: set<Id>)
    ensures Closed(s, EnterprisesChildren(s, es))
    ensures Closed(s, FarmsChildren(s, farms))
    ensures Closed(s, UnitsChildren(s, units))
    ensures Closed(s, LotsChildren(s, lots))
    ensures Closed(s, ItemsChildren(s, items))
  {
    EnterprisesClosed(s, es);
    FarmsClosed(s, farms);
    UnitsClosed(s, units);
    LotsClosed(s, lots);
    ItemsClosed(s, items);
  }

  lemma EnterprisesClosed(s: Store, es: set<Id>)
    ensures Closed(s, EnterprisesChildren(s, es))
  {
  }

  lemma FarmsClosed(s: Store, farms: set<Id>)
    ensures Closed(s, FarmsChildren(s, farms))
  {
  }

  lemma UnitsClosed(s: Store, units: set<Id>)
    ensures Closed(s, UnitsChildren(s, units))
  {
  }

  lemma LotsClosed(s: Store, lots: set<Id>)
    ensures Closed(s, LotsChildren(s, lots))
  {
  }

  lemma ItemsClosed(s: Store, items: set<Id>)
    ensures Closed(s, ItemsChildren(s, items))
  {
  }

  // ----- PROTECT -----

  /** Why a hard delete was refused. */
  datatype DeleteError = ProtectedError

  /** Some unit or lot, whatever its flag, still references the species. */
  predicate SpeciesReferenced(s: Store, sp: Id) {
    (exists i | 0 <= i < |s.units| :: s.units[i].data.species == Some(sp)) ||
    (exists i | 0 <= i < |s.lots| :: s.lots[i].data.species == sp)
  }

  /** Some species or unit still references the breeding type. */
  predicate BreedingTypeReferenced(s: Store, bt: Id) {
    (exists i | 0 <= i < |s.species| :: s.species[i].breedingType == bt) ||
    (exists i | 0 <= i < |s.units| :: s.units[i].data.breedingType == bt)
  }

  function RemoveSpecies(sp: seq<Species>, id: Id): seq<Species> {
    Filter(sp, (x: Species) => x.id != id)
  }

  function RemoveBreedingType(bts: seq<BreedingType>, id: Id): seq<BreedingType> {
    Filter(bts, (x: BreedingType) => x.id != id)
  }

  /** `delete()` on a Species (not a soft-delete model): refused while referenced. */
  function DeleteSpecies(s: Store, sp: Id): (r: Result<Store, DeleteError>)
    ensures r.Err? <==> SpeciesReferenced(s, sp)
    ensures r.Ok? ==> r.value == s.(species := RemoveSpecies(s.species, sp))
  {
    if SpeciesReferenced(s, sp) then Err(ProtectedError) else Ok(s.(species := RemoveSpecies(s.species, sp)))
  }

  /** `delete()` on a BreedingType: refused while a species or unit references it. */
  function DeleteBreedingType(s: Store, bt: Id): (r: Result<Store, DeleteError>)
    ensures r.Err? <==> BreedingTypeReferenced(s, bt)
    ensures r.Ok? ==> r.value == s.(breedingTypes := RemoveBreedingType(s.breedingTypes, bt))
  {
    if BreedingTypeReferenced(s, bt) then Err(ProtectedError) else Ok(s.(breedingTypes := RemoveBreedingType(s.breedingTypes, bt)))
  }

  // ----- what a closed removal does to the store -----

  /** Removing the selected rows removes exactly their keys, table by table; SET_NULL keeps the keys. */
  lemma RemoveAllKeys(s: Store, d: Deletion)
    ensures Ids(RemoveAll(s, d).enterprises) == Ids(s.enterprises) - d.enterprises
    ensures Ids(RemoveAll(s, d).farms) == Ids(s.farms) - d.farms
    ensures Ids(RemoveAll(s, d).memberships) == Ids(s.memberships) - d.memberships
    ensures Ids(RemoveAll(s, d).units) == Ids(s.units) - d.units
    ensures Ids(RemoveAll(s, d).lots) == Ids(s.lots) - d.lots
    ensures Ids(RemoveAll(s, d).records) == Ids(s.records) - d.records
    ensures Ids(RemoveAll(s, d).healthEvents) == Ids(s.healthEvents) - d.healthEvents
    ensures Ids(RemoveAll(s, d).stockItems) == Ids(s.stockItems) - d.stockItems
    ensures Ids(RemoveAll(s, d).movements) == Ids(s.movements) - d.movements
  {
    BulkHardDeleteRemoves(s.enterprises, d.enterprises);
    BulkHardDeleteRemoves(s.farms, d.farms);
    BulkHardDeleteRemoves(s.memberships, d.memberships);
    BulkHardDeleteRemoves(s.units, d.units);
    BulkHardDeleteRemoves(s.lots, d.lots);
    BulkHardDeleteRemoves(s.records, d.records);
    BulkHardDeleteRemoves(s.healthEvents, d.healthEvents);
    BulkHardDeleteRemoves(s.stockItems, d.stockItems);
    BulkHardDeleteRemoves(s.movements, d.movements);
    var kept := BulkHardDelete(s.movements, d.movements);
    assert Ids(NullLots(kept, d.lots)) == Ids(kept) by {
      assert forall i :: 0 <= i < |kept| ==> NullLots(kept, d.lots)[i].id == kept[i].id;
    }
  }

  /** Removal keeps keys distinct in every table. */
  lemma RemoveAllKeepsKeys(s: Store, d: Deletion)
    requires KeysDistinct(s)
    ensures KeysDistinct(RemoveAll(s, d))
  {
    FilterKeepsDistinctIds(s.enterprises, (r: Row<Enterprise>) => r.id !in d.enterprises);
    FilterKeepsDistinctIds(s.farms, (r: Row<Farm>) => r.id !in d.farms);
    FilterKeepsDistinctIds(s.memberships, (r: Row<Membership>) => r.id !in d.memberships);
    FilterKeepsDistinctIds(s.units, (r: Row<Unit>) => r.id !in d.units);
    FilterKeepsDistinctIds(s.lots, (r: Row<Lot>) => r.id !in d.lots);
    FilterKeepsDistinctIds(s.records, (r: Row<DailyRecord>) => r.id !in d.records);
    FilterKeepsDistinctIds(s.healthEvents, (r: Row<HealthEvent>) => r.id !in d.healthEvents);
    FilterKeepsDistinctIds(s.reproductionEvents, (r: Row<ReproductionEvent>) => r.id !in d.reproductionEvents);
    FilterKeepsDistinctIds(s.entries, (r: Row<FinancialEntry>) => r.id !in d.entries);
    FilterKeepsDistinctIds(s.stockItems, (r: Row<StockItem>) => r.id !in d.stockItems);
    FilterKeepsDistinctIds(s.movements, (r: Row<StockMovement>) => r.id !in d.movements);
  }

  /** A filtered table keeps every uniqueness constraint (its rows are rows of the original). */
  lemma FilterKeepsUnique<T, K>(rows: seq<Row<T>>, sel: set<Id>, key: T -> K)
    requires UniqueBy(rows, key)
    ensures UniqueBy(BulkHardDelete(rows, sel), key)
  {
    var f := BulkHardDelete(rows, sel);
    forall a | a in f ensures a in rows {
      var i :| 0 <= i < |f| && f[i] == a;
    }
  }

  /** Removal keeps every uniqueness constraint. */
  lemma RemoveAllKeepsUnique(s: Store, d: Deletion)
    requires UniqueOk(s)
    ensures UniqueOk(RemoveAll(s, d))
  {
    FilterKeepsUnique(s.memberships, d.memberships, MembershipKey);
    FilterKeepsUnique(s.lots, d.lots, LotKey);
    FilterKeepsUnique(s.records, d.records, RecordKey);
    FilterKeepsUnique(s.stockItems, d.stockItems, StockItemKey);
  }

  /**
   * One CASCADE foreign key: when every child whose parent is removed is removed too, every
   * surviving child still points at a surviving parent.
   */
  lemma ChildRefsSurvive<C, P>(children: seq<Row<C>>, parents: seq<Row<P>>, fk: C -> Id, dc: set<Id>, dp: set<Id>)
    requires forall i :: 0 <= i < |children| ==> fk(children[i].data) in Ids(parents)
    requires forall i :: 0 <= i < |children| && fk(children[i].data) in dp ==> children[i].id in dc
    ensures forall i :: 0 <= i < |BulkHardDelete(children, dc)| ==>
      fk(BulkHardDelete(children, dc)[i].data) in Ids(BulkHardDelete(parents, dp))
  {
    BulkHardDeleteRemoves(parents, dp);
    var n := BulkHardDelete(children, dc);
    forall i | 0 <= i < |n| ensures fk(n[i].data) in Ids(BulkHardDelete(parents, dp)) {
      var k :| 0 <= k < |children| && children[k] == n[i];
    }
  }

  /** The parent of every surviving farm, membership, unit and lot survives. */
  lemma RemoveAllKeepsUpperRefs(s: Store, d: Deletion)
    requires RefsOk(s) && Closed(s, d)
    ensures var n := RemoveAll(s, d);
      && (forall i :: 0 <= i < |n.farms| ==> n.farms[i].data.enterprise in Ids(n.enterprises))
      && (forall i :: 0 <= i < |n.memberships| ==> n.memberships[i].data.enterprise in Ids(n.enterprises))
      && (forall i :: 0 <= i < |n.units| ==> n.units[i].data.farm in Ids(n.farms))
      && (forall i :: 0 <= i < |n.lots| ==> n.lots[i].data.unit in Ids(n.units))
  {
    ChildRefsSurvive(s.farms, s.enterprises, (x: Farm) => x.enterprise, d.farms, d.enterprises);
    ChildRefsSurvive(s.memberships, s.enterprises, (x: Membership) => x.enterprise, d.memberships, d.enterprises);
    ChildRefsSurvive(s.units, s.farms, (x: Unit) => x.farm, d.units, d.farms);
    ChildRefsSurvive(s.lots, s.units, (x: Lot) => x.unit, d.lots, d.units);
  }

  /** The lot of every surviving record and health event, and the farm of every surviving item, survive. */
  lemma RemoveAllKeepsLowerRefs(s: Store, d: Deletion)
    requires RefsOk(s) && Closed(s, d)
    ensures var n := RemoveAll(s, d);
      && (forall i :: 0 <= i < |n.records| ==> n.records[i].data.lot in Ids(n.lots))
      && (forall i :: 0 <= i < |n.healthEvents| ==> n.healthEvents[i].data.lot in Ids(n.lots))
      && (forall i :: 0 <= i < |n.stockItems| ==> n.stockItems[i].data.farm in Ids(n.farms))
  {
    ChildRefsSurvive(s.records, s.lots, (x: DailyRecord) => x.lot, d.records, d.lots);
    ChildRefsSurvive(s.healthEvents, s.lots, (x: HealthEvent) => x.lot, d.healthEvents, d.lots);
    ChildRefsSurvive(s.stockItems, s.farms, (x: StockItem) => x.farm, d.stockItems, d.farms);
  }

  /**
   * Every surviving movement keeps a surviving stock item; its lot is either a surviving lot or,
   * when that lot was removed, null (SET_NULL); a movement whose lot survived keeps it.
   */
  lemma RemoveAllNullsLots(s: Store, d: Deletion)
    requires RefsOk(s) && Closed(s, d)
    ensures var n := RemoveAll(s, d);
      && (forall i :: 0 <= i < |n.movements| ==> n.movements[i].data.stockItem in Ids(n.stockItems))
      && (forall i :: 0 <= i < |n.movements| && n.movements[i].data.lot.Some? ==> n.movements[i].data.lot.value in Ids(n.lots))
    ensures var kept := BulkHardDelete(s.movements, d.movements);
      forall i :: 0 <= i < |kept| ==>
        RemoveAll(s, d).movements[i].data.lot == (if kept[i].data.lot.Some? && kept[i].data.lot.value in d.lots then None else kept[i].data.lot)
  {
    RemoveAllKeys(s, d);
    forall m | m in s.movements && m.id !in d.movements
      ensures m.data.stockItem in Ids(s.stockItems) - d.stockItems
      ensures m.data.lot.Some? ==> m.data.lot.value in Ids(s.lots)
    {
      KeptMovementRefs(s, d, m);
    }
    NullLotsRefs(s.movements, d.movements, d.lots, Ids(s.stockItems) - d.stockItems, Ids(s.lots));
  }

  /** SET_NULL after the removal leaves every kept movement's lot either null or among the kept lots. */
  lemma NullLotsRefs(ms: seq<Row<StockMovement>>, sel: set<Id>, lots: set<Id>, itemIds: set<Id>, lotIds: set<Id>)
    requires forall m :: m in ms && m.id !in sel ==>
      m.data.stockItem in itemIds && (m.data.lot.Some? ==> m.data.lot.value in lotIds)
    ensures var n := NullLots(BulkHardDelete(ms, sel), lots);
      forall i :: 0 <= i < |n| ==>
        n[i].data.stockItem in itemIds && (n[i].data.lot.Some? ==> n[i].data.lot.value in lotIds - lots)
  {
    var kept := BulkHardDelete(ms, sel);
    assert forall i :: 0 <= i < |kept| ==> kept[i] in ms && kept[i].id !in sel;
  }

  /** A movement the removal keeps has a stock item the removal keeps, and a stored lot when it has one. */
  lemma KeptMovementRefs(s: Store, d: Deletion, m: Row<StockMovement>)
    requires RefsOk(s) && Closed(s, d) && m in s.movements && m.id !in d.movements
    ensures m.data.stockItem in Ids(s.stockItems) && m.data.stockItem !in d.stockItems
    ensures m.data.lot.Some? ==> m.data.lot.value in Ids(s.lots)
  {
    var k :| 0 <= k < |s.movements| && s.movements[k] == m;
  }

  /** A removal closed under the CASCADE rules keeps the store consistent. */
  lemma RemoveAllKeepsValid(s: Store, d: Deletion)
    requires Valid(s) && Closed(s, d)
    ensures Valid(RemoveAll(s, d))
  {
    RemoveAllKeepsKeys(s, d);
    RemoveAllKeepsUnique(s, d);
    RemoveAllKeepsUpperRefs(s, d);
    RemoveAllKeepsLowerRefs(s, d);
    RemoveAllNullsLots(s, d);
    RemoveAllKeys(s, d);
  }

  /**
   * Hard-deleting an enterprise removes it, its farms and memberships, their units, lots, daily
   * records, health events, stock items and movements, soft-deleted ones included, and leaves a
   * consistent store.
   */
  lemma EnterpriseCascade(s: Store, e: Id)
    requires Valid(s)
    ensures Valid(RemoveAll(s, EnterprisesChildren(s, {e})))
    ensures e !in Ids(RemoveAll(s, EnterprisesChildren(s, {e})).enterprises)
    ensures forall i :: 0 <= i < |RemoveAll(s, EnterprisesChildren(s, {e})).farms| ==>
      RemoveAll(s, EnterprisesChildren(s, {e})).farms[i].data.enterprise != e
    ensures forall i :: 0 <= i < |RemoveAll(s, EnterprisesChildren(s, {e})).memberships| ==>
      RemoveAll(s, EnterprisesChildren(s, {e})).memberships[i].data.enterprise != e
  {
    var d := EnterprisesChildren(s, {e});
    CascadesClosed(s, {e}, {}, {}, {}, {});
    RemoveAllKeepsValid(s, d);
    RemoveAllKeys(s, d);
  }

  /** Hard-deleting a lot removes it with its daily records and health events, soft-deleted ones included. */
  lemma LotCascade(s: Store, l: Id)
    requires Valid(s)
    ensures Valid(RemoveAll(s, LotsChildren(s, {l})))
    ensures l !in Ids(RemoveAll(s, LotsChildren(s, {l})).lots)
    ensures forall i :: 0 <= i < |RemoveAll(s, LotsChildren(s, {l})).records| ==> RemoveAll(s, LotsChildren(s, {l})).records[i].data.lot != l
    ensures forall i :: 0 <= i < |RemoveAll(s, LotsChildren(s, {l})).healthEvents| ==>
      RemoveAll(s, LotsChildren(s, {l})).healthEvents[i].data.lot != l
  {
    var d := LotsChildren(s, {l});
    CascadesClosed(s, {}, {}, {}, {l}, {});
    RemoveAllKeepsValid(s, d);
    RemoveAllKeys(s, d);
  }

  /** Hard-deleting a lot keeps every stock movement, and those that pointed at it now have no lot. */
  lemma LotDeleteNullsMovements(s: Store, l: Id)
    ensures |RemoveAll(s, LotsChildren(s, {l})).movements| == |s.movements|
    ensures forall i :: 0 <= i < |s.movements| ==>
      RemoveAll(s, LotsChildren(s, {l})).movements[i].id == s.movements[i].id &&
      RemoveAll(s, LotsChildren(s, {l})).movements[i].data.lot == (if s.movements[i].data.lot == Some(l) then None else s.movements[i].data.lot)
  {
    FilterAll(s.movements, (r: Row<StockMovement>) => r.id !in LotsChildren(s, {l}).movements);
  }

  /** A species that nothing references can be deleted, and the store stays consistent. */
  lemma DeleteSpeciesKeepsValid(s: Store, sp: Id)
    requires Valid(s) && DeleteSpecies(s, sp).Ok?
    ensures Valid(DeleteSpecies(s, sp).value)
    ensures sp !in SpeciesIds(DeleteSpecies(s, sp).value.species)
  {
    var f := RemoveSpecies(s.species, sp);
    RemoveSpeciesRows(s.species, sp);
    forall i | 0 <= i < |s.lots| ensures s.lots[i].data.species in SpeciesIds(f) {
      assert s.lots[i].data.species != sp;
    }
    forall i | 0 <= i < |s.units| && s.units[i].data.species.Some? ensures s.units[i].data.species.value in SpeciesIds(f) {
      assert s.units[i].data.species != Some(sp);
    }
    forall i | 0 <= i < |f| ensures f[i].breedingType in BreedingTypeIds(s.breedingTypes) {
      var k :| 0 <= k < |s.species| && s.species[k] == f[i];
    }
    assert s.(species := f) == DeleteSpecies(s, sp).value;
  }

  /** Removing one species key keeps every other key, keeps only old rows, and keeps the keys distinct. */
  lemma RemoveSpeciesRows(sp: seq<Species>, id: Id)
    ensures forall x :: x in SpeciesIds(sp) && x != id ==> x in SpeciesIds(RemoveSpecies(sp, id))
    ensures id !in SpeciesIds(RemoveSpecies(sp, id))
    ensures forall x :: x in RemoveSpecies(sp, id) ==> x in sp
    ensures (forall i, j :: 0 <= i < j < |sp| ==> sp[i].id != sp[j].id) ==>
      forall i, j :: 0 <= i < j < |RemoveSpecies(sp, id)| ==> RemoveSpecies(sp, id)[i].id != RemoveSpecies(sp, id)[j].id
  {
    var f := RemoveSpecies(sp, id);
    forall x | x in SpeciesIds(sp) && x != id ensures x in SpeciesIds(f) {
      var k :| 0 <= k < |sp| && sp[k].id == x;
      var m :| 0 <= m < |f| && f[m] == sp[k];
    }
    if forall i, j :: 0 <= i < j < |sp| ==> sp[i].id != sp[j].id {
      FilterPairwise(sp, (x: Species) => x.id != id, (a: Species, b: Species) => a.id != b.id);
    }
  }

  /** A breeding type that nothing references can be deleted, and the store stays consistent. */
  lemma DeleteBreedingTypeKeepsValid(s: Store, bt: Id)
    requires Valid(s) && DeleteBreedingType(s, bt).Ok?
    ensures Valid(DeleteBreedingType(s, bt).value)
    ensures bt !in BreedingTypeIds(DeleteBreedingType(s, bt).value.breedingTypes)
  {
    var f := RemoveBreedingType(s.breedingTypes, bt);
    RemoveBreedingTypeRows(s.breedingTypes, bt);
    forall i | 0 <= i < |s.species| ensures s.species[i].breedingType in BreedingTypeIds(f) {
      assert s.species[i].breedingType != bt;
    }
    forall i | 0 <= i < |s.units| ensures s.units[i].data.breedingType in BreedingTypeIds(f) {
      assert s.units[i].data.breedingType != bt;
    }
    assert s.(breedingTypes := f) == DeleteBreedingType(s, bt).value;
  }

  /** Removing one breeding-type key keeps every other key, keeps only old rows, and keeps the keys distinct. */
  lemma RemoveBreedingTypeRows(bts: seq<BreedingType>, id: Id)
    ensures forall x :: x in BreedingTypeIds(bts) && x != id ==> x in BreedingTypeIds(RemoveBreedingType(bts, id))
    ensures id !in BreedingTypeIds(RemoveBreedingType(bts, id))
    ensures forall x :: x in RemoveBreedingType(bts, id) ==> x in bts
    ensures (forall i, j :: 0 <= i < j < |bts| ==> bts[i].id != bts[j].id) ==>
      forall i, j :: 0 <= i < j < |RemoveBreedingType(bts, id)| ==>
        RemoveBreedingType(bts, id)[i].id != RemoveBreedingType(bts, id)[j].id
  {
    var f := RemoveBreedingType(bts, id);
    forall x | x in BreedingTypeIds(bts) && x != id ensures x in BreedingTypeIds(f) {
      var k :| 0 <= k < |bts| && bts[k].id == x;
      var m :| 0 <= m < |f| && f[m] == bts[k];
    }
    if forall i, j :: 0 <= i < j < |bts| ==> bts[i].id != bts[j].id {
      FilterPairwise(bts, (x: BreedingType) => x.id != id, (a: BreedingType, b: BreedingType) => a.id != b.id);
    }
  }

  /** The rows one `hard_delete()` on the object removes. */
  function DeletionOf(s: Store, o: Obj): Deletion {
    match o
    case EnterpriseObj(id) => EnterprisesChildren(s, {id})
    case FarmObj(id) => FarmsChildren(s, {id})
    case MembershipObj(id) => NoDeletion().(memberships := {id})
    case UnitObj(id) => UnitsChildren(s, {id})
    case LotObj(id) => LotsChildren(s, {id})
    case DailyRecordObj(id) => NoDeletion().(records := {id})
    case HealthEventObj(id) => NoDeletion().(healthEvents := {id})
    case ReproductionEventObj(id) => NoDeletion().(reproductionEvents := {id})
    case FinancialEntryObj(id) => NoDeletion().(entries := {id})
    case StockItemObj(id) => ItemsChildren(s, {id})
    case StockMovementObj(id) => NoDeletion().(movements := {id})
    case _ => NoDeletion()
  }

  /** `hard_delete()` (or, for species and breeding types, `delete()`) on one object. */
  function HardDeleteObj(s: Store, o: Obj): Result<Store, DeleteError> {
    match o
    case SpeciesObj(id) => DeleteSpecies(s, id)
    case BreedingTypeObj(id) => DeleteBreedingType(s, id)
    case _ => Ok(RemoveAll(s, DeletionOf(s, o)))
  }

  /**
   * Only species and breeding types can be refused; every hard delete that goes through leaves a
   * consistent store, and the object's row is gone.
   */
  lemma HardDeleteObjKeepsValid(s: Store, o: Obj)
    requires Valid(s)
    ensures HardDeleteObj(s, o).Err? ==> o.SpeciesObj? || o.BreedingTypeObj?
    ensures HardDeleteObj(s, o).Ok? ==> Valid(HardDeleteObj(s, o).value) && !Stored(HardDeleteObj(s, o).value, o)
  {
    if o.SpeciesObj? {
      assert HardDeleteObj(s, o) == DeleteSpecies(s, o.id);
      if DeleteSpecies(s, o.id).Ok? { DeleteSpeciesKeepsValid(s, o.id); }
    } else if o.BreedingTypeObj? {
      assert HardDeleteObj(s, o) == DeleteBreedingType(s, o.id);
      if DeleteBreedingType(s, o.id).Ok? { DeleteBreedingTypeKeepsValid(s, o.id); }
    } else {
      UnprotectedDelete(s, o);
    }
  }

  lemma UnprotectedDelete(s: Store, o: Obj)
    requires Valid(s) && !o.SpeciesObj? && !o.BreedingTypeObj?
    ensures HardDeleteObj(s, o) == Ok(RemoveAll(s, DeletionOf(s, o)))
    ensures Valid(RemoveAll(s, DeletionOf(s, o))) && !Stored(RemoveAll(s, DeletionOf(s, o)), o)
  {
    if o.EnterpriseObj? || o.FarmObj? || o.UnitObj? || o.LotObj? || o.StockItemObj? {
      CascadeObjClosed(s, o);
    } else {
      LeafObjClosed(s, o);
    }
    ObjGone(s, o);
  }

  lemma LeafObjClosed(s: Store, o: Obj)
    requires o.MembershipObj? || o.DailyRecordObj? || o.HealthEventObj? || o.ReproductionEventObj? ||
             o.FinancialEntryObj? || o.StockMovementObj?
    ensures Closed(s, DeletionOf(s, o))
  {
  }

  lemma CascadeObjClosed(s: Store, o: Obj)
    requires o.EnterpriseObj? || o.FarmObj? || o.UnitObj? || o.LotObj? || o.StockItemObj?
    ensures Closed(s, DeletionOf(s, o))
  {
    match o {
      case EnterpriseObj(id) =>
        assert DeletionOf(s, o) == EnterprisesChildren(s, {id});
        EnterprisesClosed(s, {id});
      case FarmObj(id) =>
        assert DeletionOf(s, o) == FarmsChildren(s, {id});
        FarmsClosed(s, {id});
      case UnitObj(id) =>
        assert DeletionOf(s, o) == UnitsChildren(s, {id});
        UnitsClosed(s, {id});
      case LotObj(id) =>
        assert DeletionOf(s, o) == LotsChildren(s, {id});
        LotsClosed(s, {id});
      case StockItemObj(id) =>
        assert DeletionOf(s, o) == ItemsChildren(s, {id});
        ItemsClosed(s, {id});
    }
  }

  /** The object's own key is among the removed ones, and the removal is valid when closed. */
  lemma ObjGone(s: Store, o: Obj)
    requires Valid(s) && !o.SpeciesObj? && !o.BreedingTypeObj? && Closed(s, DeletionOf(s, o))
    ensures Valid(RemoveAll(s, DeletionOf(s, o))) && !Stored(RemoveAll(s, DeletionOf(s, o)), o)
  {
    RemoveAllKeepsValid(s, DeletionOf(s, o));
    OwnKeyGone(s, o);
  }

  /** The object's own key is in the deletion it starts, so its row is gone afterwards. */
  lemma OwnKeyGone(s: Store, o: Obj)
    requires !o.SpeciesObj? && !o.BreedingTypeObj?
    ensures !Stored(RemoveAll(s, DeletionOf(s, o)), o)
  {
    var d := DeletionOf(s, o);
    var n := RemoveAll(s, d);
    match o {
      case EnterpriseObj(id) =>
        assert id in d.enterprises;
        BulkHardDeleteRemoves(s.enterprises, d.enterprises);
      case FarmObj(id) =>
        assert id in d.farms;
        BulkHardDeleteRemoves(s.farms, d.farms);
      case MembershipObj(id) =>
        assert id in d.memberships;
        BulkHardDeleteRemoves(s.memberships, d.memberships);
      case UnitObj(id) =>
        assert id in d.units;
        BulkHardDeleteRemoves(s.units, d.units);
      case LotObj(id) =>
        assert id in d.lots;
        BulkHardDeleteRemoves(s.lots, d.lots);
      case DailyRecordObj(id) =>
        assert id in d.records;
        BulkHardDeleteRemoves(s.records, d.records);
      case HealthEventObj(id) =>
        assert id in d.healthEvents;
        BulkHardDeleteRemoves(s.healthEvents, d.healthEvents);
      case ReproductionEventObj(id) =>
        assert id in d.reproductionEvents;
        BulkHardDeleteRemoves(s.reproductionEvents, d.reproductionEvents);
      case FinancialEntryObj(id) =>
        assert id in d.entries;
        BulkHardDeleteRemoves(s.entries, d.entries);
      case StockItemObj(id) =>
        assert id in d.stockItems;
        BulkHardDeleteRemoves(s.stockItems, d.stockItems);
      case StockMovementObj(id) =>
        assert id in d.movements;
        RemoveAllKeys(s, d);
    }
  }
}
