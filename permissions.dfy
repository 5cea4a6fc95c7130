/**
 * The authorization engine of permissions.py: which enterprise an object belongs to, which role
 * a caller holds in an enterprise, and the `IsEnterpriseMember` permission built from the two.
 */
module Permissions {
  import opened Wrappers
  import opened SoftDelete
  import opened Tenancy

  /** The requesting user: Django's anonymous user or an authenticated one. */
  datatype Caller = Anonymous | Authenticated(user: UserId)

  /** A model instance handed to the object-permission check, by model and key. */
  datatype Obj =
    | EnterpriseObj(id: Id)
    | FarmObj(id: Id)
    | MembershipObj(id: Id)
    | BreedingTypeObj(id: Id)
    | SpeciesObj(id: Id)
    | UnitObj(id: Id)
    | LotObj(id: Id)
    | DailyRecordObj(id: Id)
    | HealthEventObj(id: Id)
    | ReproductionEventObj(id: Id)
    | FinancialEntryObj(id: Id)
    | StockItemObj(id: Id)
    | StockMovementObj(id: Id)

  /** The outcomes of a request that does not succeed. */
  datatype ApiError =
    | NotAuthenticated   // has_permission refused an anonymous caller
    | PermissionDenied   // 403
    | NotFound           // 404: not in the caller's scoped query set
    | BadRequest         // 400: a missing parameter or a payload that does not validate
    | ServerError        // 500: an uncaught exception in the view

  /**
   * The `lot` attribute of the objects that have one, for the final branch of
   * `get_enterprise_from_obj`: None when the object has no such attribute or the key is null.
   */
  function LotAttribute(s: Store, o: Obj): Option<Id> {
    match o
    case DailyRecordObj(id) => (match Find(s.records, id) case Some(r) => Some(r.data.lot) case None => None)
    case HealthEventObj(id) => (match Find(s.healthEvents, id) case Some(r) => Some(r.data.lot) case None => None)
    case ReproductionEventObj(id) => (match Find(s.reproductionEvents, id) case Some(r) => Some(r.data.lot) case None => None)
    case FinancialEntryObj(id) => (match Find(s.entries, id) case Some(r) => r.data.lot case None => None)
    case StockMovementObj(id) => (match Find(s.movements, id) case Some(r) => r.data.lot case None => None)
    case _ => None
  }

  /**
   * `get_enterprise_from_obj`: objects with an `enterprise` attribute (Farm, Membership) give it;
   * Unit, Lot and StockItem walk their fixed chains; anything else with a non-null `lot` walks
   * `lot.unit.farm.enterprise`; every other object (an Enterprise itself included) gives None.
   */
  function EnterpriseOf(s: Store, o: Obj): Option<Id> {
    match o
    case FarmObj(id) => FarmEnterprise(s, id)
    case MembershipObj(id) => (match Find(s.memberships, id) case Some(m) => Some(m.data.enterprise) case None => None)
    case UnitObj(id) => UnitEnterprise(s, id)
    case LotObj(id) => LotEnterprise(s, id)
    case StockItemObj(id) => StockItemEnterprise(s, id)
    case _ =>
      match LotAttribute(s, o)
      case Some(l) => LotEnterprise(s, l)
      case None => None
  }

  /** Whether the object's row is stored (in any soft-delete state). */
  predicate Stored(s: Store, o: Obj) {
    match o
    case EnterpriseObj(id) => id in Ids(s.enterprises)
    case FarmObj(id) => id in Ids(s.farms)
    case MembershipObj(id) => id in Ids(s.memberships)
    case BreedingTypeObj(id) => id in BreedingTypeIds(s.breedingTypes)
    case SpeciesObj(id) => id in SpeciesIds(s.species)
    case UnitObj(id) => id in Ids(s.units)
    case LotObj(id) => id in Ids(s.lots)
    case DailyRecordObj(id) => id in Ids(s.records)
    case HealthEventObj(id) => id in Ids(s.healthEvents)
    case ReproductionEventObj(id) => id in Ids(s.reproductionEvents)
    case FinancialEntryObj(id) => id in Ids(s.entries)
    case StockItemObj(id) => id in Ids(s.stockItems)
    case StockMovementObj(id) => id in Ids(s.movements)
  }

  /** The kinds whose `get_enterprise_from_obj` never depends on a nullable key. */
  predicate AlwaysOwned(o: Obj) {
    o.FarmObj? || o.MembershipObj? || o.UnitObj? || o.LotObj? || o.StockItemObj? ||
    o.DailyRecordObj? || o.HealthEventObj? || o.ReproductionEventObj?
  }

  /**
   * In a consistent store, a stored object resolves to a stored enterprise exactly when it is of a
   * kind with a fixed chain, or it is a financial entry or stock movement whose `lot` is set.
   * Enterprises, species and breeding types never resolve.
   */
  lemma EnterpriseOfResolves(s: Store, o: Obj)
    requires RefsOk(s) && EventRefsOk(s) && Stored(s, o)
    ensures EnterpriseOf(s, o).Some? <==> AlwaysOwned(o) || LotAttribute(s, o).Some?
    ensures EnterpriseOf(s, o).Some? ==> EnterpriseOf(s, o).value in Ids(s.enterprises)
  {
    match o
    case FarmObj(id) => FarmResolves(s, id);
    case MembershipObj(id) => MembershipResolves(s, id);
    case UnitObj(id) => UnitResolves(s, id);
    case LotObj(id) => LotResolves(s, id);
    case StockItemObj(id) => StockItemResolves(s, id);
    case _ => LotAttributeResolves(s, o);
  }

  lemma MembershipResolves(s: Store, id: Id)
    requires RefsOk(s) && id in Ids(s.memberships)
    ensures EnterpriseOf(s, MembershipObj(id)).Some? && EnterpriseOf(s, MembershipObj(id)).value in Ids(s.enterprises)
  {
    var m := Find(s.memberships, id).value;
    var k :| 0 <= k < |s.memberships| && s.memberships[k] == m;
  }

  /** A set lot key walks up to a stored enterprise. */
  ghost predicate LotLeadsToEnterprise(s: Store, l: Option<Id>) {
    l.Some? ==> LotEnterprise(s, l.value).Some? && LotEnterprise(s, l.value).value in Ids(s.enterprises)
  }

  /** The objects reached through their `lot`: a set lot always leads to a stored enterprise. */
  lemma LotAttributeResolves(s: Store, o: Obj)
    requires RefsOk(s) && EventRefsOk(s) && Stored(s, o)
    requires !(o.FarmObj? || o.MembershipObj? || o.UnitObj? || o.LotObj? || o.StockItemObj?)
    ensures (o.DailyRecordObj? || o.HealthEventObj? || o.ReproductionEventObj?) ==> LotAttribute(s, o).Some?
    ensures LotLeadsToEnterprise(s, LotAttribute(s, o))
  {
    match o {
      case DailyRecordObj(id) => RecordLotResolves(s, id);
      case HealthEventObj(id) => HealthLotResolves(s, id);
      case ReproductionEventObj(id) => ReproductionLotResolves(s, id);
      case FinancialEntryObj(id) => EntryLotResolves(s, id);
      case StockMovementObj(id) => MovementLotResolves(s, id);
      case _ =>
    }
  }

  lemma RecordLotResolves(s: Store, id: Id)
    requires RefsOk(s) && id in Ids(s.records)
    ensures LotAttribute(s, DailyRecordObj(id)).Some?
    ensures LotLeadsToEnterprise(s, LotAttribute(s, DailyRecordObj(id)))
  {
    var k := IndexOf(s.records, id);
    var r := s.records[k];
    assert LotAttribute(s, DailyRecordObj(id)) == Some(r.data.lot);
    LotResolves(s, r.data.lot);
  }

  lemma HealthLotResolves(s: Store, id: Id)
    requires RefsOk(s) && id in Ids(s.healthEvents)
    ensures LotAttribute(s, HealthEventObj(id)).Some?
    ensures LotLeadsToEnterprise(s, LotAttribute(s, HealthEventObj(id)))
  {
    var k := IndexOf(s.healthEvents, id);
    var r := s.healthEvents[k];
    assert LotAttribute(s, HealthEventObj(id)) == Some(r.data.lot);
    LotResolves(s, r.data.lot);
  }

  lemma ReproductionLotResolves(s: Store, id: Id)
    requires RefsOk(s) && EventRefsOk(s) && id in Ids(s.reproductionEvents)
    ensures LotAttribute(s, ReproductionEventObj(id)).Some?
    ensures LotLeadsToEnterprise(s, LotAttribute(s, ReproductionEventObj(id)))
  {
    var k := IndexOf(s.reproductionEvents, id);
    var r := s.reproductionEvents[k];
    assert LotAttribute(s, ReproductionEventObj(id)) == Some(r.data.lot);
    LotResolves(s, r.data.lot);
  }

  lemma EntryLotResolves(s: Store, id: Id)
    requires RefsOk(s) && EventRefsOk(s) && id in Ids(s.entries)
    ensures LotLeadsToEnterprise(s, LotAttribute(s, FinancialEntryObj(id)))
  {
    var k := IndexOf(s.entries, id);
    var r := s.entries[k];
    assert LotAttribute(s, FinancialEntryObj(id)) == r.data.lot;
    if r.data.lot.Some? { LotResolves(s, r.data.lot.value); }
  }

  lemma MovementLotResolves(s: Store, id: Id)
    requires RefsOk(s) && id in Ids(s.movements)
    ensures LotLeadsToEnterprise(s, LotAttribute(s, StockMovementObj(id)))
  {
    var k := IndexOf(s.movements, id);
    var r := s.movements[k];
    assert LotAttribute(s, StockMovementObj(id)) == r.data.lot;
    if r.data.lot.Some? { LotResolves(s, r.data.lot.value); }
  }

  /**
   * A stock movement and a financial entry resolve through their lot only: the stock item of a
   * movement and the farm of an entry are never consulted, so a null lot gives None.
   */
  lemma LotOnlyForMovementsAndEntries(s: Store, id: Id)
    ensures Find(s.movements, id).Some? ==>
      EnterpriseOf(s, StockMovementObj(id)) ==
        (match Find(s.movements, id).value.data.lot case None => None case Some(l) => LotEnterprise(s, l))
    ensures Find(s.entries, id).Some? ==>
      EnterpriseOf(s, FinancialEntryObj(id)) ==
        (match Find(s.entries, id).value.data.lot case None => None case Some(l) => LotEnterprise(s, l))
    ensures EnterpriseOf(s, EnterpriseObj(id)) == None
    ensures EnterpriseOf(s, SpeciesObj(id)) == None && EnterpriseOf(s, BreedingTypeObj(id)) == None
  {
    if Find(s.movements, id).Some? {
      assert LotAttribute(s, StockMovementObj(id)) == Find(s.movements, id).value.data.lot;
    }
    if Find(s.entries, id).Some? {
      assert LotAttribute(s, FinancialEntryObj(id)) == Find(s.entries, id).value.data.lot;
    }
  }

  /** Whether `u` has an alive membership row in enterprise `e`. */
  predicate HasAliveMembership(s: Store, u: UserId, e: Id) {
    exists i | 0 <= i < |s.memberships| ::
      !s.memberships[i].isDeleted && s.memberships[i].data.user == u && s.memberships[i].data.enterprise == e
  }

  /** Whether `u` is the owner recorded on the stored enterprise `e`. */
  predicate IsOwner(s: Store, u: UserId, e: Id) {
    match Find(s.enterprises, e)
    case Some(ent) => ent.data.owner == u
    case None => false
  }

  /** `Membership.objects.filter(user=u, enterprise=e, is_deleted=False).first()`, as its role. */
  function FirstAliveMembershipRole(ms: seq<Row<Membership>>, u: UserId, e: Id): (r: Option<Role>)
    ensures r.Some? ==> exists i :: 0 <= i < |ms| && !ms[i].isDeleted && ms[i].data.user == u &&
                                    ms[i].data.enterprise == e && ms[i].data.role == r.value
    ensures r.None? ==> forall i :: 0 <= i < |ms| ==> !(!ms[i].isDeleted && ms[i].data.user == u && ms[i].data.enterprise == e)
  {
    if ms == [] then None
    else if !ms[0].isDeleted && ms[0].data.user == u && ms[0].data.enterprise == e then Some(ms[0].data.role)
    else
      var r := FirstAliveMembershipRole(ms[1..], u, e);
      assert r.Some? ==> exists i :: 1 <= i < |ms| && !ms[i].isDeleted && ms[i].data.user == u &&
                                     ms[i].data.enterprise == e && ms[i].data.role == r.value by {
        if r.Some? {
          var i :| 0 <= i < |ms[1..]| && !ms[1..][i].isDeleted && ms[1..][i].data.user == u &&
                   ms[1..][i].data.enterprise == e && ms[1..][i].data.role == r.value;
          assert ms[i + 1] == ms[1..][i];
        }
      }
      assert r.None? ==> forall i :: 1 <= i < |ms| ==> !(!ms[i].isDeleted && ms[i].data.user == u && ms[i].data.enterprise == e) by {
        if r.None? {
          forall i | 1 <= i < |ms| ensures !(!ms[i].isDeleted && ms[i].data.user == u && ms[i].data.enterprise == e) {
            assert ms[i] == ms[1..][i - 1];
          }
        }
      }
      r
  }

  /**
   * `user_role_in_enterprise`: None without an enterprise or for an anonymous caller; `owner`
   * when the caller is the enterprise's owner; otherwise the role of the caller's alive
   * membership, None when there is none.
   */
  function RoleIn(s: Store, c: Caller, e: Option<Id>): Option<Role> {
    if e.None? || c.Anonymous? then None
    else if IsOwner(s, c.user, e.value) then Some(Owner)
    else FirstAliveMembershipRole(s.memberships, c.user, e.value)
  }

  /** Whether the caller has any standing in `e`: owner of it, or holder of an alive membership in it. */
  predicate HasStanding(s: Store, u: UserId, e: Id) {
    IsOwner(s, u, e) || HasAliveMembership(s, u, e)
  }

  /** No enterprise, or no authenticated caller, means no role. */
  lemma RoleNeedsEnterpriseAndUser(s: Store, c: Caller, e: Option<Id>)
    ensures e.None? ==> RoleIn(s, c, e) == None
    ensures c.Anonymous? ==> RoleIn(s, c, e) == None
  {
  }

  /** Ownership wins over any membership row, whatever its role or flag. */
  lemma OwnerBeatsMembership(s: Store, u: UserId, e: Id)
    requires IsOwner(s, u, e)
    ensures RoleIn(s, Authenticated(u), Some(e)) == Some(Owner)
  {
  }

  /**
   * For a non-owner the role is exactly the role of the caller's alive membership (the uniqueness
   * of (user, enterprise) makes it the only one); a soft-deleted membership grants nothing.
   */
  lemma RoleFromMembership(s: Store, u: UserId, e: Id, r: Role)
    requires MembershipsUnique(s) && !IsOwner(s, u, e)
    ensures RoleIn(s, Authenticated(u), Some(e)) == Some(r) <==>
      exists i :: 0 <= i < |s.memberships| && !s.memberships[i].isDeleted && s.memberships[i].data.user == u &&
                  s.memberships[i].data.enterprise == e && s.memberships[i].data.role == r
    ensures RoleIn(s, Authenticated(u), Some(e)) == None <==> !HasAliveMembership(s, u, e)
  {
    var got := FirstAliveMembershipRole(s.memberships, u, e);
    if exists i :: 0 <= i < |s.memberships| && !s.memberships[i].isDeleted && s.memberships[i].data.user == u &&
                   s.memberships[i].data.enterprise == e && s.memberships[i].data.role == r {
      var i :| 0 <= i < |s.memberships| && !s.memberships[i].isDeleted && s.memberships[i].data.user == u &&
               s.memberships[i].data.enterprise == e && s.memberships[i].data.role == r;
      var j :| 0 <= j < |s.memberships| && !s.memberships[j].isDeleted && s.memberships[j].data.user == u &&
               s.memberships[j].data.enterprise == e && s.memberships[j].data.role == got.value;
      assert s.memberships[i] in s.memberships && s.memberships[j] in s.memberships;
    }
  }

  /** A caller holds some role exactly when it has standing in the enterprise. */
  lemma RoleIffStanding(s: Store, u: UserId, e: Id)
    ensures RoleIn(s, Authenticated(u), Some(e)).Some? <==> HasStanding(s, u, e)
  {
  }

  /** `IsEnterpriseMember.has_permission`: only authentication is required at the view level. */
  predicate HasPermission(c: Caller) {
    c.Authenticated?
  }

  /**
   * `IsEnterpriseMember.has_object_permission`: the object must resolve to an enterprise in which
   * the caller holds some role; any role, `user` included, passes.
   */
  predicate HasObjectPermission(s: Store, c: Caller, o: Obj) {
    EnterpriseOf(s, o).Some? && RoleIn(s, c, EnterpriseOf(s, o)).Some?
  }

  /** Object permission holds iff the caller is authenticated and has standing in the object's enterprise. */
  lemma ObjectPermissionIff(s: Store, c: Caller, o: Obj)
    ensures HasObjectPermission(s, c, o) <==>
      c.Authenticated? && EnterpriseOf(s, o).Some? && HasStanding(s, c.user, EnterpriseOf(s, o).value)
    ensures EnterpriseOf(s, o).None? ==> !HasObjectPermission(s, c, o)
  {
    if c.Authenticated? && EnterpriseOf(s, o).Some? {
      RoleIffStanding(s, c.user, EnterpriseOf(s, o).value);
    }
  }
}
