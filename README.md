# Farm management backend: tenancy, soft delete and stock ledger, in Dafny

This project models the core of a multi-tenant farm-management system:

- a Django REST backend in which enterprises own farms, farms hold units, units hold lots of animals, and lots carry daily records, health events and reproduction events;
- the stock items of each farm, whose quantity moves with stock movements;
- the financial entries behind a farm dashboard;
- the browser's offline retry queue;
- the in-memory farm repository of a second (Express) backend.

The database is one value, `Tenancy.Store`, with one table per model. Each table is a sequence of rows in primary-key order. Operations that the ORM performs as statements become functions from store to store. The three pieces of code that mutate objects in place are classes:

- a soft-delete table, `SoftDelete.Table`;
- the offline queue service, `OfflineQueue.OfflineQueueService`;
- the in-memory repository, `FarmRepository.InMemoryFarmRepository`.

The request handling is a class too: `Api.Backend`, one database changed by accepted requests.

What is modelled:

- **Soft delete** (`SoftDelete`). Every model row carries `is_deleted`/`deleted_at`. An instance `delete()` only flags the row, and `restore()` clears the flag. The query-set `delete()`/`restore()` are bulk updates. `hard_delete()` removes rows. The manager `objects` sees alive rows, `all_objects` every row.
- **Tenancy** (`Tenancy`). These are the entities of `apps/core/models.py`, with their foreign keys, `unique_together` constraints and choice sets. They have the `breeding_type` keys that migrations 0004 and 0006 add. Migration 0006 makes them required on species and units. Migration 0004 makes a unit's species nullable.
- **Hard delete** (`HardDelete`). These are the `on_delete` rules. CASCADE removes children, soft-deleted rows included. SET_NULL on a stock movement's lot keeps the movement with no lot. PROTECT refuses to delete a species or breeding type that is still referenced.
- **Permissions** (`Permissions`):
  - `get_enterprise_from_obj` walks each object's parent chain;
  - `user_role_in_enterprise` makes the owner win over a membership and ignores soft-deleted memberships;
  - `IsEnterpriseMember` grants the object permission to any role.
- **Views** (`Views`, `Dashboard`):
  - the enterprise scope of `BaseMemberViewSet` and the query-parameter filters of every viewset;
  - the write-role check of `perform_create`/`perform_update`/`perform_destroy` and the payload-enterprise derivation of `_enterprise_from_serializer`;
  - the `get_object` visibility and the DELETE decision;
  - `DashboardSummaryView.get`, including its grouping, gain and margin loops.
- **Serializers** (`Serializers`):
  - `EnterpriseSerializer.create` makes the caller the owner and runs `get_or_create` on the owner membership;
  - `LotSerializer.validate` checks the breeding types;
  - `StockMovementSerializer.create` applies the movement to the item's quantity, with no floor;
  - each serializer's writable and read-only fields.
- **Offline queue** (`OfflineQueue`). Enqueueing is modelled with a timestamp, zero retries and the pending status. Then come the pending selection (pending and failed actions, oldest first), one action's processing and its retry counting up to 3, the queue run, the cleanup that keeps the 50 newest completed actions, clearing, and retrying failed actions. The IndexedDB object store behind it is a key-ordered sequence with an auto-increment key generator.
- **In-memory farm repository** (`FarmRepository`): find, create (whose id is the clock in decimal), update by overlay, and delete by splice.

`Api.Backend` composes the pieces. A request's decision comes first, and only an accepted request changes the store. The class invariant is that the store keeps its keys distinct, its references stored and its uniqueness constraints.

Where the code and its documents disagree, the model follows the code:

- A stock movement's quantity is not checked for positivity. An `out` movement can drive a stock item negative (`Serializers.LedgerExamples`).
- The dashboard's seven-day and thirty-day windows are `date >= today - 7` and `date >= today - 30`, with no upper bound.
- `get_enterprise_from_obj` resolves a stock movement and a financial entry through their `lot` only. An enterprise resolves to nothing, so an enterprise can never be deleted through the API (`Views.EnterpriseNeverDestroyed`).
- The list scope counts memberships whose enterprise is soft-deleted, but owned enterprises only when alive. The owner of a soft-deleted enterprise still holds the `owner` role (`Views.DeletedOwnedOutsideScope`).
- Actions that exhausted their retries (status `failed`) are still selected for processing by `getPendingActions`.
- `apps/core/models.py` has no BreedingType model and no `breeding_type` fields. The serializers import and use them and migrations 0004 and 0006 create them, so the model follows the migrations.

Clocks, UUID generation, the HTTP outcome of an offline request and `navigator.onLine` are parameters of the operations that use them.

## Model

| member | source | states |
|---|---|---|
| SoftDelete.NewRow | backend_django/apps/common/models.py:13-15 | a new row is alive with no `deleted_at`, and both timestamps come from the one clock reading passed in; such a row is what SoftDelete.RestoreUndoesDelete gives back |
| SoftDelete.MarkDeleted | backend_django/apps/common/models.py:64-67 | an instance delete sets the flag, stamps `deleted_at` and `updated_at` from the one clock reading passed in, and keeps the key, `created_at` and the fields; SoftDelete.DeleteTwiceRestamps and SoftDelete.DeleteByIdEffect state what this means for the table |
| SoftDelete.Unmarked | backend_django/apps/common/models.py:72-75 | restore clears the flag and the stamp, refreshes `updated_at`, and keeps everything else, so that it undoes an instance delete (SoftDelete.RestoreUndoesDelete) |
| SoftDelete.RestoreUndoesDelete | backend_django/apps/common/models.py:64-75 | delete then restore gives back the alive row, except for its `updated_at` |
| SoftDelete.DeleteTwiceRestamps | backend_django/apps/common/models.py:64-67 | a second delete overwrites the first `deleted_at` |
| SoftDelete.SaveRow | backend_django/apps/common/models.py:67 | `save()` rewrites only the position holding the row's key |
| SoftDelete.SaveRowShape | backend_django/apps/common/models.py:67 | saving keeps the key set, keeps keys distinct, and replaces exactly the row with that key |
| SoftDelete.SaveRowKeepsUnique | backend_django/apps/common/models.py:67 | re-saving a row whose unique fields are unchanged keeps the `unique_together` constraint |
| SoftDelete.DeleteByIdEffect | backend_django/apps/common/models.py:64-67 | an instance delete keeps every row, key and field; only the target row becomes deleted, and every other key finds what it found before |
| SoftDelete.DeleteByIdKeepsUnique | backend_django/apps/common/models.py:64-67 | an instance delete keeps every uniqueness constraint |
| SoftDelete.DeleteByIdShape | backend_django/apps/common/models.py:64-67 | an instance delete changes only stamps and flags |
| SoftDelete.SameShapeKeeps | backend_django/apps/common/models.py:64-75 | changing only flags and stamps keeps keys distinct and every uniqueness constraint |
| SoftDelete.AliveDeletedPartition | backend_django/apps/common/models.py:28-32 | every row is in exactly one of `alive()` and `deleted()`, according to its flag |
| SoftDelete.BulkDeleteKeepsRows | backend_django/apps/common/models.py:22-23 | a query-set delete keeps every row and key; it flags and stamps the selected rows and leaves the others unchanged |
| SoftDelete.BulkDeleteHidesSelected | backend_django/apps/common/models.py:22-29 | after a query-set delete, no selected row is alive |
| SoftDelete.BulkRestoreUndoesDelete | backend_django/apps/common/models.py:22-35 | a query-set restore undoes a query-set delete of alive rows exactly |
| SoftDelete.BulkHardDeleteRemoves | backend_django/apps/common/models.py:25-26 | a query-set hard delete removes exactly the selected keys and keeps every other row |
| SoftDelete.ManagerViews | backend_django/apps/common/models.py:38-45 | `objects` sees exactly the alive rows, `all_objects` every row |
| SoftDelete.ManagerScopes | backend_django/apps/common/models.py:47-51 | `objects.restore()` changes no flag; `objects.hard_delete()` leaves exactly the deleted rows; `all_objects.restore()` revives every row |
| SoftDelete.Table.Delete | backend_django/apps/common/models.py:64-67 | the stored row with that key is replaced by its deleted version; the table invariant is kept |
| SoftDelete.Table.Restore | backend_django/apps/common/models.py:72-75 | the stored row with that key is replaced by its restored version |
| SoftDelete.Table.HardDelete | backend_django/apps/common/models.py:69-70 | the row with that key is physically removed |
| SoftDelete.Table.QuerySetDelete | backend_django/apps/common/models.py:22-23 | bulk soft delete of the selection; returns the number of matched rows |
| SoftDelete.Table.QuerySetRestore | backend_django/apps/common/models.py:34-35 | bulk restore of the selection; returns the number of matched rows |
| SoftDelete.Table.QuerySetHardDelete | backend_django/apps/common/models.py:25-26 | bulk removal of the selection from this table; returns the number of this table's removed rows (the cascade to other tables is in HardDelete) |
| SoftDelete.Table.ManagerHardDeleteAll | backend_django/apps/common/models.py:47-48 | a manager's hard delete removes exactly that manager's rows from this table, and returns their number |
| SoftDelete.Table.ManagerRestoreAll | backend_django/apps/common/models.py:50-51 | a manager's restore updates exactly that manager's rows, and returns the number of rows the update matched |
| Tenancy.FarmResolves | backend_django/apps/core/models.py:17-18 | in a consistent store, every farm leads to a stored enterprise |
| Tenancy.UnitResolves | backend_django/apps/core/models.py:56-57 | every unit leads, through its farm, to a stored enterprise |
| Tenancy.LotResolves | backend_django/apps/core/models.py:69-75 | every lot leads to a stored farm and enterprise, and the two chains agree |
| Tenancy.StockItemResolves | backend_django/apps/core/models.py:143 | every stock item leads, through its farm, to a stored enterprise |
| Tenancy.UniqueTogether | backend_django/apps/core/models.py:39-153 | no two rows share a (user, enterprise), (unit, code), (lot, date) or (farm, name), and no two species and no two breeding types (the `unique=True` code of migration 0004) share a code, whatever their soft-delete flags |
| Permissions.EnterpriseOfResolves | backend_django/apps/core/permissions.py:6-19 | an object resolves to an enterprise exactly when its kind has a fixed chain or its `lot` is set, and the result is a stored enterprise |
| Permissions.MembershipResolves | backend_django/apps/core/permissions.py:7-8 | a membership resolves through its own `enterprise` attribute |
| Permissions.LotAttributeResolves | backend_django/apps/core/permissions.py:17-18 | records and events of a lot always have a lot, and any set lot leads to a stored enterprise |
| Permissions.RecordLotResolves | backend_django/apps/core/permissions.py:17-18 | a daily record's lot is set and leads to a stored enterprise |
| Permissions.HealthLotResolves | backend_django/apps/core/permissions.py:17-18 | a health event's lot is set and leads to a stored enterprise |
| Permissions.ReproductionLotResolves | backend_django/apps/core/permissions.py:17-18 | a reproduction event's lot is set and leads to a stored enterprise |
| Permissions.EntryLotResolves | backend_django/apps/core/permissions.py:17-18 | a financial entry's lot, when set, leads to a stored enterprise |
| Permissions.MovementLotResolves | backend_django/apps/core/permissions.py:17-18 | a stock movement's lot, when set, leads to a stored enterprise |
| Permissions.LotOnlyForMovementsAndEntries | backend_django/apps/core/permissions.py:6-19 | movements and entries resolve only through the lot; enterprises, species and breeding types resolve to nothing |
| Permissions.FirstAliveMembershipRole | backend_django/apps/core/permissions.py:27-28 | the role found belongs to an alive membership of that user and enterprise; none is found exactly when no such membership exists |
| Permissions.RoleNeedsEnterpriseAndUser | backend_django/apps/core/permissions.py:23-24 | there is no role without an enterprise or for an anonymous caller |
| Permissions.OwnerBeatsMembership | backend_django/apps/core/permissions.py:25-26 | the owner's role is `owner` whatever their memberships are |
| Permissions.RoleFromMembership | backend_django/apps/core/permissions.py:27-28 | a non-owner's role is exactly their alive membership's role; a soft-deleted membership gives no role |
| Permissions.RoleIffStanding | backend_django/apps/core/permissions.py:22-28 | a caller has some role exactly when they own the enterprise or hold an alive membership in it |
| Permissions.ObjectPermissionIff | backend_django/apps/core/permissions.py:37-41 | object permission holds exactly when the object resolves to an enterprise in which the caller has standing |
| Sorting.SortBySorted | frontend_backup/src/shared/services/offline/queue.ts:50 | the sort orders its result by the key |
| Sorting.SortByPermutes | frontend_backup/src/shared/services/offline/queue.ts:50 | the sort is a permutation |
| Sorting.SortByStable | frontend_backup/src/shared/services/offline/queue.ts:50 | the sort is stable: elements with one key keep their relative order |
| Views.ScopeIff | backend_django/apps/core/views.py:29-31 | an enterprise is in scope exactly when the caller holds an alive membership in it, or owns it and it is alive |
| Views.ScopeGivesStanding | backend_django/apps/core/views.py:25-33 | the caller has a role in every enterprise in their scope |
| Views.DeletedOwnedOutsideScope | backend_django/apps/core/views.py:29-31 | the owner of a soft-deleted enterprise who has no alive membership in it has no scope there but still holds the `owner` role |
| Views.ListFarms | backend_django/apps/core/views.py:92-100 | the listing is exactly the alive farms of scoped enterprises that match the `enterprise_id` filter |
| Views.ListUnits | backend_django/apps/core/views.py:113-124 | exactly the alive, scoped units that match the farm and species-code filters |
| Views.ListLots | backend_django/apps/core/views.py:131-148 | exactly the alive, scoped lots that match the unit, farm, species-code and status filters |
| Views.ListRecords | backend_django/apps/core/views.py:155-169 | exactly the alive, scoped records that match the lot filter and the inclusive date range |
| Views.ListHealthEvents | backend_django/apps/core/views.py:176-184 | exactly the alive, scoped health events that match the lot filter |
| Views.ListReproductionEvents | backend_django/apps/core/views.py:191-199 | exactly the alive, scoped reproduction events that match the lot filter |
| Views.ListEntries | backend_django/apps/core/views.py:206-217 | exactly the alive entries whose farm is scoped and that match the farm and lot filters |
| Views.ListStockItems | backend_django/apps/core/views.py:224-232 | exactly the alive items whose farm is scoped and that match the farm filter |
| Views.ListMovements | backend_django/apps/core/views.py:239-250 | exactly the alive movements whose stock item is scoped and that match the item and farm filters |
| Views.ListEnterprises | backend_django/apps/core/views.py:80-85 | each alive enterprise the caller owns or holds an alive membership in, and no two listed rows with the same id |
| Views.NoLeak | backend_django/apps/core/views.py:25-33 | with any filters, no listing shows a non-member any row of an enterprise |
| Views.EnterpriseListingIsStanding | backend_django/apps/core/views.py:80-85 | an enterprise is listed exactly when it is alive and the caller has standing in it |
| Views.UnitInScopeReadable | backend_django/apps/core/views.py:113-114 | a unit in scope passes the object permission |
| Views.LotInScopeReadable | backend_django/apps/core/views.py:131-132 | a lot in scope passes the object permission |
| Views.ListedUnitsAndLotsReadable | backend_django/apps/core/views.py:22-33 | every listed unit and lot can be read as an object |
| Views.MovementWithoutLotUnowned | backend_django/apps/core/permissions.py:17-19 | a movement without a lot never passes the object permission |
| Views.ListedMovementWithoutLotUnreadable | backend_django/apps/core/views.py:239-240 | a listed movement without a lot cannot be retrieved, updated or deleted |
| Views.PayloadEnterpriseCases | backend_django/apps/core/views.py:62-73 | the first present key decides the payload enterprise; it is none exactly when no key is present, and it fails exactly when the first present key is a null `lot` |
| Views.PayloadEnterprise | backend_django/apps/core/views.py:62-73 | the first present key decides; a null `enterprise` or no key gives none, a named `enterprise` gives itself, and a null value under any later key is a server error |
| Views.CheckCreate | backend_django/apps/core/views.py:44-48 | as written: passes exactly when the payload enterprise derives and is none or writable by the caller; a derived enterprise without a write role gets a 403 |
| Views.CheckUpdate | backend_django/apps/core/views.py:50-54 | as written: a failed derivation is a server error, a named enterprise is checked as on create, and without one the stored object's enterprise is checked as on delete |
| Views.CheckDestroy | backend_django/apps/core/views.py:56-60 | passes exactly when the stored object resolves to no enterprise or the caller is owner or admin there; otherwise a 403 |
| Views.EnsureWriteRole | backend_django/apps/core/views.py:38-42 | the check passes exactly for `owner` and `admin`, and otherwise refuses with a 403 |
| Views.CheckedEnterprise | backend_django/apps/core/views.py:44-60 | create checks the payload's enterprise; update checks it and falls back to the stored object's; destroy checks the stored object's; there is no check without an enterprise |
| Views.UserRoleCannotCreateLot | backend_django/apps/core/views.py:44-48 | a member with the `user` role is refused when creating a lot in a unit of their enterprise |
| Views.CheckCreateAll | backend_django/apps/core/views.py:44-48 | corrected create check: passes exactly when the caller may write in every enterprise the payload reaches |
| Views.CheckUpdateAll | backend_django/apps/core/views.py:50-54 | corrected update check: the payload's enterprises and the stored object's enterprise all need a write role |
| Views.CheckAllRefines | backend_django/apps/core/views.py:44-54 | the corrected checks consult the written check's enterprise and accept nothing the written check refuses |
| Views.MovementLotShadowsStockItem | backend_django/apps/core/views.py:69-72 | as written, a movement payload is checked against its lot's enterprise only, so a foreign stock item passes; the corrected check refuses it |
| Views.NullLotMovementFails | backend_django/apps/core/views.py:69-70 | as written, a null `lot` is dereferenced and fails with a server error; the corrected check decides on the stock item |
| Views.UpdateMovesOutUnchecked | backend_django/apps/core/views.py:50-54 | as written, an update that moves a unit to another enterprise checks only the destination; the corrected check also checks the origin |
| Views.CheckAllGuardsTouched | backend_django/apps/core/views.py:44-54 | an accepted corrected check means the caller may write in every enterprise the write touches; an anonymous caller passes only when none is touched |
| Views.GetObject | backend_django/apps/core/views.py:22-33 | `IsAuthenticated` (401), then the scoped lookup (404), then `IsEnterpriseMember` (403); retrieval passes exactly when all three hold |
| Views.DestroyDecision | backend_django/apps/core/views.py:56-60 | a delete passes exactly when `get_object` and the written destroy check pass, reports `get_object`'s error first, and never answers 400 or 500 |
| Views.UpdateDecision | backend_django/apps/core/views.py:50-54 | uses the corrected Views.CheckUpdateAll, not the written check: passes exactly when `get_object`, payload validation and the corrected check pass, gives 400 on an invalid parent reference, and the permission check never gives a 500 (field validation is left out) |
| Views.CreateDecision | backend_django/apps/core/views.py:44-48 | uses the corrected Views.CheckCreateAll, not the written check: passes exactly when the caller is authenticated, the payload is valid and the corrected check passes; 401 for anonymous callers, 400 on an invalid parent reference, and the permission check never gives a 500 (field validation is left out) |
| Views.DestroyIff | backend_django/apps/core/views.py:56-60 | a delete succeeds exactly when the caller is authenticated, sees the object, and is owner or admin of its enterprise; otherwise it gets 401, 404 or 403 |
| Views.EnterpriseNeverDestroyed | backend_django/apps/core/permissions.py:37-40 | no caller can delete an enterprise, its owner included |
| Views.AcceptedWritesAreAuthorized | backend_django/apps/core/views.py:44-54 | an accepted update means the caller sees the object and may write both where it is and where it goes; a create is accepted exactly when its payload is valid and every reached enterprise is writable |
| Views.SameStoreShapeKeepsValid | backend_django/apps/common/models.py:64-75 | flag and stamp changes keep every schema guarantee of the store |
| Views.SoftDeleteKeepsValid | backend_django/apps/common/models.py:64-67 | the soft delete of one object keeps the store consistent |
| Views.SoftDeleteSparesOtherTables | backend_django/apps/common/models.py:64-67 | a soft delete does not cascade: every other table is unchanged |
| Views.SoftDeleteHidesRow | backend_django/apps/common/models.py:64-67 | after a soft delete the row is still stored but no longer alive |
| Serializers.LotValidateIff | backend_django/apps/core/serializers.py:70-76 | once the fields are valid, a lot is refused exactly when the unit's and species' breeding types (each falling back to the instance's) differ; an accepted payload comes back unchanged |
| Serializers.CreatedLotIsConsistent | backend_django/apps/core/serializers.py:70-76 | a created lot names an alive unit and a species of the same breeding type |
| Serializers.SpeciesOnlyUpdateUsesStoredUnit | backend_django/apps/core/serializers.py:71-72 | a species-only update is checked against the stored lot's unit |
| Serializers.GetOrCreateEffect | backend_django/apps/core/serializers.py:29 | afterwards an alive membership exists; an existing one is untouched; the call fails exactly when only a soft-deleted row holds the key |
| Serializers.GetOrCreateIdempotent | backend_django/apps/core/serializers.py:29 | a second `get_or_create` changes nothing |
| Serializers.CreateEnterpriseOwns | backend_django/apps/core/serializers.py:25-30 | the creator owns the new enterprise, holds the `owner` role, and has exactly one membership there, alive and with role `owner` |
| Serializers.CreateEnterpriseKeepsValid | backend_django/apps/core/serializers.py:25-30 | enterprise creation under fresh keys keeps the store consistent |
| Serializers.AppendEnterpriseKeepsValid | backend_django/apps/core/serializers.py:27 | inserting an enterprise under a fresh key keeps the store consistent |
| Serializers.AppendOwnerMembershipKeepsValid | backend_django/apps/core/serializers.py:29 | inserting the first membership of an enterprise keeps the store consistent |
| Serializers.LedgerBalance | backend_django/apps/core/serializers.py:128-131 | after a sequence of movements, the quantity is the start plus the inbound minus the outbound |
| Serializers.LedgerSigned | backend_django/apps/core/serializers.py:128-131 | the quantity is the start plus the signed movements |
| Serializers.LedgerOrderIndependent | backend_django/apps/core/serializers.py:125-133 | the final quantity does not depend on the order of the movements |
| Serializers.LedgerAppend | backend_django/apps/core/serializers.py:125-133 | movements compose: applying `a` then `b` is applying `a + b` |
| Serializers.LedgerExamples | backend_django/apps/core/serializers.py:130-131 | 10 minus an `out` of 3 is 7, and an `out` larger than the stock goes negative |
| Serializers.CreateMovementEffect | backend_django/apps/core/serializers.py:125-133 | creation succeeds exactly when the references are alive; it appends the movement, moves only the item's quantity, and changes nothing else |
| Serializers.CreateMovementMovesQuantity | backend_django/apps/core/serializers.py:127-132 | the item's new quantity is the ledger's next balance, and every other item's quantity is unchanged |
| Serializers.CreateMovementKeepsValid | backend_django/apps/core/serializers.py:125-133 | a created movement keeps the store consistent |
| Serializers.RestockKeepsValid | backend_django/apps/core/serializers.py:132 | rewriting an item's quantity keeps the store consistent |
| Serializers.AppendMovementKeepsValid | backend_django/apps/core/serializers.py:126 | inserting a movement with stored references keeps the store consistent |
| Serializers.StampsReadOnly | backend_django/apps/core/serializers.py:19-123 | every serializer exposes `id` and the timestamps but never accepts them |
| Serializers.OwnerReadOnly | backend_django/apps/core/serializers.py:22-23 | an enterprise's owner is shown but never writable |
| Serializers.SoftDeleteFlagsHidden | backend_django/apps/core/serializers.py:19-123 | no serializer exposes `is_deleted` or `deleted_at` |
| Serializers.WritableParentKeys | backend_django/apps/core/serializers.py:33-123 | parent keys and a stock item's `quantity` are writable |
| HardDelete.NullLots | backend_django/apps/core/models.py:169 | SET_NULL clears exactly the lots that were removed and keeps every movement and its stock item |
| HardDelete.CascadesClosed | backend_django/apps/core/models.py:9-165 | every cascade, starting from any table, is closed under the CASCADE rules |
| HardDelete.RemoveAllKeepsValid | backend_django/apps/core/models.py:18-169 | a closed removal keeps the store consistent |
| HardDelete.RemoveAllNullsLots | backend_django/apps/core/models.py:165-169 | a surviving movement keeps a surviving stock item, and its lot survives or is nulled |
| HardDelete.EnterpriseCascade | backend_django/apps/core/models.py:18-36 | hard-deleting an enterprise removes it and its farms and memberships, and the store stays consistent |
| HardDelete.LotCascade | backend_django/apps/core/models.py:92-119 | hard-deleting a lot removes its records and health events |
| HardDelete.LotDeleteNullsMovements | backend_django/apps/core/models.py:169 | hard-deleting a lot keeps every movement and clears the lot of the movements that pointed at it |
| HardDelete.DeleteSpecies | backend_django/apps/core/models.py:58-76 | PROTECT: a species delete is refused exactly when a unit or lot references the species, and otherwise removes only that species |
| HardDelete.DeleteSpeciesKeepsValid | backend_django/apps/core/models.py:58-76 | an accepted species delete keeps the store consistent and removes the key |
| HardDelete.DeleteBreedingType | backend_django/apps/core/migrations/0006_require_breeding_type.py:11-20 | PROTECT: a breeding-type delete is refused exactly when a species or unit references it |
| HardDelete.DeleteBreedingTypeKeepsValid | backend_django/apps/core/migrations/0006_require_breeding_type.py:11-20 | an accepted breeding-type delete keeps the store consistent and removes the key |
| HardDelete.HardDeleteObjKeepsValid | backend_django/apps/common/models.py:69-70 | only species and breeding types can be refused; an accepted hard delete keeps the store consistent and removes the object |
| HardDelete.UnprotectedDelete | backend_django/apps/common/models.py:69-70 | any other object is removed together with its cascade |
| Dashboard.AccessIff | backend_django/apps/core/views.py:257-269 | the dashboard answers exactly for an authenticated caller naming an alive farm that passes object permission; the only 400 is a missing `farm_id` |
| Dashboard.RatesGuarded | backend_django/apps/core/views.py:293-295 | each rate is 0 exactly when its denominator is 0, and otherwise scales the total |
| Dashboard.FirstSeenKeys | backend_django/apps/core/views.py:297-299 | the dict's keys are distinct and are exactly the keys that appear |
| Dashboard.GroupByLot | backend_django/apps/core/views.py:297-299 | each key maps to its lot's records in order, and keys come in order of first appearance |
| Dashboard.GroupsRunByDate | backend_django/apps/core/views.py:298 | each lot's group is sorted by date and holds exactly that lot's records |
| Dashboard.FirstAndLastByDate | backend_django/apps/core/views.py:307-308 | a group's first and last records bound the dates of all its records |
| Dashboard.Days | backend_django/apps/core/views.py:309 | the day span is the larger of 1 and the date difference |
| Dashboard.GainLoop | backend_django/apps/core/views.py:301-315 | the gain loop computes the fold of the per-lot gain steps |
| Dashboard.AddLotGain | backend_django/apps/core/views.py:305-315 | one lot adds nothing with fewer than two records, and adds weight only for a positive gain with a headcount |
| Dashboard.WeightGainNonNegative | backend_django/apps/core/views.py:314-315 | the total weight gain is never negative |
| Dashboard.GainLotsCounted | backend_django/apps/core/views.py:305-312 | the lots counted are exactly those with at least two records |
| Dashboard.FeedConversionIff | backend_django/apps/core/views.py:318 | the ratio is absent exactly when no weight was gained, and otherwise is feed over gain |
| Dashboard.MarginLoop | backend_django/apps/core/views.py:320-329 | the farm margin is the sum of signed amounts; each lot's entry is the sum over the entries naming it |
| Dashboard.LotMarginsCoverLotEntries | backend_django/apps/core/views.py:325-330 | the listed lot margins add up to the entries that name a lot |
| Dashboard.FarmMarginSplits | backend_django/apps/core/views.py:322-330 | the farm margin is the lot margins plus the entries without a lot |
| Dashboard.Get | backend_django/apps/core/views.py:256-351 | the response is the access decision followed by the summary over the farm's query sets |
| Dashboard.WindowsAndAlerts | backend_django/apps/core/views.py:275-334 | the active lots are no more than all lots; the week's records are exactly those dated from seven days ago; the alerts are exactly the alive items below their threshold |
| OfflineQueue.UpsertLookup | frontend_backup/src/shared/services/offline/queue.ts:89-92 | after a `put`, the key holds the new record and every other key is unchanged |
| OfflineQueue.UpsertTwice | frontend_backup/src/shared/services/offline/queue.ts:67-92 | a second `put` under the same key overwrites the first |
| OfflineQueue.RemoveOrdered | frontend_backup/src/shared/services/offline/queue.ts:175 | a `delete` keeps exactly the records under other keys, in order |
| OfflineQueue.SelectedSpec | frontend_backup/src/shared/services/offline/queue.ts:46-51 | the pending selection is exactly the pending and failed actions, sorted by timestamp, each once |
| OfflineQueue.Settle | frontend_backup/src/shared/services/offline/queue.ts:88-108 | success marks an action completed; failure adds a retry, records the error, and fails the action exactly at 3 retries |
| OfflineQueue.RetriesExhaust | frontend_backup/src/shared/services/offline/queue.ts:100-101 | a new action stays pending after two failures and is failed after the third |
| OfflineQueue.ProcessAllKeepsOthers | frontend_backup/src/shared/services/offline/queue.ts:142-147 | processing touches only the keys of the processed actions |
| OfflineQueue.ProcessAllSettles | frontend_backup/src/shared/services/offline/queue.ts:142-147 | each processed action ends settled by its own outcome |
| OfflineQueue.RunSettles | frontend_backup/src/shared/services/offline/queue.ts:132-153 | a queue run settles every selected action and leaves every other key unchanged |
| OfflineQueue.RemoveAllSpec | frontend_backup/src/shared/services/offline/queue.ts:173-177 | deleting a list keeps exactly the records whose key no listed action with a nonzero key has |
| OfflineQueue.RankedSpec | frontend_backup/src/shared/services/offline/queue.ts:165-171 | completed actions come newest first; at most 50 are kept (exactly 50 when there are that many), and the rest expire |
| OfflineQueue.ExpiredSparesUnfinished | frontend_backup/src/shared/services/offline/queue.ts:166-175 | cleanup never deletes an action that is not completed |
| OfflineQueue.CleanupKeeps | frontend_backup/src/shared/services/offline/queue.ts:164-182 | cleanup keeps exactly the actions that are not completed plus the 50 newest completed ones |
| OfflineQueue.CleanupKeepsNewest | frontend_backup/src/shared/services/offline/queue.ts:166-171 | every deleted completed action is no newer than every kept one |
| OfflineQueue.ResetFailed | frontend_backup/src/shared/services/offline/queue.ts:226-237 | failed actions become pending with zero retries and no error, and so get three fresh attempts; every other record is unchanged |
| OfflineQueue.OfflineQueueService.Enqueue | frontend_backup/src/shared/services/offline/queue.ts:28-41 | appends a pending action with the next key, 0 retries and the given time |
| OfflineQueue.OfflineQueueService.GetPendingActions | frontend_backup/src/shared/services/offline/queue.ts:46-51 | returns the pending selection |
| OfflineQueue.OfflineQueueService.GetPendingCount | frontend_backup/src/shared/services/offline/queue.ts:56-59 | returns the number of pending and failed actions |
| OfflineQueue.OfflineQueueService.ProcessAction | frontend_backup/src/shared/services/offline/queue.ts:64-112 | the action's key ends settled by the outcome; returns true exactly on success |
| OfflineQueue.OfflineQueueService.Cleanup | frontend_backup/src/shared/services/offline/queue.ts:164-182 | the store becomes the cleaned store, in key order |
| OfflineQueue.OfflineQueueService.ProcessQueue | frontend_backup/src/shared/services/offline/queue.ts:117-159 | skipped while already processing or offline; otherwise runs the queue and clears the flag |
| OfflineQueue.OfflineQueueService.ProcessEach | frontend_backup/src/shared/services/offline/queue.ts:142-147 | processes each pending action in turn, applying its own outcome |
| OfflineQueue.OfflineQueueService.ClearQueue | frontend_backup/src/shared/services/offline/queue.ts:217-221 | empties the store and keeps the key generator |
| OfflineQueue.OfflineQueueService.RetryFailed | frontend_backup/src/shared/services/offline/queue.ts:226-242 | resets failed actions, then runs the queue when allowed |
| OfflineQueue.OfflineQueueService.ResetFailedActions | frontend_backup/src/shared/services/offline/queue.ts:227-237 | the store becomes the store with failed actions reset |
| FarmRepository.DecimalStringInjective | backend/src/infrastructure/repositories/InMemoryFarmRepository.ts:19 | different clock readings give different ids |
| FarmRepository.IndexOf | backend/src/infrastructure/repositories/InMemoryFarmRepository.ts:28 | the first position holding the id, or none exactly when no farm has it |
| FarmRepository.Merge | backend/src/infrastructure/repositories/InMemoryFarmRepository.ts:31-35 | the patch wins field by field, and `updatedAt` is the clock; an empty patch only touches `updatedAt` (FarmRepository.EmptyPatchTouches) and an id-keeping patch stays findable (FarmRepository.UpdateThenFind) |
| FarmRepository.EmptyPatchTouches | backend/src/infrastructure/repositories/InMemoryFarmRepository.ts:31-35 | an empty patch only refreshes `updatedAt` |
| FarmRepository.InMemoryFarmRepository.FindAll | backend/src/infrastructure/repositories/InMemoryFarmRepository.ts:8-10 | returns the current contents |
| FarmRepository.InMemoryFarmRepository.FindById | backend/src/infrastructure/repositories/InMemoryFarmRepository.ts:12-14 | finds the first farm with that id, and finds none exactly when no farm has it |
| FarmRepository.InMemoryFarmRepository.Create | backend/src/infrastructure/repositories/InMemoryFarmRepository.ts:16-25 | appends a farm whose id is the clock in decimal and whose timestamps are the clock |
| FarmRepository.InMemoryFarmRepository.Update | backend/src/infrastructure/repositories/InMemoryFarmRepository.ts:27-37 | overlays the patch at the first match, or changes nothing and returns null |
| FarmRepository.InMemoryFarmRepository.Delete | backend/src/infrastructure/repositories/InMemoryFarmRepository.ts:39-45 | splices out the first match, or changes nothing and returns false |
| FarmRepository.CreateThenFind | backend/src/infrastructure/repositories/InMemoryFarmRepository.ts:12-25 | a created farm is found unless an earlier farm already holds its id |
| FarmRepository.SameInstantCollides | backend/src/infrastructure/repositories/InMemoryFarmRepository.ts:19 | two farms created at the same instant share an id, and lookups never reach the second |
| FarmRepository.UpdateThenFind | backend/src/infrastructure/repositories/InMemoryFarmRepository.ts:27-37 | an update that keeps the id is found at the same position |
| FarmRepository.DeleteThenFind | backend/src/infrastructure/repositories/InMemoryFarmRepository.ts:39-45 | after deleting a unique id, it is no longer found and one farm fewer remains |
| Api.AcceptedMovementIsCreatable | backend_django/apps/core/views.py:44-48 | a movement payload the create check accepts can be saved |
| Api.Backend.Destroy | backend_django/apps/core/views.py:56-60 | follows the delete decision; an accepted delete soft-deletes the one row, a refused one changes nothing, and consistency is kept |
| Api.Backend.CreateStockMovement | backend_django/apps/core/views.py:44-48 | follows the corrected create decision (Views.CreateDecision, with Views.CheckCreateAll in place of the written first-key check); an accepted create is the serializer's effect, a refused one changes nothing |
| Api.Backend.SaveMovement | backend_django/apps/core/serializers.py:125-133 | inserting the row and then saving the item's quantity is the serializer's effect, and consistency is kept |
| Api.Backend.CreateEnterprise | backend_django/apps/core/serializers.py:25-30 | an anonymous caller gets a 401; otherwise the enterprise is created and the caller's role there is `owner` |

## Left out

- HTTP routing, DRF serializer machinery, response rendering and status texts are left out. A request's outcome is modelled as `Ok` or one `ApiError` (400, 401, 403, 404 or 500).
- Users, authentication and JWT are left out. A caller is anonymous or an authenticated user key. `on_delete=CASCADE` from users is not modelled.
- The order of listings (`order_by('name')`, `-created_at`, `-date`) is left out. It depends on database collation and tie-breaking. Listings are stated as sets of rows.
- The `on_delete` rules of FinancialEntry and ReproductionEvent are not part of this model. Their migrations are not available. The hard-delete model therefore does not cover those two tables.
- The dashboard's `round(...)` and float conversions are left out. Decimals and floats are exact reals. `Dashboard.Get` states the values before rounding.
- Dashboard.Get does not model the order of financial entries, which is unspecified. The entries are taken in table order.
- Dashboard.Get does not model a `farm_id` that is not a valid UUID (the database raises an error); a key is either given or absent.
- Decimal `max_digits` and `decimal_places` limits are not modelled. A quantity that overflows them is not rejected.
- LotSerializer.validate runs only when a lot is written. A later change to a unit's `breeding_type` does not revalidate its lots, and the model does not either.
- Api.Backend.CreateStockMovement, Views.CreateDecision, Views.UpdateDecision decide with the corrected checks Views.CheckCreateAll and Views.CheckUpdateAll, not with the written ones (`perform_create`, `perform_update`). Two inputs therefore get another answer than the code gives. A movement whose lot is in an enterprise the caller may write in, but whose stock item is in one where they may not, is refused with a 403; the code saves it. A movement with a null `lot` is decided on its stock item; the code fails with a 500. The written behaviour is Views.CheckCreate and Views.CheckUpdate, and the findings below state the difference.
- SoftDelete.NewRow, SoftDelete.MarkDeleted and SoftDelete.Unmarked take one clock reading where the source takes two. `delete()` reads `timezone.now()` for `deleted_at`, then `save()` runs the `auto_now` hook with its own reading. So in the program `deleted_at` and `updated_at` may differ slightly, as may a new row's `created_at` and `updated_at`.
- SoftDelete.Table.QuerySetHardDelete, SoftDelete.Table.ManagerHardDeleteAll return the number of rows removed from their own table only. Django's `delete()` returns the total including cascaded rows and a per-model count; the cascade itself is modelled in HardDelete.
- Views.CreateDecision, Views.UpdateDecision see a payload cut down to its five parent keys, so the serializers' field validation is not modelled. In particular the uniqueness validators that DRF derives from `unique_together` (Lot's (unit, code), LotDailyRecord's (lot, date), StockItem's (farm, name)) and from Species' `unique=True` code are left out. Those validators query the alive-only default manager. An alive duplicate therefore gets a 400, and a duplicate of a soft-deleted row passes validation and then fails the INSERT with an IntegrityError, a 500. The model accepts both. The same mechanism is modelled for the owner membership's `get_or_create` (Serializers.GetOrCreateEffect).
- Views.UpdateDecision models the write decision of `perform_update`. The field-by-field update that the generic `serializer.save()` then performs is left out.
- Clocks (`timezone.now()`, `Date.now()`, `new Date()`) and UUID generation are parameters. FarmRepository.InMemoryFarmRepository.Create takes one clock reading for the id and both timestamps, where the source reads the clock three times.
- FarmRepository.InMemoryFarmRepository.FindAll returns a copy of the list, not the live array; aliasing through that array is not modelled.
- A `Partial<Farm>` patch whose fields are explicitly `undefined` is not modelled. Such a field would overwrite the stored value with `undefined`; here each field is present or absent.
- The offline queue's timers (`startAutoProcessing`, `stopAutoProcessing`), the 100 ms delay between requests and the concurrency of overlapping async calls are left out. For example, `retryFailed` does not await `processQueue`. Each operation is modelled as running to completion.
- `dispatchQueueUpdate`, console logging and the HTTP client are left out. The request's result is an `Outcome` parameter.
- An offline action's `data` is an opaque payload.
- OfflineQueue.OfflineQueueService.ProcessAction requires an action whose key the generator produced, as every action returned by `getPendingActions` has.
- OfflineQueue.CleanupKeeps states the survivors by membership. Since the store stays in key order, that fixes the resulting sequence.
- IndexedDB errors inside `processAction`'s catch block are not modelled. A failing `put` is assumed not to happen.

## Findings

| source | as written | input that shows it | evidently intended | confidence | as-written member | corrected member |
|---|---|---|---|---|---|---|
| backend_django/apps/core/views.py:69-72 | only the first present key decides the checked enterprise, so a stock movement is checked against its lot's enterprise and never against its stock item's | an admin of enterprise A posts a movement whose lot is in A and whose stock item belongs to enterprise B, where the caller has no write role; the check passes and B's stock quantity changes | every enterprise the payload references is checked | medium, not executed | Views.MovementLotShadowsStockItem | Views.CheckCreateAll |
| backend_django/apps/core/views.py:69-70 | a present but null `lot` is dereferenced (`None.unit`), which raises before `stock_item` is consulted | a movement payload with `lot: null` and any stock item gets a server error | a null lot is skipped and the stock item's enterprise is checked | high, not executed | Views.NullLotMovementFails | Views.CheckCreateAll |
| backend_django/apps/core/views.py:50-54 | an update checks only the enterprise the payload names and not the one the stored object belongs to | an admin of enterprise A moves a unit of enterprise B, where the caller is only a `user`, to a farm of A by sending `farm` | both the destination and the origin enterprise need a write role | medium, not executed | Views.UpdateMovesOutUnchecked | Views.CheckUpdateAll |

The request decisions of `Views.CreateDecision` and `Views.UpdateDecision`, used by `Api.Backend`, use the corrected checks. `Views.CheckAllRefines` shows the corrected checks accept nothing that the written ones refuse. `Views.CheckAllGuardsTouched` shows they protect every enterprise a write touches.
