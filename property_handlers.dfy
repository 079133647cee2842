/**
 * The listing controller's state-changing handlers: each first requires a logged-in
 * caller, then (except create) that the caller owns the listing, then valid form input,
 * and only then calls the service.
 */
module PropertyHandlers {
  import opened Common
  import opened Web
  import opened PropertyEntity
  import opened PropertyData
  import opened PropertyWorkflow
  import UserWorkflow

  /** The message shown when creation fails because the caller's account is gone. */
  const OwnerMissing := "Error creating property: owner not found"

  /** The guard of edit, delete and mark-sold/rented: the listing exists and the caller owns it. */
  function MayManage(rows: map<Id, Property>, id: Id, userId: Id): (b: bool)
    ensures b <==> id in rows && rows[id] in FindByOwner(rows, userId)
  {
    id in rows && rows[id].ownerId == userId
  }

  /**
   * The record an edit stores: the submitted fields, with the path's id, the stored owner
   * and creation time kept, the status reset to PENDING for re-approval, and `updatedAt`
   * stamped by the service.
   */
  function EditedListing(id: Id, existing: Property, submitted: Property, now: Time): (p: Property)
    ensures p.id == id && p.ownerId == existing.ownerId && p.createdAt == existing.createdAt
    ensures p.status == Pending && p.updatedAt == now
    ensures p.(id := submitted.id, ownerId := submitted.ownerId, createdAt := submitted.createdAt,
               status := submitted.status, updatedAt := submitted.updatedAt) == submitted
  {
    submitted.(id := id, ownerId := existing.ownerId, createdAt := existing.createdAt, status := Pending, updatedAt := now)
  }

  /** An edited listing is PENDING, so it is not in the public listing. */
  lemma EditLeavesPublicListing(rows: map<Id, Property>, id: Id, submitted: Property, now: Time)
    requires KeyedById(rows) && id in rows
    ensures forall q :: q in FindAllApproved(rows[id := EditedListing(id, rows[id], submitted, now)]) ==> q.id != id
  {
    var after := rows[id := EditedListing(id, rows[id], submitted, now)];
    forall q | q in FindAllApproved(after)
      ensures q.id != id
    {
      var k :| k in after && after[k] == q;
      assert k != id && q == rows[k];
    }
  }

  /** The pending set after an edit: the edited id joins it, whatever its previous status. */
  lemma EditJoinsPending(rows: map<Id, Property>, id: Id, submitted: Property, now: Time)
    requires id in rows
    ensures StatusIds(rows[id := EditedListing(id, rows[id], submitted, now)], Pending) == StatusIds(rows, Pending) + {id}
  {
  }

  /**
   * An edited listing leaves the public listing until an admin approves it again, and
   * the admin's pending count rises by one unless it was already pending.
   */
  lemma EditRequiresReapproval(rows: map<Id, Property>, id: Id, submitted: Property, now: Time)
    requires KeyedById(rows) && id in rows
    ensures forall q :: q in FindAllApproved(rows[id := EditedListing(id, rows[id], submitted, now)]) ==> q.id != id
    ensures CountPending(rows[id := EditedListing(id, rows[id], submitted, now)])
         == CountPending(rows) + (if rows[id].status == Pending then 0 else 1)
  {
    EditLeavesPublicListing(rows, id, submitted, now);
    EditJoinsPending(rows, id, submitted, now);
    if rows[id].status == Pending {
      assert StatusIds(rows, Pending) + {id} == StatusIds(rows, Pending);
    }
  }

  class PropertyController {
    const propertyService: PropertyService
    const userService: UserWorkflow.UserService

    constructor (propertyService: PropertyService, userService: UserWorkflow.UserService)
      ensures this.propertyService == propertyService && this.userService == userService
    {
      this.propertyService := propertyService;
      this.userService := userService;
    }

    /**
     * `createProperty` (POST): login, then validation, then the owner reloaded from the
     * user table by the caller's id; the service stores the listing PENDING under that owner.
     */
    method CreateProperty(caller: Option<Id>, property: Property, hasErrors: bool, now: Time) returns (o: Outcome)
      requires propertyService.propertyDao.Valid() && userService.userDao.Valid()
      modifies propertyService.propertyDao
      ensures propertyService.propertyDao.Valid()
      ensures caller.None? ==> o == LoginRequired
      ensures caller.Some? && hasErrors ==> o == Invalid
      ensures caller.Some? && !hasErrors && caller.value !in userService.userDao.rows ==> o == Failed(OwnerMissing)
      ensures o == Done <==> caller.Some? && !hasErrors && caller.value in userService.userDao.rows
      ensures o != Done ==> propertyService.propertyDao.rows == old(propertyService.propertyDao.rows)
      ensures o == Done ==>
                var id := old(propertyService.propertyDao.nextId);
                id !in old(propertyService.propertyDao.rows)
                && propertyService.propertyDao.rows == old(propertyService.propertyDao.rows)[
                     id := property.(id := id, ownerId := caller.value, status := Pending, createdAt := now, updatedAt := now)]
    {
      if caller.None? {
        return LoginRequired;
      }
      if hasErrors {
        return Invalid;
      }
      var owner := userService.userDao.FindById(caller.value);
      if owner.None? {
        return Failed(OwnerMissing);
      }
      assert owner.value.id == caller.value;
      var saved := propertyService.CreateProperty(property, owner.value, now);
      o := Done;
    }

    /**
     * `updateProperty` (POST edit): login, then ownership of the stored listing, then
     * validation; the stored listing is replaced by the edited record.
     */
    method UpdateProperty(caller: Option<Id>, id: Id, property: Property, hasErrors: bool, now: Time) returns (o: Outcome)
      requires propertyService.propertyDao.Valid()
      modifies propertyService.propertyDao`rows
      ensures propertyService.propertyDao.Valid()
      ensures caller.None? ==> o == LoginRequired
      ensures caller.Some? && !MayManage(old(propertyService.propertyDao.rows), id, caller.value) ==> o == Denied
      ensures caller.Some? && MayManage(old(propertyService.propertyDao.rows), id, caller.value) && hasErrors ==> o == Invalid
      ensures o == Done <==> caller.Some? && MayManage(old(propertyService.propertyDao.rows), id, caller.value) && !hasErrors
      ensures o != Done ==> propertyService.propertyDao.rows == old(propertyService.propertyDao.rows)
      ensures o == Done ==>
                propertyService.propertyDao.rows == old(propertyService.propertyDao.rows)[
                  id := EditedListing(id, old(propertyService.propertyDao.rows)[id], property, now)]
    {
      if caller.None? {
        return LoginRequired;
      }
      var existing := propertyService.propertyDao.FindById(id);
      if existing.None? || existing.value.ownerId != caller.value {
        return Denied;
      }
      if hasErrors {
        return Invalid;
      }
      var edited := property.(id := id, ownerId := existing.value.ownerId, createdAt := existing.value.createdAt,
                              status := Pending);
      var updated := propertyService.UpdateProperty(edited, now);
      o := Done;
    }

    /** `deleteProperty` (POST): login, then ownership; the listing is removed. */
    method DeleteProperty(caller: Option<Id>, id: Id) returns (o: Outcome)
      requires propertyService.propertyDao.Valid()
      modifies propertyService.propertyDao`rows
      ensures propertyService.propertyDao.Valid()
      ensures caller.None? ==> o == LoginRequired
      ensures caller.Some? && !MayManage(old(propertyService.propertyDao.rows), id, caller.value) ==> o == Denied
      ensures o == Done <==> caller.Some? && MayManage(old(propertyService.propertyDao.rows), id, caller.value)
      ensures o != Done ==> propertyService.propertyDao.rows == old(propertyService.propertyDao.rows)
      ensures o == Done ==> propertyService.propertyDao.rows == old(propertyService.propertyDao.rows) - {id}
    {
      if caller.None? {
        return LoginRequired;
      }
      var property := propertyService.propertyDao.FindById(id);
      if property.None? || property.value.ownerId != caller.value {
        return Denied;
      }
      propertyService.DeleteProperty(id);
      o := Done;
    }

    /** `markAsSold` (POST): login, then ownership; the listing becomes SOLD. */
    method MarkAsSold(caller: Option<Id>, id: Id, now: Time) returns (o: Outcome)
      requires propertyService.propertyDao.Valid()
      modifies propertyService.propertyDao`rows
      ensures propertyService.propertyDao.Valid()
      ensures caller.None? ==> o == LoginRequired
      ensures caller.Some? && !MayManage(old(propertyService.propertyDao.rows), id, caller.value) ==> o == Denied
      ensures o == Done <==> caller.Some? && MayManage(old(propertyService.propertyDao.rows), id, caller.value)
      ensures o != Done ==> propertyService.propertyDao.rows == old(propertyService.propertyDao.rows)
      ensures o == Done ==> propertyService.propertyDao.rows == WithStatus(old(propertyService.propertyDao.rows), id, Sold, now)
    {
      if caller.None? {
        return LoginRequired;
      }
      var property := propertyService.propertyDao.FindById(id);
      if property.None? || property.value.ownerId != caller.value {
        return Denied;
      }
      var marked := propertyService.MarkAsSold(id, now);
      o := Done;
    }

    /** `markAsRented` (POST): login, then ownership; the listing becomes RENTED. */
    method MarkAsRented(caller: Option<Id>, id: Id, now: Time) returns (o: Outcome)
      requires propertyService.propertyDao.Valid()
      modifies propertyService.propertyDao`rows
      ensures propertyService.propertyDao.Valid()
      ensures caller.None? ==> o == LoginRequired
      ensures caller.Some? && !MayManage(old(propertyService.propertyDao.rows), id, caller.value) ==> o == Denied
      ensures o == Done <==> caller.Some? && MayManage(old(propertyService.propertyDao.rows), id, caller.value)
      ensures o != Done ==> propertyService.propertyDao.rows == old(propertyService.propertyDao.rows)
      ensures o == Done ==> propertyService.propertyDao.rows == WithStatus(old(propertyService.propertyDao.rows), id, Rented, now)
    {
      if caller.None? {
        return LoginRequired;
      }
      var property := propertyService.propertyDao.FindById(id);
      if property.None? || property.value.ownerId != caller.value {
        return Denied;
      }
      var marked := propertyService.MarkAsRented(id, now);
      o := Done;
    }
  }
}
