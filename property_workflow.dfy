/**
 * The listing lifecycle service. A new listing always starts PENDING and owned by the
 * given user; the admin and the owner then overwrite its status with no transition
 * check. Every status operation on an unknown id is a silent no-op.
 */
module PropertyWorkflow {
  import opened Common
  import opened PropertyEntity
  import opened PropertyData
  import UserEntity

  /**
   * The table after a status operation: a stored listing takes status `s` and the update
   * time `now`, and nothing else in the table changes; an unknown id leaves it as it was.
   */
  function WithStatus(rows: map<Id, Property>, id: Id, s: PropertyStatus, now: Time): (r: map<Id, Property>)
    ensures id !in rows ==> r == rows
    ensures r.Keys == rows.Keys
    ensures forall k :: k in rows && k != id ==> r[k] == rows[k]
    ensures id in rows ==> r[id].status == s && r[id].updatedAt == now
    ensures id in rows ==> r[id].(status := rows[id].status, updatedAt := rows[id].updatedAt) == rows[id]
  {
    if id in rows then rows[id := rows[id].(status := s, updatedAt := now)] else rows
  }

  /** The same status operation twice leaves the table as the second one alone would. */
  lemma StatusTwiceIsOnce(rows: map<Id, Property>, id: Id, s: PropertyStatus, t1: Time, t2: Time)
    ensures WithStatus(WithStatus(rows, id, s, t1), id, s, t2) == WithStatus(rows, id, s, t2)
  {
  }

  /**
   * A listing is on the public listing after a status operation exactly when the new
   * status is APPROVED: marking it sold, rented, rejected or pending takes it off.
   */
  lemma PublicAfterStatusIffApproved(rows: map<Id, Property>, id: Id, s: PropertyStatus, now: Time)
    requires KeyedById(rows) && id in rows
    ensures WithStatus(rows, id, s, now)[id] in FindAllApproved(WithStatus(rows, id, s, now)) <==> s == Approved
  {
  }

  /**
   * Storing a new PENDING listing leaves the public listing as it was and raises the
   * admin's pending count by one.
   */
  lemma NewListingAwaitsApproval(rows: map<Id, Property>, p: Property)
    requires p.id !in rows && p.status == Pending
    ensures forall q :: q in FindAllApproved(rows[p.id := p]) <==> q in FindAllApproved(rows)
    ensures CountPending(rows[p.id := p]) == CountPending(rows) + 1
  {
    assert StatusIds(rows[p.id := p], Pending) == StatusIds(rows, Pending) + {p.id};
    forall q
      ensures q in rows[p.id := p].Values && q.status == Approved <==> q in rows.Values && q.status == Approved
    {
      if q in rows[p.id := p].Values && q.status == Approved {
        var k :| k in rows[p.id := p] && rows[p.id := p][k] == q;
        assert k != p.id && rows[k] == q;
      }
      if q in rows.Values && q.status == Approved {
        var k :| k in rows && rows[k] == q;
        assert rows[p.id := p][k] == q;
      }
    }
  }

  /** Who owns what: the ownership check agrees with the owner's own listing. */
  lemma OwnershipMatchesOwnerListing(rows: map<Id, Property>, propertyId: Id, userId: Id)
    requires KeyedById(rows)
    ensures (propertyId in rows && rows[propertyId].ownerId == userId)
        <==> exists p :: p in FindByOwner(rows, userId) && p.id == propertyId
  {
    if propertyId in rows && rows[propertyId].ownerId == userId {
      assert rows[propertyId] in FindByOwner(rows, userId);
    }
  }

  class PropertyService {
    const propertyDao: PropertyDao

    constructor (propertyDao: PropertyDao)
      ensures this.propertyDao == propertyDao
    {
      this.propertyDao := propertyDao;
    }

    /**
     * `createProperty`: whatever owner, status and timestamps the incoming record carried,
     * the stored listing is owned by `owner`, PENDING, and stamped at `now`; it gets a new id.
     */
    method CreateProperty(property: Property, owner: UserEntity.User, now: Time) returns (saved: Property)
      requires propertyDao.Valid()
      modifies propertyDao
      ensures propertyDao.Valid()
      ensures saved.status == Pending && saved.ownerId == owner.id && saved.createdAt == now && saved.updatedAt == now
      ensures saved == property.(id := saved.id, ownerId := owner.id, status := Pending, createdAt := now, updatedAt := now)
      ensures saved.id == old(propertyDao.nextId) && saved.id !in old(propertyDao.rows)
      ensures propertyDao.rows == old(propertyDao.rows)[saved.id := saved]
    {
      var p := property.(ownerId := owner.id, createdAt := now, updatedAt := now, status := Pending);
      saved := propertyDao.Save(p);
    }

    /** `updateProperty`: the caller's record, with only `updatedAt` changed, replaces the stored one. */
    method UpdateProperty(property: Property, now: Time) returns (updated: Property)
      requires propertyDao.Valid() && property.id in propertyDao.rows
      modifies propertyDao`rows
      ensures propertyDao.Valid()
      ensures updated.updatedAt == now && updated.(updatedAt := property.updatedAt) == property
      ensures propertyDao.rows == old(propertyDao.rows)[property.id := updated]
    {
      updated := property.(updatedAt := now);
      propertyDao.Update(updated);
    }

    /** `deleteProperty`: the listing with that id is removed when present; otherwise nothing happens. */
    method DeleteProperty(id: Id)
      requires propertyDao.Valid()
      modifies propertyDao`rows
      ensures propertyDao.Valid()
      ensures propertyDao.rows == old(propertyDao.rows) - {id}
      ensures id !in old(propertyDao.rows) ==> propertyDao.rows == old(propertyDao.rows)
    {
      var property := propertyDao.FindById(id);
      if property.Some? {
        propertyDao.Delete(property.value);
      } else {
        assert old(propertyDao.rows) - {id} == old(propertyDao.rows);
      }
    }

    /** The shared shape of the four status operations: load, overwrite status and update time, merge. */
    method ChangeStatus(id: Id, s: PropertyStatus, now: Time) returns (r: Option<Property>)
      requires propertyDao.Valid()
      modifies propertyDao`rows
      ensures propertyDao.Valid()
      ensures propertyDao.rows == WithStatus(old(propertyDao.rows), id, s, now)
      ensures r.Some? <==> id in old(propertyDao.rows)
      ensures r.Some? ==> r.value == propertyDao.rows[id]
    {
      var property := propertyDao.FindById(id);
      if property.Some? {
        var changed := property.value.(status := s, updatedAt := now);
        propertyDao.Update(changed);
        r := Some(changed);
      } else {
        r := None;
      }
    }

    /** `approveProperty`: a stored listing becomes APPROVED, from whatever status it had. */
    method ApproveProperty(id: Id, now: Time) returns (r: Option<Property>)
      requires propertyDao.Valid()
      modifies propertyDao`rows
      ensures propertyDao.Valid()
      ensures propertyDao.rows == WithStatus(old(propertyDao.rows), id, Approved, now)
      ensures r.Some? <==> id in old(propertyDao.rows)
      ensures r.Some? ==> r.value == propertyDao.rows[id]
    {
      r := ChangeStatus(id, Approved, now);
    }

    /** `rejectProperty`: a stored listing becomes REJECTED, from whatever status it had. */
    method RejectProperty(id: Id, now: Time) returns (r: Option<Property>)
      requires propertyDao.Valid()
      modifies propertyDao`rows
      ensures propertyDao.Valid()
      ensures propertyDao.rows == WithStatus(old(propertyDao.rows), id, Rejected, now)
      ensures r.Some? <==> id in old(propertyDao.rows)
      ensures r.Some? ==> r.value == propertyDao.rows[id]
    {
      r := ChangeStatus(id, Rejected, now);
    }

    /** `markAsSold`: a stored listing becomes SOLD, even from PENDING or REJECTED. */
    method MarkAsSold(id: Id, now: Time) returns (r: Option<Property>)
      requires propertyDao.Valid()
      modifies propertyDao`rows
      ensures propertyDao.Valid()
      ensures propertyDao.rows == WithStatus(old(propertyDao.rows), id, Sold, now)
      ensures r.Some? <==> id in old(propertyDao.rows)
      ensures r.Some? ==> r.value == propertyDao.rows[id]
    {
      r := ChangeStatus(id, Sold, now);
    }

    /** `markAsRented`: a stored listing becomes RENTED, even from PENDING or REJECTED. */
    method MarkAsRented(id: Id, now: Time) returns (r: Option<Property>)
      requires propertyDao.Valid()
      modifies propertyDao`rows
      ensures propertyDao.Valid()
      ensures propertyDao.rows == WithStatus(old(propertyDao.rows), id, Rented, now)
      ensures r.Some? <==> id in old(propertyDao.rows)
      ensures r.Some? ==> r.value == propertyDao.rows[id]
    {
      r := ChangeStatus(id, Rented, now);
    }

    /** `getPendingProperties`: the admin's review queue, newest first. */
    ghost function GetPendingProperties(): (r: seq<Property>)
      reads propertyDao
      ensures forall p :: p in r <==> p in propertyDao.rows.Values && p.status == Pending
      ensures |r| == CountPending(propertyDao.rows)
      ensures NewestFirst(r)
    {
      FindByStatus(propertyDao.rows, Pending)
    }

    /** `isOwner`: false for an unknown listing; otherwise whether its owner is `userId`. */
    method IsOwner(propertyId: Id, userId: Id) returns (b: bool)
      ensures propertyId !in propertyDao.rows ==> !b
      ensures propertyId in propertyDao.rows ==> (b <==> propertyDao.rows[propertyId].ownerId == userId)
    {
      var property := propertyDao.FindById(propertyId);
      b := property.Some? && property.value.ownerId == userId;
    }
  }
}
