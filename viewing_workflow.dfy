/**
 * The viewing service: a request passes a duplicate check, an existence check and a
 * date check, in that order; the four status operations overwrite the status from any
 * prior status, and the update hook stamps the row only when the status really changed.
 */
module ViewingWorkflow {
  import opened Common
  import opened ViewingEntity
  import opened ViewingData
  import PropertyEntity
  import PropertyData
  import UserEntity
  import UserData

  const DuplicateRequest := "You already have a viewing request for this property"
  const PropertyOrUserNotFound := "Property or User not found"
  const DateInPast := "Viewing date must be in the future"

  /**
   * The error `requestViewing` raises, if any: duplicate first, then a missing property
   * or user, then a date strictly before the clock reading `now`.
   */
  function RequestError(views: map<Id, Viewing>, props: map<Id, PropertyEntity.Property>,
                        users: map<Id, UserEntity.User>, propertyId: Id, userId: Id,
                        viewingDate: Time, now: Time): (e: Option<string>)
    ensures HasViewingRequest(views, userId, propertyId) ==> e == Some(DuplicateRequest)
    ensures (!HasViewingRequest(views, userId, propertyId) && (propertyId !in props || userId !in users))
              ==> e == Some(PropertyOrUserNotFound)
    ensures (!HasViewingRequest(views, userId, propertyId) && propertyId in props && userId in users)
              ==> (e == Some(DateInPast) <==> viewingDate < now)
    ensures e.None? <==> !HasViewingRequest(views, userId, propertyId) && propertyId in props && userId in users
                         && viewingDate >= now
  {
    if HasViewingRequest(views, userId, propertyId) then Some(DuplicateRequest)
    else if propertyId !in props || userId !in users then Some(PropertyOrUserNotFound)
    else if viewingDate < now then Some(DateInPast)
    else None
  }

  /** A viewing date equal to the clock reading is accepted: only strictly earlier dates are refused. */
  lemma DateEqualToNowAccepted(views: map<Id, Viewing>, props: map<Id, PropertyEntity.Property>,
                               users: map<Id, UserEntity.User>, propertyId: Id, userId: Id, now: Time)
    requires !HasViewingRequest(views, userId, propertyId) && propertyId in props && userId in users
    ensures RequestError(views, props, users, propertyId, userId, now, now).None?
  {
  }

  /**
   * The table after a status operation. A stored viewing whose status differs from `s`
   * takes status `s` and update time `now`; one already in status `s` is left untouched
   * (the update hook does not run for an unchanged row); an unknown id changes nothing.
   */
  function WithStatus(rows: map<Id, Viewing>, id: Id, s: ViewingStatus, now: Time): (r: map<Id, Viewing>)
    ensures id !in rows ==> r == rows
    ensures id in rows && rows[id].status == s ==> r == rows
    ensures r.Keys == rows.Keys
    ensures forall k :: k in rows && k != id ==> r[k] == rows[k]
    ensures id in rows ==> r[id].status == s
    ensures id in rows && rows[id].status != s ==> r[id].updatedAt == now
    ensures id in rows ==> r[id].(status := rows[id].status, updatedAt := rows[id].updatedAt) == rows[id]
  {
    if id in rows && rows[id].status != s then rows[id := rows[id].(status := s, updatedAt := now)] else rows
  }

  /** Repeating a status operation, at any later time, changes nothing more. */
  lemma StatusTwiceIsOnce(rows: map<Id, Viewing>, id: Id, s: ViewingStatus, t1: Time, t2: Time)
    ensures WithStatus(WithStatus(rows, id, s, t1), id, s, t2) == WithStatus(rows, id, s, t1)
  {
  }

  /** A stored PENDING or APPROVED viewing of the pair makes the next request a duplicate. */
  lemma RequestThenDuplicate(views: map<Id, Viewing>, props: map<Id, PropertyEntity.Property>,
                             users: map<Id, UserEntity.User>, v: Viewing, viewingDate: Time, now: Time)
    requires v.id in views && views[v.id] == v && IsActive(v.status)
    ensures RequestError(views, props, users, v.propertyId, v.userId, viewingDate, now) == Some(DuplicateRequest)
  {
    assert views[v.id].userId == v.userId && views[v.id].propertyId == v.propertyId;
  }

  /**
   * When the pair's only active viewing is rejected, completed or cancelled, a new
   * request passes the duplicate check.
   */
  lemma RequestAgainAfterResolution(views: map<Id, Viewing>, id: Id, s: ViewingStatus, now: Time)
    requires id in views && !IsActive(s)
    requires forall k :: (k in views && views[k].userId == views[id].userId && views[k].propertyId == views[id].propertyId
                          && IsActive(views[k].status)) ==> k == id
    ensures !HasViewingRequest(WithStatus(views, id, s, now), views[id].userId, views[id].propertyId)
  {
    var after := WithStatus(views, id, s, now);
    forall k | k in after && after[k].userId == views[id].userId && after[k].propertyId == views[id].propertyId
      ensures !IsActive(after[k].status)
    {
      if k != id {
        assert after[k] == views[k];
      }
    }
  }

  /** The owner check agrees with the owner's request list. */
  lemma OwnershipMatchesOwnerRequests(views: map<Id, Viewing>, props: map<Id, PropertyEntity.Property>,
                                      id: Id, userId: Id)
    requires KeyedById(views)
    ensures (id in views && OwnedBy(views[id], props, userId))
        <==> exists v :: v in FindByPropertyOwner(views, props, userId) && v.id == id
  {
    if id in views && OwnedBy(views[id], props, userId) {
      assert views[id] in FindByPropertyOwner(views, props, userId);
    }
  }

  class ViewingService {
    const viewingDao: ViewingDao
    const propertyDao: PropertyData.PropertyDao
    const userDao: UserData.UserDao

    constructor (viewingDao: ViewingDao, propertyDao: PropertyData.PropertyDao, userDao: UserData.UserDao)
      ensures this.viewingDao == viewingDao && this.propertyDao == propertyDao && this.userDao == userDao
    {
      this.viewingDao := viewingDao;
      this.propertyDao := propertyDao;
      this.userDao := userDao;
    }

    /**
     * `requestViewing`: on a check failure nothing is stored; otherwise a new PENDING
     * viewing with the given property, user, date and message is stored under a new id,
     * stamped at `now`.
     */
    method RequestViewing(propertyId: Id, userId: Id, viewingDate: Time, message: string, now: Time)
      returns (r: Result<PropertyViewing>)
      requires viewingDao.Valid()
      modifies viewingDao
      ensures viewingDao.Valid()
      ensures r.Failure? <==>
                RequestError(old(viewingDao.rows), propertyDao.rows, userDao.rows, propertyId, userId, viewingDate, now).Some?
      ensures r.Failure? ==>
                Some(r.message) == RequestError(old(viewingDao.rows), propertyDao.rows, userDao.rows, propertyId, userId, viewingDate, now)
      ensures r.Failure? ==> viewingDao.rows == old(viewingDao.rows)
      ensures r.Success? ==>
                && fresh(r.value) && r.value.Persisted()
                && r.value.Record() == Viewing(old(viewingDao.nextId), propertyId, userId, viewingDate, Pending, message, now, now)
                && old(viewingDao.nextId) !in old(viewingDao.rows)
                && viewingDao.rows == old(viewingDao.rows)[old(viewingDao.nextId) := r.value.Record()]
    {
      if HasViewingRequest(viewingDao.rows, userId, propertyId) {
        return Failure(DuplicateRequest);
      }
      var property := propertyDao.FindById(propertyId);
      var user := userDao.FindById(userId);
      if property.None? || user.None? {
        return Failure(PropertyOrUserNotFound);
      }
      if viewingDate < now {
        return Failure(DateInPast);
      }
      var viewing := new PropertyViewing.Request(propertyId, userId, viewingDate, message);
      viewingDao.Save(viewing, now);
      r := Success(viewing);
    }

    /** The shared shape of the four status operations: load, set the status, merge. */
    method ChangeStatus(id: Id, s: ViewingStatus, now: Time)
      requires viewingDao.Valid()
      modifies viewingDao`rows
      ensures viewingDao.Valid() && viewingDao.rows == WithStatus(old(viewingDao.rows), id, s, now)
    {
      var viewing := viewingDao.FindById(id);
      if viewing != null {
        viewing.SetStatus(s);
        viewingDao.Update(viewing, now);
      }
    }

    /** `approveViewing`: a stored viewing becomes APPROVED, from any status. */
    method ApproveViewing(id: Id, now: Time)
      requires viewingDao.Valid()
      modifies viewingDao`rows
      ensures viewingDao.Valid() && viewingDao.rows == WithStatus(old(viewingDao.rows), id, Approved, now)
    {
      ChangeStatus(id, Approved, now);
    }

    /** `rejectViewing`: a stored viewing becomes REJECTED, from any status. */
    method RejectViewing(id: Id, now: Time)
      requires viewingDao.Valid()
      modifies viewingDao`rows
      ensures viewingDao.Valid() && viewingDao.rows == WithStatus(old(viewingDao.rows), id, Rejected, now)
    {
      ChangeStatus(id, Rejected, now);
    }

    /** `cancelViewing`: a stored viewing becomes CANCELLED, from any status. */
    method CancelViewing(id: Id, now: Time)
      requires viewingDao.Valid()
      modifies viewingDao`rows
      ensures viewingDao.Valid() && viewingDao.rows == WithStatus(old(viewingDao.rows), id, Cancelled, now)
    {
      ChangeStatus(id, Cancelled, now);
    }

    /** `completeViewing`: a stored viewing becomes COMPLETED, even a PENDING one. */
    method CompleteViewing(id: Id, now: Time)
      requires viewingDao.Valid()
      modifies viewingDao`rows
      ensures viewingDao.Valid() && viewingDao.rows == WithStatus(old(viewingDao.rows), id, Completed, now)
    {
      ChangeStatus(id, Completed, now);
    }

    /**
     * `isPropertyOwner`: false for an unknown viewing; otherwise whether its property's
     * owner is `userId` (false as well when that property is gone).
     */
    method IsPropertyOwner(id: Id, userId: Id) returns (b: bool)
      ensures id !in viewingDao.rows ==> !b
      ensures id in viewingDao.rows ==>
                (b <==> viewingDao.rows[id].propertyId in propertyDao.rows
                        && propertyDao.rows[viewingDao.rows[id].propertyId].ownerId == userId)
    {
      var viewing := viewingDao.FindById(id);
      b := viewing != null && OwnedBy(viewing.Record(), propertyDao.rows, userId);
    }

    /** `isRequester`: false for an unknown viewing; otherwise whether `userId` asked for it. */
    method IsRequester(id: Id, userId: Id) returns (b: bool)
      ensures id !in viewingDao.rows ==> !b
      ensures id in viewingDao.rows ==> (b <==> viewingDao.rows[id].userId == userId)
    {
      var viewing := viewingDao.FindById(id);
      b := viewing != null && viewing.userId == userId;
    }
  }
}
