/**
 * The application service: submission with its duplicate and existence checks, and the
 * four status operations, which overwrite the status from any prior status.
 */
module ApplicationWorkflow {
  import opened Common
  import opened ApplicationEntity
  import opened ApplicationData
  import PropertyEntity
  import PropertyData
  import UserEntity
  import UserData

  const DuplicateApplication := "You already have an application for this property"
  const PropertyOrUserNotFound := "Property or User not found"

  /**
   * The error `submitApplication` raises, if any. The duplicate check comes first, so a
   * user with an active application for the pair hears about that even when the
   * property or the user is gone.
   */
  function SubmitError(apps: map<Id, Application>, props: map<Id, PropertyEntity.Property>,
                       users: map<Id, UserEntity.User>, propertyId: Id, userId: Id): (e: Option<string>)
    ensures HasApplication(apps, userId, propertyId) ==> e == Some(DuplicateApplication)
    ensures (!HasApplication(apps, userId, propertyId) && (propertyId !in props || userId !in users))
              ==> e == Some(PropertyOrUserNotFound)
    ensures e.None? <==> !HasApplication(apps, userId, propertyId) && propertyId in props && userId in users
  {
    if HasApplication(apps, userId, propertyId) then Some(DuplicateApplication)
    else if propertyId !in props || userId !in users then Some(PropertyOrUserNotFound)
    else None
  }

  /** The application type follows the listing: PURCHASE for a sale, RENTAL otherwise. */
  function ApplicationTypeFor(listingType: PropertyEntity.ListingType): (t: ApplicationType)
    ensures t == Purchase <==> listingType.Sale?
    ensures t == Rental <==> listingType.Rent?
  {
    if listingType.Sale? then Purchase else Rental
  }

  /**
   * The table after a status operation: a stored application takes status `s` and
   * nothing else changes; an unknown id leaves the table as it was.
   */
  function WithStatus(rows: map<Id, Application>, id: Id, s: ApplicationStatus): (r: map<Id, Application>)
    ensures id !in rows ==> r == rows
    ensures r.Keys == rows.Keys
    ensures forall k :: k in rows && k != id ==> r[k] == rows[k]
    ensures id in rows ==> r[id].status == s && r[id].(status := rows[id].status) == rows[id]
  {
    if id in rows then rows[id := rows[id].(status := s)] else rows
  }

  /** The same status operation twice is the same as once. */
  lemma StatusTwiceIsOnce(rows: map<Id, Application>, id: Id, s: ApplicationStatus)
    ensures WithStatus(WithStatus(rows, id, s), id, s) == WithStatus(rows, id, s)
  {
  }

  /**
   * Once a stored application of the pair is active (as a submission whose status is
   * PENDING, UNDER_REVIEW or APPROVED leaves it), a second submission is refused as a duplicate.
   */
  lemma SubmitThenDuplicate(apps: map<Id, Application>, props: map<Id, PropertyEntity.Property>,
                            users: map<Id, UserEntity.User>, a: Application)
    requires a.id in apps && apps[a.id] == a && IsActive(a.status)
    ensures SubmitError(apps, props, users, a.propertyId, a.userId) == Some(DuplicateApplication)
  {
    assert apps[a.id].userId == a.userId && apps[a.id].propertyId == a.propertyId;
  }

  /**
   * When the pair's only active application is rejected or withdrawn, the duplicate check
   * passes again.
   */
  lemma ReapplyAfterRejectOrWithdraw(apps: map<Id, Application>, id: Id, s: ApplicationStatus)
    requires id in apps && (s == Rejected || s == Withdrawn)
    requires forall k :: (k in apps && apps[k].userId == apps[id].userId && apps[k].propertyId == apps[id].propertyId
                          && IsActive(apps[k].status)) ==> k == id
    ensures !HasApplication(WithStatus(apps, id, s), apps[id].userId, apps[id].propertyId)
  {
    var after := WithStatus(apps, id, s);
    forall k | k in after && after[k].userId == apps[id].userId && after[k].propertyId == apps[id].propertyId
      ensures !IsActive(after[k].status)
    {
      if k != id {
        assert after[k] == apps[k];
      }
    }
  }

  /** The owner check agrees with the owner's application list. */
  lemma OwnershipMatchesOwnerQueue(apps: map<Id, Application>, props: map<Id, PropertyEntity.Property>,
                                   id: Id, userId: Id)
    requires KeyedById(apps)
    ensures (id in apps && OwnedBy(apps[id], props, userId))
        <==> exists a :: a in FindByPropertyOwner(apps, props, userId) && a.id == id
  {
    if id in apps && OwnedBy(apps[id], props, userId) {
      assert apps[id] in FindByPropertyOwner(apps, props, userId);
    }
  }

  class ApplicationService {
    const applicationDao: ApplicationDao
    const propertyDao: PropertyData.PropertyDao
    const userDao: UserData.UserDao

    constructor (applicationDao: ApplicationDao, propertyDao: PropertyData.PropertyDao, userDao: UserData.UserDao)
      ensures this.applicationDao == applicationDao && this.propertyDao == propertyDao && this.userDao == userDao
    {
      this.applicationDao := applicationDao;
      this.propertyDao := propertyDao;
      this.userDao := userDao;
    }

    /**
     * `submitApplication`: on a check failure nothing is stored; otherwise the draft, linked
     * to the property and the user and typed by the listing, is stored under a new id with
     * its status left as the draft had it.
     */
    method SubmitApplication(propertyId: Id, userId: Id, application: Application, now: Time)
      returns (r: Result<Application>)
      requires applicationDao.Valid()
      modifies applicationDao
      ensures applicationDao.Valid()
      ensures r.Failure? <==> SubmitError(old(applicationDao.rows), propertyDao.rows, userDao.rows, propertyId, userId).Some?
      ensures r.Failure? ==> Some(r.message) == SubmitError(old(applicationDao.rows), propertyDao.rows, userDao.rows, propertyId, userId)
      ensures r.Failure? ==> applicationDao.rows == old(applicationDao.rows)
      ensures r.Success? ==>
                && propertyId in propertyDao.rows
                && r.value == application.(id := r.value.id, propertyId := propertyId, userId := userId,
                                           applicationType := Some(ApplicationTypeFor(propertyDao.rows[propertyId].listingType)),
                                           createdAt := now)
                && r.value.id == old(applicationDao.nextId) && r.value.id !in old(applicationDao.rows)
                && applicationDao.rows == old(applicationDao.rows)[r.value.id := r.value]
    {
      if HasApplication(applicationDao.rows, userId, propertyId) {
        return Failure(DuplicateApplication);
      }
      var property := propertyDao.FindById(propertyId);
      var user := userDao.FindById(userId);
      if property.None? || user.None? {
        return Failure(PropertyOrUserNotFound);
      }
      var draft := application.(propertyId := propertyId, userId := userId,
                                applicationType := Some(ApplicationTypeFor(property.value.listingType)));
      var saved := applicationDao.Save(draft, now);
      r := Success(saved);
    }

    /** The shared shape of the four status operations: load, overwrite the status, merge. */
    method ChangeStatus(id: Id, s: ApplicationStatus)
      requires applicationDao.Valid()
      modifies applicationDao`rows
      ensures applicationDao.Valid() && applicationDao.rows == WithStatus(old(applicationDao.rows), id, s)
    {
      var application := applicationDao.FindById(id);
      if application.Some? {
        applicationDao.Update(application.value.(status := s));
      }
    }

    /** `approveApplication`: a stored application becomes APPROVED, from any status. */
    method ApproveApplication(id: Id)
      requires applicationDao.Valid()
      modifies applicationDao`rows
      ensures applicationDao.Valid() && applicationDao.rows == WithStatus(old(applicationDao.rows), id, Approved)
    {
      ChangeStatus(id, Approved);
    }

    /** `rejectApplication`: a stored application becomes REJECTED, from any status. */
    method RejectApplication(id: Id)
      requires applicationDao.Valid()
      modifies applicationDao`rows
      ensures applicationDao.Valid() && applicationDao.rows == WithStatus(old(applicationDao.rows), id, Rejected)
    {
      ChangeStatus(id, Rejected);
    }

    /** `markUnderReview`: a stored application becomes UNDER_REVIEW, from any status. */
    method MarkUnderReview(id: Id)
      requires applicationDao.Valid()
      modifies applicationDao`rows
      ensures applicationDao.Valid() && applicationDao.rows == WithStatus(old(applicationDao.rows), id, UnderReview)
    {
      ChangeStatus(id, UnderReview);
    }

    /** `withdrawApplication`: a stored application becomes WITHDRAWN, even an APPROVED one. */
    method WithdrawApplication(id: Id)
      requires applicationDao.Valid()
      modifies applicationDao`rows
      ensures applicationDao.Valid() && applicationDao.rows == WithStatus(old(applicationDao.rows), id, Withdrawn)
    {
      ChangeStatus(id, Withdrawn);
    }

    /**
     * `isPropertyOwner`: false for an unknown application; otherwise whether its property's
     * owner is `userId` (false as well when that property is gone).
     */
    method IsPropertyOwner(id: Id, userId: Id) returns (b: bool)
      ensures id !in applicationDao.rows ==> !b
      ensures id in applicationDao.rows ==>
                (b <==> applicationDao.rows[id].propertyId in propertyDao.rows
                        && propertyDao.rows[applicationDao.rows[id].propertyId].ownerId == userId)
    {
      var application := applicationDao.FindById(id);
      b := application.Some? && OwnedBy(application.value, propertyDao.rows, userId);
    }

    /** `isApplicant`: false for an unknown application; otherwise whether `userId` submitted it. */
    method IsApplicant(id: Id, userId: Id) returns (b: bool)
      ensures id !in applicationDao.rows ==> !b
      ensures id in applicationDao.rows ==> (b <==> applicationDao.rows[id].userId == userId)
    {
      var application := applicationDao.FindById(id);
      b := application.Some? && application.value.userId == userId;
    }
  }
}
