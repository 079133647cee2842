/**
 * The viewing controller. The request form redirects the property's owner, but the
 * POST handler does not repeat that check. The date arrives as text in the pattern
 * yyyy-MM-dd'T'HH:mm; parsing it is a library call, so the handler receives its
 * result: the parsed time, or nothing when the text does not parse.
 */
module ViewingHandlers {
  import opened Common
  import opened Web
  import opened ViewingEntity
  import opened ViewingData
  import opened ViewingWorkflow
  import PropertyEntity
  import PropertyWorkflow
  import UserEntity

  /** Like applications, nothing in the request checks looks at who owns the property. */
  lemma OwnerMayRequestOwnProperty(views: map<Id, Viewing>, props: map<Id, PropertyEntity.Property>,
                                   users: map<Id, UserEntity.User>, propertyId: Id, viewingDate: Time, now: Time)
    requires propertyId in props && props[propertyId].ownerId in users && viewingDate >= now
    requires !HasViewingRequest(views, props[propertyId].ownerId, propertyId)
    ensures RequestError(views, props, users, propertyId, props[propertyId].ownerId, viewingDate, now).None?
  {
  }

  class ViewingController {
    const viewingService: ViewingService
    const propertyService: PropertyWorkflow.PropertyService

    constructor (viewingService: ViewingService, propertyService: PropertyWorkflow.PropertyService)
      ensures this.viewingService == viewingService && this.propertyService == propertyService
    {
      this.viewingService := viewingService;
      this.propertyService := propertyService;
    }

    /** `showRequestForm` (GET): login, then an existing property, then not the caller's own. */
    method ShowRequestForm(caller: Option<Id>, propertyId: Id) returns (f: FormOutcome)
      ensures caller.None? ==> f == LoginRedirect
      ensures caller.Some? && propertyId !in propertyService.propertyDao.rows ==> f == ListingRedirect
      ensures caller.Some? && propertyId in propertyService.propertyDao.rows ==>
                (f == OwnPropertyRedirect <==> propertyService.propertyDao.rows[propertyId].ownerId == caller.value)
      ensures f == ShowForm <==> caller.Some? && propertyId in propertyService.propertyDao.rows
                                 && propertyService.propertyDao.rows[propertyId].ownerId != caller.value
    {
      if caller.None? {
        return LoginRedirect;
      }
      var property := propertyService.propertyDao.FindById(propertyId);
      if property.None? {
        return ListingRedirect;
      }
      if property.value.ownerId == caller.value {
        return OwnPropertyRedirect;
      }
      f := ShowForm;
    }

    /**
     * `submitViewingRequest` (POST): login, then the parsed date, then the service; a
     * refusal is caught and shown, with nothing stored.
     */
    method SubmitViewingRequest(caller: Option<Id>, propertyId: Id, parsedDate: Option<Time>, message: string, now: Time)
      returns (o: Outcome)
      requires viewingService.viewingDao.Valid()
      modifies viewingService.viewingDao
      ensures viewingService.viewingDao.Valid()
      ensures caller.None? ==> o == LoginRequired
      ensures caller.Some? && parsedDate.None? ==> o == Invalid
      ensures caller.Some? && parsedDate.Some? ==>
                var e := RequestError(old(viewingService.viewingDao.rows), viewingService.propertyDao.rows,
                                      viewingService.userDao.rows, propertyId, caller.value, parsedDate.value, now);
                (o == Done <==> e.None?) && (e.Some? ==> o == Failed(e.value))
      ensures o != Done ==> viewingService.viewingDao.rows == old(viewingService.viewingDao.rows)
      ensures o == Done ==>
                var id := old(viewingService.viewingDao.nextId);
                && caller.Some? && parsedDate.Some?
                && id !in old(viewingService.viewingDao.rows)
                && viewingService.viewingDao.rows == old(viewingService.viewingDao.rows)[
                     id := Viewing(id, propertyId, caller.value, parsedDate.value, Pending, message, now, now)]
    {
      if caller.None? {
        return LoginRequired;
      }
      if parsedDate.None? {
        return Invalid;
      }
      var r := viewingService.RequestViewing(propertyId, caller.value, parsedDate.value, message, now);
      if r.Failure? {
        return Failed(r.message);
      }
      o := Done;
    }

    /** `approveViewing` (POST): login, then the property-owner check; the viewing becomes APPROVED. */
    method ApproveViewing(caller: Option<Id>, id: Id, now: Time) returns (o: Outcome)
      requires viewingService.viewingDao.Valid()
      modifies viewingService.viewingDao`rows
      ensures viewingService.viewingDao.Valid()
      ensures caller.None? ==> o == LoginRequired
      ensures o == Done <==> caller.Some? && id in old(viewingService.viewingDao.rows)
                             && OwnedBy(old(viewingService.viewingDao.rows)[id], viewingService.propertyDao.rows, caller.value)
      ensures caller.Some? && o != Done ==> o == Denied
      ensures o != Done ==> viewingService.viewingDao.rows == old(viewingService.viewingDao.rows)
      ensures o == Done ==> viewingService.viewingDao.rows == WithStatus(old(viewingService.viewingDao.rows), id, Approved, now)
    {
      if caller.None? {
        return LoginRequired;
      }
      var owner := viewingService.IsPropertyOwner(id, caller.value);
      if !owner {
        return Denied;
      }
      viewingService.ApproveViewing(id, now);
      o := Done;
    }

    /** `rejectViewing` (POST): login, then the property-owner check; the viewing becomes REJECTED. */
    method RejectViewing(caller: Option<Id>, id: Id, now: Time) returns (o: Outcome)
      requires viewingService.viewingDao.Valid()
      modifies viewingService.viewingDao`rows
      ensures viewingService.viewingDao.Valid()
      ensures caller.None? ==> o == LoginRequired
      ensures o == Done <==> caller.Some? && id in old(viewingService.viewingDao.rows)
                             && OwnedBy(old(viewingService.viewingDao.rows)[id], viewingService.propertyDao.rows, caller.value)
      ensures caller.Some? && o != Done ==> o == Denied
      ensures o != Done ==> viewingService.viewingDao.rows == old(viewingService.viewingDao.rows)
      ensures o == Done ==> viewingService.viewingDao.rows == WithStatus(old(viewingService.viewingDao.rows), id, Rejected, now)
    {
      if caller.None? {
        return LoginRequired;
      }
      var owner := viewingService.IsPropertyOwner(id, caller.value);
      if !owner {
        return Denied;
      }
      viewingService.RejectViewing(id, now);
      o := Done;
    }

    /** `cancelViewing` (POST): login, then the requester check; the viewing becomes CANCELLED. */
    method CancelViewing(caller: Option<Id>, id: Id, now: Time) returns (o: Outcome)
      requires viewingService.viewingDao.Valid()
      modifies viewingService.viewingDao`rows
      ensures viewingService.viewingDao.Valid()
      ensures caller.None? ==> o == LoginRequired
      ensures o == Done <==> caller.Some? && id in old(viewingService.viewingDao.rows)
                             && old(viewingService.viewingDao.rows)[id].userId == caller.value
      ensures caller.Some? && o != Done ==> o == Denied
      ensures o != Done ==> viewingService.viewingDao.rows == old(viewingService.viewingDao.rows)
      ensures o == Done ==> viewingService.viewingDao.rows == WithStatus(old(viewingService.viewingDao.rows), id, Cancelled, now)
    {
      if caller.None? {
        return LoginRequired;
      }
      var requester := viewingService.IsRequester(id, caller.value);
      if !requester {
        return Denied;
      }
      viewingService.CancelViewing(id, now);
      o := Done;
    }

    /** `completeViewing` (POST): login, then the property-owner check; the viewing becomes COMPLETED. */
    method CompleteViewing(caller: Option<Id>, id: Id, now: Time) returns (o: Outcome)
      requires viewingService.viewingDao.Valid()
      modifies viewingService.viewingDao`rows
      ensures viewingService.viewingDao.Valid()
      ensures caller.None? ==> o == LoginRequired
      ensures o == Done <==> caller.Some? && id in old(viewingService.viewingDao.rows)
                             && OwnedBy(old(viewingService.viewingDao.rows)[id], viewingService.propertyDao.rows, caller.value)
      ensures caller.Some? && o != Done ==> o == Denied
      ensures o != Done ==> viewingService.viewingDao.rows == old(viewingService.viewingDao.rows)
      ensures o == Done ==> viewingService.viewingDao.rows == WithStatus(old(viewingService.viewingDao.rows), id, Completed, now)
    {
      if caller.None? {
        return LoginRequired;
      }
      var owner := viewingService.IsPropertyOwner(id, caller.value);
      if !owner {
        return Denied;
      }
      viewingService.CompleteViewing(id, now);
      o := Done;
    }
  }
}
