/**
 * The application controller. Submission only needs a logged-in caller: the owner
 * redirect lives in the GET form alone, so a direct POST by the owner reaches the
 * service. The owner's status operations are guarded by the property-owner check and
 * withdrawal by the applicant check.
 */
module ApplicationHandlers {
  import opened Common
  import opened Web
  import opened ApplicationEntity
  import opened ApplicationData
  import opened ApplicationWorkflow
  import PropertyEntity
  import PropertyWorkflow
  import UserEntity

  /**
   * Nothing in the submission checks looks at who owns the property: an owner with no
   * active application for their own listing passes them all.
   */
  lemma OwnerMayApplyToOwnProperty(apps: map<Id, Application>, props: map<Id, PropertyEntity.Property>,
                                   users: map<Id, UserEntity.User>, propertyId: Id)
    requires propertyId in props && props[propertyId].ownerId in users
    requires !HasApplication(apps, props[propertyId].ownerId, propertyId)
    ensures SubmitError(apps, props, users, propertyId, props[propertyId].ownerId).None?
  {
  }

  class ApplicationController {
    const applicationService: ApplicationService
    const propertyService: PropertyWorkflow.PropertyService

    constructor (applicationService: ApplicationService, propertyService: PropertyWorkflow.PropertyService)
      ensures this.applicationService == applicationService && this.propertyService == propertyService
    {
      this.applicationService := applicationService;
      this.propertyService := propertyService;
    }

    /** `showApplicationForm` (GET): login, then an existing property, then not the caller's own. */
    method ShowApplicationForm(caller: Option<Id>, propertyId: Id) returns (f: FormOutcome)
      ensures caller.None? ==> f == LoginRedirect
      ensures caller.Some? && propertyId !in propertyService.propertyDao.rows ==> f == ListingRedirect
      ensures caller.Some? && propertyId in propertyService.propertyDao.rows ==>
                (f == OwnPropertyRedirect <==> propertyService.propertyDao.rows[propertyId].ownerId == caller.value)
      ensures f == ShowForm <==> caller.Some? && propertyId in propertyService.propertyDao.rows
                                 && propertyService.propertyDao.rows[propertyId].ownerId != caller.value
    {
      if caller.None? {
        return LoginRedirect;
      }
      var property := propertyService.propertyDao.FindById(propertyId);
      if property.None? {
        return ListingRedirect;
      }
      if property.value.ownerId == caller.value {
        return OwnPropertyRedirect;
      }
      f := ShowForm;
    }

    /**
     * `submitApplication` (POST): login, then the service; a refusal is caught and shown,
     * with nothing stored.
     */
    method SubmitApplication(caller: Option<Id>, propertyId: Id, application: Application, now: Time) returns (o: Outcome)
      requires applicationService.applicationDao.Valid()
      modifies applicationService.applicationDao
      ensures applicationService.applicationDao.Valid()
      ensures caller.None? ==> o == LoginRequired
      ensures caller.Some? ==>
                var e := SubmitError(old(applicationService.applicationDao.rows), applicationService.propertyDao.rows,
                                     applicationService.userDao.rows, propertyId, caller.value);
                (o == Done <==> e.None?) && (e.Some? ==> o == Failed(e.value))
      ensures o != Done ==> applicationService.applicationDao.rows == old(applicationService.applicationDao.rows)
      ensures o == Done ==>
                var id := old(applicationService.applicationDao.nextId);
                && propertyId in applicationService.propertyDao.rows
                && id !in old(applicationService.applicationDao.rows)
                && applicationService.applicationDao.rows == old(applicationService.applicationDao.rows)[
                     id := application.(id := id, propertyId := propertyId, userId := caller.value,
                                        applicationType := Some(ApplicationTypeFor(applicationService.propertyDao.rows[propertyId].listingType)),
                                        createdAt := now)]
    {
      if caller.None? {
        return LoginRequired;
      }
      var r := applicationService.SubmitApplication(propertyId, caller.value, application, now);
      if r.Failure? {
        return Failed(r.message);
      }
      o := Done;
    }

    /** `approveApplication` (POST): login, then the property-owner check; the application becomes APPROVED. */
    method ApproveApplication(caller: Option<Id>, id: Id) returns (o: Outcome)
      requires applicationService.applicationDao.Valid()
      modifies applicationService.applicationDao`rows
      ensures applicationService.applicationDao.Valid()
      ensures caller.None? ==> o == LoginRequired
      ensures o == Done <==> caller.Some? && id in old(applicationService.applicationDao.rows)
                             && OwnedBy(old(applicationService.applicationDao.rows)[id], applicationService.propertyDao.rows, caller.value)
      ensures caller.Some? && o != Done ==> o == Denied
      ensures o != Done ==> applicationService.applicationDao.rows == old(applicationService.applicationDao.rows)
      ensures o == Done ==> applicationService.applicationDao.rows == WithStatus(old(applicationService.applicationDao.rows), id, Approved)
    {
      if caller.None? {
        return LoginRequired;
      }
      var owner := applicationService.IsPropertyOwner(id, caller.value);
      if !owner {
        return Denied;
      }
      applicationService.ApproveApplication(id);
      o := Done;
    }

    /** `rejectApplication` (POST): login, then the property-owner check; the application becomes REJECTED. */
    method RejectApplication(caller: Option<Id>, id: Id) returns (o: Outcome)
      requires applicationService.applicationDao.Valid()
      modifies applicationService.applicationDao`rows
      ensures applicationService.applicationDao.Valid()
      ensures caller.None? ==> o == LoginRequired
      ensures o == Done <==> caller.Some? && id in old(applicationService.applicationDao.rows)
                             && OwnedBy(old(applicationService.applicationDao.rows)[id], applicationService.propertyDao.rows, caller.value)
      ensures caller.Some? && o != Done ==> o == Denied
      ensures o != Done ==> applicationService.applicationDao.rows == old(applicationService.applicationDao.rows)
      ensures o == Done ==> applicationService.applicationDao.rows == WithStatus(old(applicationService.applicationDao.rows), id, Rejected)
    {
      if caller.None? {
        return LoginRequired;
      }
      var owner := applicationService.IsPropertyOwner(id, caller.value);
      if !owner {
        return Denied;
      }
      applicationService.RejectApplication(id);
      o := Done;
    }

    /** `withdrawApplication` (POST): login, then the applicant check; the application becomes WITHDRAWN. */
    method WithdrawApplication(caller: Option<Id>, id: Id) returns (o: Outcome)
      requires applicationService.applicationDao.Valid()
      modifies applicationService.applicationDao`rows
      ensures applicationService.applicationDao.Valid()
      ensures caller.None? ==> o == LoginRequired
      ensures o == Done <==> caller.Some? && id in old(applicationService.applicationDao.rows)
                             && old(applicationService.applicationDao.rows)[id].userId == caller.value
      ensures caller.Some? && o != Done ==> o == Denied
      ensures o != Done ==> applicationService.applicationDao.rows == old(applicationService.applicationDao.rows)
      ensures o == Done ==> applicationService.applicationDao.rows == WithStatus(old(applicationService.applicationDao.rows), id, Withdrawn)
    {
      if caller.None? {
        return LoginRequired;
      }
      var applicant := applicationService.IsApplicant(id, caller.value);
      if !applicant {
        return Denied;
      }
      applicationService.WithdrawApplication(id);
      o := Done;
    }

    /** `markUnderReview` (POST): login, then the property-owner check; the application becomes UNDER_REVIEW. */
    method MarkUnderReview(caller: Option<Id>, id: Id) returns (o: Outcome)
      requires applicationService.applicationDao.Valid()
      modifies applicationService.applicationDao`rows
      ensures applicationService.applicationDao.Valid()
      ensures caller.None? ==> o == LoginRequired
      ensures o == Done <==> caller.Some? && id in old(applicationService.applicationDao.rows)
                             && OwnedBy(old(applicationService.applicationDao.rows)[id], applicationService.propertyDao.rows, caller.value)
      ensures caller.Some? && o != Done ==> o == Denied
      ensures o != Done ==> applicationService.applicationDao.rows == old(applicationService.applicationDao.rows)
      ensures o == Done ==> applicationService.applicationDao.rows == WithStatus(old(applicationService.applicationDao.rows), id, UnderReview)
    {
      if caller.None? {
        return LoginRequired;
      }
      var owner := applicationService.IsPropertyOwner(id, caller.value);
      if !owner {
        return Denied;
      }
      applicationService.MarkUnderReview(id);
      o := Done;
    }
  }
}
