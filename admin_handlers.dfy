/**
 * The admin controller's gate: only a session whose role attribute is exactly "ADMIN"
 * reaches the listing approval and account activation services; anyone else is sent to
 * the login page with nothing changed.
 */
module AdminHandlers {
  import opened Common
  import opened Web
  import PropertyEntity
  import PropertyWorkflow
  import UserWorkflow

  /** `isAdmin`: the session's role attribute is present and equal to "ADMIN". */
  function IsAdmin(role: Option<string>): (b: bool)
    ensures b <==> role == Some("ADMIN")
  {
    role.Some? && role.value == "ADMIN"
  }

  class AdminController {
    const propertyService: PropertyWorkflow.PropertyService
    const userService: UserWorkflow.UserService

    constructor (propertyService: PropertyWorkflow.PropertyService, userService: UserWorkflow.UserService)
      ensures this.propertyService == propertyService && this.userService == userService
    {
      this.propertyService := propertyService;
      this.userService := userService;
    }

    /**
     * `approveProperty` (POST): the admin gate, then the service. An unknown id still
     * ends as done, because the service silently does nothing.
     */
    method ApproveProperty(role: Option<string>, id: Id, now: Time) returns (o: Outcome)
      requires propertyService.propertyDao.Valid()
      modifies propertyService.propertyDao`rows
      ensures propertyService.propertyDao.Valid()
      ensures !IsAdmin(role) ==> o == LoginRequired && propertyService.propertyDao.rows == old(propertyService.propertyDao.rows)
      ensures IsAdmin(role) ==> o == Done && propertyService.propertyDao.rows
                                            == PropertyWorkflow.WithStatus(old(propertyService.propertyDao.rows), id, PropertyEntity.Approved, now)
    {
      if !IsAdmin(role) {
        return LoginRequired;
      }
      var approved := propertyService.ApproveProperty(id, now);
      o := Done;
    }

    /** `rejectProperty` (POST): the admin gate, then the service. */
    method RejectProperty(role: Option<string>, id: Id, now: Time) returns (o: Outcome)
      requires propertyService.propertyDao.Valid()
      modifies propertyService.propertyDao`rows
      ensures propertyService.propertyDao.Valid()
      ensures !IsAdmin(role) ==> o == LoginRequired && propertyService.propertyDao.rows == old(propertyService.propertyDao.rows)
      ensures IsAdmin(role) ==> o == Done && propertyService.propertyDao.rows
                                            == PropertyWorkflow.WithStatus(old(propertyService.propertyDao.rows), id, PropertyEntity.Rejected, now)
    {
      if !IsAdmin(role) {
        return LoginRequired;
      }
      var rejected := propertyService.RejectProperty(id, now);
      o := Done;
    }

    /** `deactivateUser` (POST): the admin gate, then the service. */
    method DeactivateUser(role: Option<string>, id: Id, now: Time) returns (o: Outcome)
      requires userService.userDao.Valid()
      modifies userService.userDao`rows
      ensures userService.userDao.Valid()
      ensures !IsAdmin(role) ==> o == LoginRequired && userService.userDao.rows == old(userService.userDao.rows)
      ensures IsAdmin(role) ==> o == Done && userService.userDao.rows == UserWorkflow.SetActive(old(userService.userDao.rows), id, false, now)
    {
      if !IsAdmin(role) {
        return LoginRequired;
      }
      userService.DeactivateUser(id, now);
      o := Done;
    }

    /** `activateUser` (POST): the admin gate, then the service. */
    method ActivateUser(role: Option<string>, id: Id, now: Time) returns (o: Outcome)
      requires userService.userDao.Valid()
      modifies userService.userDao`rows
      ensures userService.userDao.Valid()
      ensures !IsAdmin(role) ==> o == LoginRequired && userService.userDao.rows == old(userService.userDao.rows)
      ensures IsAdmin(role) ==> o == Done && userService.userDao.rows == UserWorkflow.SetActive(old(userService.userDao.rows), id, true, now)
    {
      if !IsAdmin(role) {
        return LoginRequired;
      }
      userService.ActivateUser(id, now);
      o := Done;
    }
  }
}
