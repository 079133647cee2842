/**
 * What the controllers hand back and the session they read. A handler's view name or
 * redirect target is reduced to the case it stands for; flash messages are kept only
 * where they carry a service error.
 */
module Web {
  import opened Common
  import UserEntity

  /** The result of a state-changing handler. */
  datatype Outcome =
    | LoginRequired        // no logged-in user (or no admin role): redirect to the login page
    | Denied               // the ownership or applicant check failed: redirect, nothing done
    | Invalid              // form validation or input parsing failed: form shown again, nothing done
    | Failed(message: string)  // the service refused: its message is shown, nothing done
    | Done                 // the service call went through

  /** The result of a GET handler that shows a request form for a property. */
  datatype FormOutcome =
    | LoginRedirect        // no logged-in user
    | ListingRedirect      // unknown property: back to the listing
    | OwnPropertyRedirect  // the caller owns the property: back to its page
    | ShowForm             // the form is shown

  /** The three attributes a successful login stores in the HTTP session. */
  class Session {
    var loggedInUser: Option<UserEntity.User>
    var userId: Option<Id>
    var userRole: Option<string>

    /** A fresh session holds none of them. */
    constructor ()
      ensures loggedInUser == None && userId == None && userRole == None
    {
      loggedInUser := None;
      userId := None;
      userRole := None;
    }
  }
}
