/**
 * The authentication controller: registration and login accept only addresses that end
 * in "@gmail.com" once lower-cased, checked before anything else. A successful login
 * fills the session and sends an admin to the admin dashboard, everyone else to the
 * user dashboard.
 */
module AuthHandlers {
  import opened Common
  import opened Text
  import opened Web
  import opened UserEntity
  import opened UserData
  import opened UserWorkflow
  import AdminHandlers

  const GmailOnly := "Only Gmail addresses (@gmail.com) are allowed!"
  const AdminDashboard := "/admin/dashboard"
  const UserDashboard := "/dashboard"

  /**
   * The Gmail rule: the lower-cased address ends with "@gmail.com", that is, it is some
   * local part followed by that domain.
   */
  function IsGmail(email: string): (b: bool)
    ensures b <==> exists local :: Lower(email) == local + "@gmail.com"
  {
    var s := Lower(email);
    assert forall local :: s == local + "@gmail.com" ==> EndsWith(s, "@gmail.com") by {
      forall local | s == local + "@gmail.com"
        ensures EndsWith(s, "@gmail.com")
      {
        assert s[|local|..] == "@gmail.com";
      }
    }
    if EndsWith(s, "@gmail.com") then
      assert s == s[..|s| - 10] + "@gmail.com";
      true
    else
      false
  }

  /** The Gmail rule ignores letter case: an address passes exactly when its lower-cased form does. */
  lemma {:induction false} GmailCheckIgnoresCase(email: string)
    ensures IsGmail(email) <==> IsGmail(Lower(email))
  {
    LowerIdempotent(email);
  }

  /** An address that passes the Gmail rule is at least as long as the suffix it must end with. */
  lemma GmailAddressHasSuffixLength(email: string)
    requires IsGmail(email)
    ensures |email| >= |"@gmail.com"|
  {
  }

  /** Where a logged-in user lands: the admin dashboard for ADMIN, the user dashboard otherwise. */
  function LandingPage(role: UserRole): (page: string)
    ensures page == AdminDashboard <==> role == Admin
    ensures page == UserDashboard <==> role != Admin
  {
    if role == Admin then AdminDashboard else UserDashboard
  }

  /**
   * The role name a login stores is the one the admin gate looks for exactly when the
   * role is ADMIN, which is also exactly when the login lands on the admin dashboard.
   */
  lemma {:induction false} AdminRoleConsistency(role: UserRole)
    ensures AdminHandlers.IsAdmin(Some(RoleName(role))) <==> role == Admin
    ensures AdminHandlers.IsAdmin(Some(RoleName(role))) <==> LandingPage(role) == AdminDashboard
  {
    match role
    case Admin =>
    case Owner => assert RoleName(role)[0] != "ADMIN"[0];
    case Agent => assert RoleName(role)[1] != "ADMIN"[1];
    case Buyer => assert RoleName(role)[0] != "ADMIN"[0];
    case Renter => assert RoleName(role)[0] != "ADMIN"[0];
  }

  class AuthController {
    const userService: UserService

    constructor (userService: UserService)
      ensures this.userService == userService
    {
      this.userService := userService;
    }

    /**
     * `registerUser` (POST): the Gmail rule, then validation errors, then the service,
     * whose refusal is shown with nothing stored.
     */
    method RegisterUser(user: User, hasErrors: bool, now: Time) returns (o: Outcome)
      requires userService.userDao.Valid()
      modifies userService.userDao
      ensures userService.userDao.Valid()
      ensures !IsGmail(user.email) ==> o == Failed(GmailOnly)
      ensures IsGmail(user.email) && hasErrors ==> o == Invalid
      ensures IsGmail(user.email) && !hasErrors && EmailExists(old(userService.userDao.rows), user.email) ==> o == Failed(EmailTaken)
      ensures o == Done <==> IsGmail(user.email) && !hasErrors && !EmailExists(old(userService.userDao.rows), user.email)
      ensures o != Done ==> userService.userDao.rows == old(userService.userDao.rows)
      ensures o == Done ==>
                var id := old(userService.userDao.nextId);
                id !in old(userService.userDao.rows)
                && userService.userDao.rows == old(userService.userDao.rows)[
                     id := user.(id := id, createdAt := now, updatedAt := now, isActive := true)]
    {
      if !IsGmail(user.email) {
        return Failed(GmailOnly);
      }
      if hasErrors {
        return Invalid;
      }
      var r := userService.RegisterUser(user, now);
      if r.Failure? {
        return Failed(r.message);
      }
      o := Done;
    }

    /**
     * `loginUser` (POST): the Gmail rule, then the service's login; on success the session
     * holds the user, its id and its role name, and the result is the landing page.
     * A failure leaves the session as it was and carries the message shown.
     */
    method LoginUser(email: string, password: string, session: Session) returns (r: Result<string>)
      modifies session
      ensures !IsGmail(email) ==> r == Failure(GmailOnly)
      ensures IsGmail(email) && !EmailExists(userService.userDao.rows, email) ==> r == Failure(UserNotFound)
      ensures IsGmail(email) && EmailExists(userService.userDao.rows, email) ==>
                exists k :: k in userService.userDao.rows && userService.userDao.rows[k].email == email
                            && (LoginDecision(Some(userService.userDao.rows[k]), password).Failure? ==>
                                  r == Failure(LoginDecision(Some(userService.userDao.rows[k]), password).message))
                            && (LoginDecision(Some(userService.userDao.rows[k]), password).Success? ==> r.Success?)
      ensures r.Failure? ==> unchanged(session)
      ensures r.Success? ==>
                && IsGmail(email) && session.loggedInUser.Some?
                && var u := session.loggedInUser.value;
                && u in userService.userDao.rows.Values && u.email == email && u.password == password && u.isActive
                && session.userId == Some(u.id) && session.userRole == Some(RoleName(u.role))
                && r.value == LandingPage(u.role)
    {
      if !IsGmail(email) {
        return Failure(GmailOnly);
      }
      var login := userService.LoginUser(email, password);
      if login.Failure? {
        return Failure(login.message);
      }
      var user := login.value;
      session.loggedInUser := Some(user);
      session.userId := Some(user.id);
      session.userRole := Some(RoleName(user.role));
      r := Success(LandingPage(user.role));
    }
  }
}
