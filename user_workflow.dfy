/**
 * The account service: registration with a unique e-mail, login as a fixed chain of
 * checks over the user found by e-mail, and the admin's activate and deactivate.
 */
module UserWorkflow {
  import opened Common
  import opened UserEntity
  import opened UserData

  const EmailTaken := "Email already registered"
  const UserNotFound := "User not found"
  const InvalidPassword := "Invalid password"
  const AccountDeactivated := "Account is deactivated"

  /**
   * The decision `loginUser` makes once the lookup by e-mail is done: unknown user, then
   * a wrong password, then a deactivated account; the user comes back only when all pass.
   */
  function LoginDecision(found: Option<User>, password: string): (r: Result<User>)
    ensures found.None? ==> r == Failure(UserNotFound)
    ensures found.Some? && found.value.password != password ==> r == Failure(InvalidPassword)
    ensures found.Some? && found.value.password == password && !found.value.isActive ==> r == Failure(AccountDeactivated)
    ensures r.Success? <==> found.Some? && found.value.password == password && found.value.isActive
    ensures r.Success? ==> r.value == found.value
  {
    if found.None? then Failure(UserNotFound)
    else if found.value.password != password then Failure(InvalidPassword)
    else if !found.value.isActive then Failure(AccountDeactivated)
    else Success(found.value)
  }

  /**
   * The table after `activateUser` or `deactivateUser`: a stored user takes the active
   * flag and update time `now`, nothing else changes; an unknown id changes nothing.
   */
  function SetActive(rows: map<Id, User>, id: Id, active: bool, now: Time): (r: map<Id, User>)
    ensures id !in rows ==> r == rows
    ensures r.Keys == rows.Keys
    ensures forall k :: k in rows && k != id ==> r[k] == rows[k]
    ensures id in rows ==> r[id].isActive == active && r[id].updatedAt == now
    ensures id in rows ==> r[id].(isActive := rows[id].isActive, updatedAt := rows[id].updatedAt) == rows[id]
  {
    if id in rows then rows[id := rows[id].(isActive := active, updatedAt := now)] else rows
  }

  /** Activating or deactivating twice is the same as the second call alone. */
  lemma SetActiveTwiceIsOnce(rows: map<Id, User>, id: Id, active: bool, t1: Time, t2: Time)
    ensures SetActive(SetActive(rows, id, active, t1), id, active, t2) == SetActive(rows, id, active, t2)
  {
  }

  /** The flag is all activation touches: e-mails, and hence their uniqueness, stay as they were. */
  lemma SetActiveKeepsEmailsUnique(rows: map<Id, User>, id: Id, active: bool, now: Time)
    requires EmailsUnique(rows)
    ensures EmailsUnique(SetActive(rows, id, active, now))
  {
    var r := SetActive(rows, id, active, now);
    forall k | k in r
      ensures r[k].email == rows[k].email
    {
    }
  }

  /** A deactivated account is refused whatever password is given. */
  lemma DeactivatedCannotLogIn(rows: map<Id, User>, id: Id, password: string, now: Time)
    requires id in rows
    ensures LoginDecision(Some(SetActive(rows, id, false, now)[id]), password).Failure?
  {
  }

  /** Storing a user whose e-mail is not yet taken keeps e-mails unique. */
  lemma RegisterPreservesUniqueEmails(rows: map<Id, User>, u: User)
    requires EmailsUnique(rows) && u.id !in rows && !EmailExists(rows, u.email)
    ensures EmailsUnique(rows[u.id := u])
  {
  }

  /**
   * Right after registering, logging in with the same e-mail and password succeeds and
   * yields the new user, as long as e-mails were unique.
   */
  lemma RegisteredUserCanLogIn(rows: map<Id, User>, u: User)
    requires EmailsUnique(rows) && u.id !in rows && !EmailExists(rows, u.email) && u.isActive
    ensures EmailIds(rows[u.id := u], u.email) == {u.id}
    ensures LoginDecision(Some(rows[u.id := u][u.id]), u.password) == Success(u)
  {
    RegisterPreservesUniqueEmails(rows, u);
    EmailIdentifiesUser(rows[u.id := u], u.email, u.id);
  }

  class UserService {
    const userDao: UserDao

    constructor (userDao: UserDao)
      ensures this.userDao == userDao
    {
      this.userDao := userDao;
    }

    /**
     * `registerUser`: refused with nothing stored when the e-mail is taken; otherwise the
     * user is stored under a new id, active whatever the input said, stamped at `now`.
     */
    method RegisterUser(user: User, now: Time) returns (r: Result<User>)
      requires userDao.Valid()
      modifies userDao
      ensures userDao.Valid()
      ensures r.Failure? <==> EmailExists(old(userDao.rows), user.email)
      ensures r.Failure? ==> r.message == EmailTaken && userDao.rows == old(userDao.rows)
      ensures r.Success? ==>
                && r.value == user.(id := r.value.id, createdAt := now, updatedAt := now, isActive := true)
                && r.value.id == old(userDao.nextId) && r.value.id !in old(userDao.rows)
                && userDao.rows == old(userDao.rows)[r.value.id := r.value]
    {
      if EmailExists(userDao.rows, user.email) {
        return Failure(EmailTaken);
      }
      var stamped := user.(createdAt := now, updatedAt := now, isActive := true);
      var saved := userDao.Save(stamped);
      r := Success(saved);
    }

    /**
     * `loginUser`: an unknown e-mail fails with "User not found"; otherwise the outcome is
     * the login decision for a user stored with that e-mail.
     */
    method LoginUser(email: string, password: string) returns (r: Result<User>)
      ensures !EmailExists(userDao.rows, email) ==> r == Failure(UserNotFound)
      ensures EmailExists(userDao.rows, email) ==>
                exists k :: k in userDao.rows && userDao.rows[k].email == email
                            && r == LoginDecision(Some(userDao.rows[k]), password)
      ensures r.Success? ==> r.value in userDao.rows.Values && r.value.email == email
                             && r.value.password == password && r.value.isActive
    {
      var user := userDao.FindByEmail(email);
      r := LoginDecision(user, password);
      if user.Some? {
        var k :| k in userDao.rows && userDao.rows[k] == user.value;
        assert userDao.rows[k].email == email && r == LoginDecision(Some(userDao.rows[k]), password);
      }
    }

    /** `updateUser`: the caller's record, with only `updatedAt` changed, replaces the stored one. */
    method UpdateUser(user: User, now: Time) returns (updated: User)
      requires userDao.Valid() && user.id in userDao.rows
      modifies userDao`rows
      ensures userDao.Valid()
      ensures updated.updatedAt == now && updated.(updatedAt := user.updatedAt) == user
      ensures userDao.rows == old(userDao.rows)[user.id := updated]
    {
      updated := user.(updatedAt := now);
      userDao.Update(updated);
    }

    /** The shared shape of activation: load, set the flag and update time, merge. */
    method ChangeActive(id: Id, active: bool, now: Time)
      requires userDao.Valid()
      modifies userDao`rows
      ensures userDao.Valid() && userDao.rows == SetActive(old(userDao.rows), id, active, now)
    {
      var user := userDao.FindById(id);
      if user.Some? {
        userDao.Update(user.value.(isActive := active, updatedAt := now));
      }
    }

    /** `deactivateUser`: a stored user becomes inactive; an unknown id changes nothing. */
    method DeactivateUser(id: Id, now: Time)
      requires userDao.Valid()
      modifies userDao`rows
      ensures userDao.Valid() && userDao.rows == SetActive(old(userDao.rows), id, false, now)
    {
      ChangeActive(id, false, now);
    }

    /** `activateUser`: a stored user becomes active; an unknown id changes nothing. */
    method ActivateUser(id: Id, now: Time)
      requires userDao.Valid()
      modifies userDao`rows
      ensures userDao.Valid() && userDao.rows == SetActive(old(userDao.rows), id, true, now)
    {
      ChangeActive(id, true, now);
    }
  }
}
