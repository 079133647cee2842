/** The user table. E-mail lookups compare the stored address with the given one exactly. */
module UserData {
  import opened Common
  import opened Ordering
  import opened UserEntity

  class UserDao {
    var rows: map<Id, User>
    /** The next value of the identity column. */
    var nextId: Id

    /** Every row is stored under its own id, and every id is below the next one to be issued. */
    ghost predicate Valid()
      reads this
    {
      KeyedById(rows) && forall k :: k in rows ==> k < nextId
    }

    constructor ()
      ensures Valid() && rows == map[]
    {
      rows := map[];
      nextId := 0;
    }

    /** `save` (persist): the identity column gives the user a new id; nothing else changes. */
    method Save(u: User) returns (saved: User)
      requires Valid()
      modifies this
      ensures Valid()
      ensures saved == u.(id := old(nextId)) && saved.id !in old(rows)
      ensures rows == old(rows)[saved.id := saved] && nextId == old(nextId) + 1
    {
      saved := u.(id := nextId);
      rows := rows[nextId := saved];
      nextId := nextId + 1;
    }

    /** `update` (merge) of a stored user: the row is overwritten. */
    method Update(u: User)
      requires Valid() && u.id in rows
      modifies this`rows
      ensures Valid() && rows == old(rows)[u.id := u]
    {
      rows := rows[u.id := u];
    }

    /** `delete`: the user's row is removed. */
    method Delete(u: User)
      requires Valid()
      modifies this`rows
      ensures Valid() && rows == old(rows) - {u.id}
    {
      rows := rows - {u.id};
    }

    /** `findById`: the stored row, or null. */
    function FindById(id: Id): (r: Option<User>)
      reads this
      ensures r.Some? <==> id in rows
      ensures r.Some? ==> r.value == rows[id]
    {
      if id in rows then Some(rows[id]) else None
    }

    /**
     * `findByEmail`: the first user with exactly this e-mail, or null. The query has no
     * ORDER BY, so which of several is returned is unspecified.
     */
    method FindByEmail(email: string) returns (r: Option<User>)
      ensures r.None? <==> !EmailExists(rows, email)
      ensures r.Some? ==> r.value in rows.Values && r.value.email == email
    {
      if EmailExists(rows, email) {
        var k :| k in rows && rows[k].email == email;
        r := Some(rows[k]);
      } else {
        r := None;
      }
    }
  }

  /** Every row is stored under its own id. */
  ghost predicate KeyedById(rows: map<Id, User>)
  {
    forall k :: k in rows ==> rows[k].id == k
  }

  /** No two users share an e-mail address. */
  ghost predicate EmailsUnique(rows: map<Id, User>)
  {
    forall k1, k2 :: k1 in rows && k2 in rows && rows[k1].email == rows[k2].email ==> k1 == k2
  }

  function EmailIds(rows: map<Id, User>, email: string): set<Id>
  {
    set k | k in rows && rows[k].email == email
  }

  /** `emailExists`: the count of users with this e-mail is positive, that is, one exists. */
  function EmailExists(rows: map<Id, User>, email: string): (b: bool)
    ensures b <==> exists k :: k in rows && rows[k].email == email
  {
    var ids := EmailIds(rows, email);
    assert forall k :: (k in rows && rows[k].email == email) ==> k in ids;
    |ids| > 0
  }

  /** With unique e-mails, `findByEmail`'s choice is forced: the one user with that address. */
  lemma EmailIdentifiesUser(rows: map<Id, User>, email: string, k: Id)
    requires EmailsUnique(rows) && k in rows && rows[k].email == email
    ensures EmailIds(rows, email) == {k}
  {
  }

  /** `findAll`: every user, in no particular order. */
  ghost function FindAll(rows: map<Id, User>): (r: seq<User>)
    ensures |r| == |rows.Keys|
    ensures forall u :: u in r <==> u in rows.Values
  {
    Unordered(rows, rows.Keys)
  }

  /** `findByRole`: the users holding one role, in no particular order. */
  ghost function FindByRole(rows: map<Id, User>, role: UserRole): (r: seq<User>)
    ensures forall u :: u in r <==> u in rows.Values && u.role == role
    ensures |r| == |RoleIds(rows, role)|
  {
    Unordered(rows, RoleIds(rows, role))
  }

  function RoleIds(rows: map<Id, User>, role: UserRole): set<Id>
  {
    set k | k in rows && rows[k].role == role
  }

  /** `findActiveUsers`: the users whose account is active, in no particular order. */
  ghost function FindActiveUsers(rows: map<Id, User>): (r: seq<User>)
    ensures forall u :: u in r <==> u in rows.Values && u.isActive
    ensures |r| == |ActiveIds(rows)|
  {
    Unordered(rows, ActiveIds(rows))
  }

  function ActiveIds(rows: map<Id, User>): set<Id>
  {
    set k | k in rows && rows[k].isActive
  }
}
