/**
 * The application table and its queries. Queries that go through the property
 * (`a.property.owner.id`) join the application's `propertyId` against the property rows;
 * an application whose property row is gone matches no owner.
 */
module ApplicationData {
  import opened Common
  import opened Ordering
  import opened ApplicationEntity
  import PropertyEntity

  class ApplicationDao {
    var rows: map<Id, Application>
    /** The next value of the identity column. */
    var nextId: Id

    /** Every row is stored under its own id, and every id is below the next one to be issued. */
    ghost predicate Valid()
      reads this
    {
      KeyedById(rows) && forall k :: k in rows ==> k < nextId
    }

    constructor ()
      ensures Valid() && rows == map[]
    {
      rows := map[];
      nextId := 0;
    }

    /**
     * `save` (persist): the identity column gives the record a new id, and the
     * creation time is stamped at `now` (assumed persist hook of the entity).
     */
    method Save(a: Application, now: Time) returns (saved: Application)
      requires Valid()
      modifies this
      ensures Valid()
      ensures saved == a.(id := old(nextId), createdAt := now) && saved.id !in old(rows)
      ensures rows == old(rows)[saved.id := saved] && nextId == old(nextId) + 1
    {
      saved := a.(id := nextId, createdAt := now);
      rows := rows[nextId := saved];
      nextId := nextId + 1;
    }

    /** `update` (merge) of a record whose id is stored: the row is overwritten. */
    method Update(a: Application)
      requires Valid() && a.id in rows
      modifies this`rows
      ensures Valid() && rows == old(rows)[a.id := a]
    {
      rows := rows[a.id := a];
    }

    /** `findById`: the stored row, or null. */
    function FindById(id: Id): (r: Option<Application>)
      reads this
      ensures r.Some? <==> id in rows
      ensures r.Some? ==> r.value == rows[id]
    {
      if id in rows then Some(rows[id]) else None
    }
  }

  /** Every row is stored under its own id. */
  ghost predicate KeyedById(rows: map<Id, Application>)
  {
    forall k :: k in rows ==> rows[k].id == k
  }

  /** The statuses that block a new application for the same user and property. */
  predicate IsActive(s: ApplicationStatus)
  {
    s == Pending || s == UnderReview || s == Approved
  }

  /** `ORDER BY a.createdAt DESC`. */
  ghost predicate NewestFirst(s: seq<Application>)
  {
    forall i, j :: 0 <= i < j < |s| ==> s[i].createdAt >= s[j].createdAt
  }

  /** Sorts the rows with ids `ids` by creation time, newest first. */
  ghost function ByNewest(rows: map<Id, Application>, ids: set<Id>): (r: seq<Application>)
    requires ids <= rows.Keys
    ensures |r| == |ids|
    ensures forall a :: a in r <==> exists k :: k in ids && rows[k] == a
    ensures NewestFirst(r)
  {
    var r := Select(rows, ids, (a: Application) => a.createdAt, false);
    assert SortedBy(r, (a: Application) => a.createdAt, false);
    r
  }

  /** The property of application `a` exists and belongs to `ownerId`. */
  predicate OwnedBy(a: Application, props: map<Id, PropertyEntity.Property>, ownerId: Id)
  {
    a.propertyId in props && props[a.propertyId].ownerId == ownerId
  }

  function ActiveIds(rows: map<Id, Application>, userId: Id, propertyId: Id): set<Id>
  {
    set k | k in rows && rows[k].userId == userId && rows[k].propertyId == propertyId && IsActive(rows[k].status)
  }

  /**
   * `hasApplication`: the count of the pair's PENDING, UNDER_REVIEW or APPROVED applications
   * is positive, that is, such an application exists.
   */
  function HasApplication(rows: map<Id, Application>, userId: Id, propertyId: Id): (b: bool)
    ensures b <==> exists k :: k in rows && rows[k].userId == userId && rows[k].propertyId == propertyId
                               && IsActive(rows[k].status)
  {
    var ids := ActiveIds(rows, userId, propertyId);
    assert forall k :: (k in rows && rows[k].userId == userId && rows[k].propertyId == propertyId
                        && IsActive(rows[k].status)) ==> k in ids;
    |ids| > 0
  }

  /** REJECTED and WITHDRAWN applications never block: if the pair has only those, `hasApplication` is false. */
  lemma ResolvedApplicationsDoNotBlock(rows: map<Id, Application>, userId: Id, propertyId: Id)
    requires forall k :: k in rows && rows[k].userId == userId && rows[k].propertyId == propertyId
                         ==> rows[k].status == Rejected || rows[k].status == Withdrawn
    ensures !HasApplication(rows, userId, propertyId)
  {
  }

  /** `findAll`: every application, newest first. */
  ghost function FindAll(rows: map<Id, Application>): (r: seq<Application>)
    ensures forall a :: a in r <==> a in rows.Values
    ensures NewestFirst(r)
    ensures |r| == |rows.Keys|
  {
    ByNewest(rows, rows.Keys)
  }

  function UserIds(rows: map<Id, Application>, userId: Id): set<Id>
  {
    set k | k in rows && rows[k].userId == userId
  }

  /** `findByUser`: the applicant's applications in every status, newest first. */
  ghost function FindByUser(rows: map<Id, Application>, userId: Id): (r: seq<Application>)
    ensures forall a :: a in r <==> a in rows.Values && a.userId == userId
    ensures NewestFirst(r)
    ensures |r| == |UserIds(rows, userId)|
  {
    ByNewest(rows, UserIds(rows, userId))
  }

  /** `findByProperty`: the applications for one property, newest first. */
  ghost function FindByProperty(rows: map<Id, Application>, propertyId: Id): (r: seq<Application>)
    ensures forall a :: a in r <==> a in rows.Values && a.propertyId == propertyId
    ensures NewestFirst(r)
    ensures |r| == |PropertyIds(rows, propertyId)|
  {
    ByNewest(rows, PropertyIds(rows, propertyId))
  }

  function PropertyIds(rows: map<Id, Application>, propertyId: Id): set<Id>
  {
    set k | k in rows && rows[k].propertyId == propertyId
  }

  /** `findByPropertyOwner`: applications for the owner's properties (selected by owner, not applicant), newest first. */
  ghost function FindByPropertyOwner(rows: map<Id, Application>, props: map<Id, PropertyEntity.Property>,
                                     ownerId: Id): (r: seq<Application>)
    ensures forall a :: a in r <==> a in rows.Values && OwnedBy(a, props, ownerId)
    ensures NewestFirst(r)
    ensures |r| == |OwnerIds(rows, props, ownerId)|
  {
    ByNewest(rows, OwnerIds(rows, props, ownerId))
  }

  function OwnerIds(rows: map<Id, Application>, props: map<Id, PropertyEntity.Property>, ownerId: Id): set<Id>
  {
    set k | k in rows && OwnedBy(rows[k], props, ownerId)
  }

  /** `findByStatus`: the applications in one status, newest first. */
  ghost function FindByStatus(rows: map<Id, Application>, status: ApplicationStatus): (r: seq<Application>)
    ensures forall a :: a in r <==> a in rows.Values && a.status == status
    ensures NewestFirst(r)
    ensures |r| == |StatusIds(rows, status)|
  {
    ByNewest(rows, StatusIds(rows, status))
  }

  function StatusIds(rows: map<Id, Application>, status: ApplicationStatus): set<Id>
  {
    set k | k in rows && rows[k].status == status
  }

  function PendingForOwnerIds(rows: map<Id, Application>, props: map<Id, PropertyEntity.Property>,
                              ownerId: Id): set<Id>
  {
    set k | k in rows && OwnedBy(rows[k], props, ownerId) && rows[k].status == Pending
  }

  /** `findPendingByOwner`: the PENDING applications for the owner's properties, newest first. */
  ghost function FindPendingByOwner(rows: map<Id, Application>, props: map<Id, PropertyEntity.Property>,
                                    ownerId: Id): (r: seq<Application>)
    ensures forall a :: a in r <==> a in rows.Values && OwnedBy(a, props, ownerId) && a.status == Pending
    ensures NewestFirst(r)
    ensures |r| == |PendingForOwnerIds(rows, props, ownerId)|
  {
    ByNewest(rows, PendingForOwnerIds(rows, props, ownerId))
  }

  /** The owner's pending list is exactly the PENDING part of the owner's full list. */
  lemma PendingByOwnerIsPendingPart(rows: map<Id, Application>, props: map<Id, PropertyEntity.Property>, ownerId: Id)
    ensures forall a :: a in FindPendingByOwner(rows, props, ownerId) <==>
                        a in FindByPropertyOwner(rows, props, ownerId) && a.status == Pending
  {
  }

  /** `countPendingByOwner` counts exactly the rows `findPendingByOwner` lists. */
  function CountPendingByOwner(rows: map<Id, Application>, props: map<Id, PropertyEntity.Property>,
                               ownerId: Id): (n: nat)
    ensures n == |FindPendingByOwner(rows, props, ownerId)|
  {
    |PendingForOwnerIds(rows, props, ownerId)|
  }

  /** `countByUser` counts exactly the rows `findByUser` lists. */
  function CountByUser(rows: map<Id, Application>, userId: Id): (n: nat)
    ensures n == |FindByUser(rows, userId)|
  {
    |UserIds(rows, userId)|
  }
}
