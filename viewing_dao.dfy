/**
 * The viewing table. Rows are `Viewing` values; `save`, `update` and `findById` hand
 * `PropertyViewing` objects across, and the persistence hooks of the entity run on them.
 * Lists are ordered by the viewing date, not by creation time.
 */
module ViewingData {
  import opened Common
  import opened Ordering
  import opened ViewingEntity
  import PropertyEntity

  class ViewingDao {
    var rows: map<Id, Viewing>
    /** The next value of the identity column. */
    var nextId: Id

    /** Every row is stored under its own id, and every id is below the next one to be issued. */
    ghost predicate Valid()
      reads this
    {
      KeyedById(rows) && forall k :: k in rows ==> k < nextId
    }

    constructor ()
      ensures Valid() && rows == map[]
    {
      rows := map[];
      nextId := 0;
    }

    /**
     * `save` (persist): the persist hook stamps both timestamps, the identity column
     * gives the entity its id, and the entity's state becomes the new row.
     */
    method Save(v: PropertyViewing, now: Time)
      requires Valid() && v.id.None?
      modifies this, v`id, v`createdAt, v`updatedAt
      ensures Valid() && v.Persisted()
      ensures v.id == Some(old(nextId)) && v.createdAt == Some(now) && v.updatedAt == Some(now)
      ensures old(nextId) !in old(rows)
      ensures rows == old(rows)[old(nextId) := v.Record()] && nextId == old(nextId) + 1
    {
      v.OnCreate(now);
      v.id := Some(nextId);
      rows := rows[nextId := v.Record()];
      nextId := nextId + 1;
    }

    /**
     * `update` (merge) of a stored entity. The update hook runs only when the entity's
     * state differs from the stored row (a flush writes dirty entities only); then the
     * row takes the entity's state with the new `updatedAt`.
     */
    method Update(v: PropertyViewing, now: Time)
      requires Valid() && v.Persisted() && v.id.value in rows
      modifies this`rows, v`updatedAt
      ensures Valid() && v.Persisted()
      ensures old(v.Record()) == old(rows)[v.id.value] ==> rows == old(rows) && v.updatedAt == old(v.updatedAt)
      ensures old(v.Record()) != old(rows)[v.id.value] ==>
                v.updatedAt == Some(now) && rows == old(rows)[v.id.value := v.Record()]
    {
      if v.Record() != rows[v.id.value] {
        v.OnUpdate(now);
        rows := rows[v.id.value := v.Record()];
      }
    }

    /** `delete` of a stored entity: its row is removed. */
    method Delete(v: PropertyViewing)
      requires Valid() && v.id.Some?
      modifies this`rows
      ensures Valid() && rows == old(rows) - {v.id.value}
    {
      rows := rows - {v.id.value};
    }

    /** `findById`: a freshly loaded entity holding the stored row, or null. */
    method FindById(id: Id) returns (v: PropertyViewing?)
      ensures v == null <==> id !in rows
      ensures v != null ==> fresh(v) && v.Persisted() && v.Record() == rows[id]
    {
      if id !in rows {
        return null;
      }
      var row := rows[id];
      v := new PropertyViewing();
      v.id := Some(row.id);
      v.propertyId := row.propertyId;
      v.userId := row.userId;
      v.viewingDate := row.viewingDate;
      v.status := row.status;
      v.message := row.message;
      v.createdAt := Some(row.createdAt);
      v.updatedAt := Some(row.updatedAt);
    }
  }

  /** Every row is stored under its own id. */
  ghost predicate KeyedById(rows: map<Id, Viewing>)
  {
    forall k :: k in rows ==> rows[k].id == k
  }

  /** The statuses that block a new request for the same user and property. */
  predicate IsActive(s: ViewingStatus)
  {
    s == Pending || s == Approved
  }

  /** Ordered by viewing date, latest first (`ascending == false`) or earliest first. */
  ghost predicate ByDateOrder(s: seq<Viewing>, ascending: bool)
  {
    forall i, j :: 0 <= i < j < |s| ==> InOrder(s[i].viewingDate, s[j].viewingDate, ascending)
  }

  /** Sorts the rows with ids `ids` by viewing date. */
  ghost function ByDate(rows: map<Id, Viewing>, ids: set<Id>, ascending: bool): (r: seq<Viewing>)
    requires ids <= rows.Keys
    ensures |r| == |ids|
    ensures forall v :: v in r <==> exists k :: k in ids && rows[k] == v
    ensures ByDateOrder(r, ascending)
  {
    var r := Select(rows, ids, (v: Viewing) => v.viewingDate, ascending);
    assert SortedBy(r, (v: Viewing) => v.viewingDate, ascending);
    r
  }

  /** The property of viewing `v` exists and belongs to `ownerId`. */
  predicate OwnedBy(v: Viewing, props: map<Id, PropertyEntity.Property>, ownerId: Id)
  {
    v.propertyId in props && props[v.propertyId].ownerId == ownerId
  }

  function ActiveIds(rows: map<Id, Viewing>, userId: Id, propertyId: Id): set<Id>
  {
    set k | k in rows && rows[k].userId == userId && rows[k].propertyId == propertyId && IsActive(rows[k].status)
  }

  /**
   * `hasViewingRequest`: the count of the pair's PENDING or APPROVED requests is
   * positive, that is, such a request exists.
   */
  function HasViewingRequest(rows: map<Id, Viewing>, userId: Id, propertyId: Id): (b: bool)
    ensures b <==> exists k :: k in rows && rows[k].userId == userId && rows[k].propertyId == propertyId
                               && IsActive(rows[k].status)
  {
    var ids := ActiveIds(rows, userId, propertyId);
    assert forall k :: (k in rows && rows[k].userId == userId && rows[k].propertyId == propertyId
                        && IsActive(rows[k].status)) ==> k in ids;
    |ids| > 0
  }

  /** `findAll`: every viewing, latest date first. */
  ghost function FindAll(rows: map<Id, Viewing>): (r: seq<Viewing>)
    ensures forall v :: v in r <==> v in rows.Values
    ensures ByDateOrder(r, false)
    ensures |r| == |rows.Keys|
  {
    ByDate(rows, rows.Keys, false)
  }

  /** `findByUser`: the requester's viewings, latest date first. */
  ghost function FindByUser(rows: map<Id, Viewing>, userId: Id): (r: seq<Viewing>)
    ensures forall v :: v in r <==> v in rows.Values && v.userId == userId
    ensures ByDateOrder(r, false)
    ensures |r| == |UserIds(rows, userId)|
  {
    ByDate(rows, UserIds(rows, userId), false)
  }

  function UserIds(rows: map<Id, Viewing>, userId: Id): set<Id>
  {
    set k | k in rows && rows[k].userId == userId
  }

  /** `findByProperty`: the viewings of one property, latest date first. */
  ghost function FindByProperty(rows: map<Id, Viewing>, propertyId: Id): (r: seq<Viewing>)
    ensures forall v :: v in r <==> v in rows.Values && v.propertyId == propertyId
    ensures ByDateOrder(r, false)
    ensures |r| == |PropertyIds(rows, propertyId)|
  {
    ByDate(rows, PropertyIds(rows, propertyId), false)
  }

  function PropertyIds(rows: map<Id, Viewing>, propertyId: Id): set<Id>
  {
    set k | k in rows && rows[k].propertyId == propertyId
  }

  /** `findByPropertyOwner`: the viewings of the owner's properties, latest date first. */
  ghost function FindByPropertyOwner(rows: map<Id, Viewing>, props: map<Id, PropertyEntity.Property>,
                                     ownerId: Id): (r: seq<Viewing>)
    ensures forall v :: v in r <==> v in rows.Values && OwnedBy(v, props, ownerId)
    ensures ByDateOrder(r, false)
    ensures |r| == |OwnerIds(rows, props, ownerId)|
  {
    ByDate(rows, OwnerIds(rows, props, ownerId), false)
  }

  function OwnerIds(rows: map<Id, Viewing>, props: map<Id, PropertyEntity.Property>, ownerId: Id): set<Id>
  {
    set k | k in rows && OwnedBy(rows[k], props, ownerId)
  }

  /** `findByStatus`: the viewings in one status, latest date first. */
  ghost function FindByStatus(rows: map<Id, Viewing>, status: ViewingStatus): (r: seq<Viewing>)
    ensures forall v :: v in r <==> v in rows.Values && v.status == status
    ensures ByDateOrder(r, false)
    ensures |r| == |StatusIds(rows, status)|
  {
    ByDate(rows, StatusIds(rows, status), false)
  }

  function StatusIds(rows: map<Id, Viewing>, status: ViewingStatus): set<Id>
  {
    set k | k in rows && rows[k].status == status
  }

  function PendingForOwnerIds(rows: map<Id, Viewing>, props: map<Id, PropertyEntity.Property>,
                              ownerId: Id): set<Id>
  {
    set k | k in rows && OwnedBy(rows[k], props, ownerId) && rows[k].status == Pending
  }

  /** `findPendingByOwner`: the PENDING viewings of the owner's properties, earliest date first. */
  ghost function FindPendingByOwner(rows: map<Id, Viewing>, props: map<Id, PropertyEntity.Property>,
                                    ownerId: Id): (r: seq<Viewing>)
    ensures forall v :: v in r <==> v in rows.Values && OwnedBy(v, props, ownerId) && v.status == Pending
    ensures ByDateOrder(r, true)
    ensures |r| == |PendingForOwnerIds(rows, props, ownerId)|
  {
    ByDate(rows, PendingForOwnerIds(rows, props, ownerId), true)
  }

  /**
   * `findUpcomingByUser`: the user's APPROVED viewings whose date is strictly after the
   * clock reading `now`, earliest first.
   */
  ghost function FindUpcomingByUser(rows: map<Id, Viewing>, userId: Id, now: Time): (r: seq<Viewing>)
    ensures forall v :: v in r <==> v in rows.Values && v.userId == userId && v.status == Approved && v.viewingDate > now
    ensures |r| == |UpcomingIds(rows, userId, now)|
    ensures ByDateOrder(r, true)
  {
    ByDate(rows, UpcomingIds(rows, userId, now), true)
  }

  function UpcomingIds(rows: map<Id, Viewing>, userId: Id, now: Time): set<Id>
  {
    set k | k in rows && rows[k].userId == userId && rows[k].status == Approved && rows[k].viewingDate > now
  }

  /** A viewing upcoming at a later clock reading was upcoming at every earlier one. */
  lemma UpcomingShrinksOverTime(rows: map<Id, Viewing>, userId: Id, t1: Time, t2: Time)
    requires t1 <= t2
    ensures forall v :: v in FindUpcomingByUser(rows, userId, t2) ==> v in FindUpcomingByUser(rows, userId, t1)
  {
  }

  /** `countPendingByOwner` counts exactly the rows `findPendingByOwner` lists. */
  function CountPendingByOwner(rows: map<Id, Viewing>, props: map<Id, PropertyEntity.Property>,
                               ownerId: Id): (n: nat)
    ensures n == |FindPendingByOwner(rows, props, ownerId)|
  {
    |PendingForOwnerIds(rows, props, ownerId)|
  }
}
