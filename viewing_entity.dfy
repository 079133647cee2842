/**
 * The viewing entity: a mutable object whose constructor fills its fields, whose setters
 * overwrite one field each, and whose persistence hooks stamp its timestamps. The database
 * row it is stored as is the value `Viewing`.
 */
module ViewingEntity {
  import opened Common

  /** The five states of a viewing request. */
  datatype ViewingStatus = Pending | Approved | Rejected | Completed | Cancelled

  /** A stored viewing row. */
  datatype Viewing = Viewing(
    id: Id,
    propertyId: Id,
    userId: Id,
    viewingDate: Time,
    status: ViewingStatus,
    message: string,
    createdAt: Time,
    updatedAt: Time)

  class PropertyViewing {
    /** Null until the entity is persisted. */
    var id: Option<Id>
    var propertyId: Id
    var userId: Id
    var viewingDate: Time
    var status: ViewingStatus
    var message: string
    /** Null until the persist hook runs. */
    var createdAt: Option<Time>
    var updatedAt: Option<Time>

    /** The entity has an id and both timestamps, as every stored row does. */
    ghost predicate Persisted()
      reads this
    {
      id.Some? && createdAt.Some? && updatedAt.Some?
    }

    /** The row this entity is stored as. */
    function Record(): (v: Viewing)
      reads this
      requires Persisted()
    {
      Viewing(id.value, propertyId, userId, viewingDate, status, message, createdAt.value, updatedAt.value)
    }

    /**
     * The no-argument constructor used when a row is loaded. Only the field initialiser
     * runs, so the status is PENDING; the property, user, date and message are null in
     * Java and unspecified here.
     */
    constructor ()
      ensures status == Pending
      ensures id == None && createdAt == None && updatedAt == None
    {
      id := None;
      propertyId := 0;
      userId := 0;
      viewingDate := 0;
      status := Pending;
      message := "";
      createdAt := None;
      updatedAt := None;
    }

    /** The four-argument constructor: a new PENDING request with the given parts. */
    constructor Request(propertyId: Id, userId: Id, viewingDate: Time, message: string)
      ensures this.propertyId == propertyId && this.userId == userId
      ensures this.viewingDate == viewingDate && this.message == message
      ensures status == Pending
      ensures id == None && createdAt == None && updatedAt == None
    {
      id := None;
      this.propertyId := propertyId;
      this.userId := userId;
      this.viewingDate := viewingDate;
      this.message := message;
      status := Pending;
      createdAt := None;
      updatedAt := None;
    }

    /** `setStatus`: overwrites the status and nothing else. */
    method SetStatus(s: ViewingStatus)
      modifies this`status
      ensures status == s
    {
      status := s;
    }

    /** The persist hook: both timestamps take the same clock reading. */
    method OnCreate(now: Time)
      modifies this`createdAt, this`updatedAt
      ensures createdAt == Some(now) && updatedAt == Some(now)
    {
      createdAt := Some(now);
      updatedAt := Some(now);
    }

    /** The update hook: only `updatedAt` changes. */
    method OnUpdate(now: Time)
      modifies this`updatedAt
      ensures updatedAt == Some(now)
    {
      updatedAt := Some(now);
    }
  }
}
