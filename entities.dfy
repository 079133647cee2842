/*
 * The persistent records other than viewings. The entity classes Property, Application,
 * User and Favorite are not part of this model: their fields are the ones the services,
 * DAOs and controllers read and write. Object references between entities
 * (`application.getProperty()`, `property.getOwner()`) become the referenced record's id.
 */

/** Listings. */
module PropertyEntity {
  import opened Common

  /** Lifecycle of a listing. */
  datatype PropertyStatus = Pending | Approved | Rejected | Sold | Rented

  /** Whether a listing is for sale or for rent. */
  datatype ListingType = Sale | Rent

  /** The housing category. Only equality on it is used, so it is kept abstract as its enum name. */
  datatype PropertyType = PropertyType(name: string)

  /**
   * A listing. `title` stands for the descriptive fields (title, description, address)
   * that no rule of the workflow reads; prices are whole numbers since only comparisons are used.
   */
  datatype Property = Property(
    id: Id,
    ownerId: Id,
    title: string,
    city: string,
    propertyType: PropertyType,
    listingType: ListingType,
    price: int,
    bedrooms: int,
    status: PropertyStatus,
    createdAt: Time,
    updatedAt: Time)
}

/** Purchase and rental applications. */
module ApplicationEntity {
  import opened Common

  /** Lifecycle of an application. */
  datatype ApplicationStatus = Pending | UnderReview | Approved | Rejected | Withdrawn

  /** What an application asks for; derived from the listing type on submission. */
  datatype ApplicationType = Purchase | Rental

  /**
   * An application by user `userId` for property `propertyId`. `applicationType` is null until
   * the service derives it; `details` stands for the applicant's form fields.
   */
  datatype Application = Application(
    id: Id,
    propertyId: Id,
    userId: Id,
    applicationType: Option<ApplicationType>,
    status: ApplicationStatus,
    details: string,
    createdAt: Time)
}

/** Accounts. */
module UserEntity {
  import opened Common

  /** The account roles. */
  datatype UserRole = Admin | Owner | Agent | Buyer | Renter

  /** `role.toString()`: the Java enum constant's name, as stored in the session. */
  function RoleName(r: UserRole): string
  {
    match r
    case Admin => "ADMIN"
    case Owner => "OWNER"
    case Agent => "AGENT"
    case Buyer => "BUYER"
    case Renter => "RENTER"
  }

  /** An account; the password is compared as stored. */
  datatype User = User(
    id: Id,
    email: string,
    password: string,
    role: UserRole,
    isActive: bool,
    createdAt: Time,
    updatedAt: Time)
}

/** Favorites: user `userId` has marked property `propertyId`. */
module FavoriteEntity {
  import opened Common

  datatype Favorite = Favorite(id: Id, userId: Id, propertyId: Id, createdAt: Time)
}
