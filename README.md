# Real-estate listing workflow, modelled in Dafny

This project models the workflow layer of a real-estate listing web application:

- owners list properties, which wait for an administrator's approval before they appear publicly;
- buyers and renters submit applications and request viewings;
- users save favorites;
- accounts register, log in and are activated or deactivated by an administrator.

The model has three layers, matching the application.

- **Store (DAOs).** Each table is a DAO class that holds its rows as `map<Id, Record>` plus the next identity value. `save`, `update` and `delete` are methods that reassign the map. Every JPQL query is a pure function of the rows. A list query returns each row its WHERE clause admits exactly once (its length is the size of the matching id set), sorted by its ORDER BY key; ties are left in unspecified order. A count query is proved equal to the length of the matching list query. An existence query (`COUNT(...) > 0`) is proved equivalent to an `exists`.
- **Services.** Each service is a class over its DAOs. Each state-changing operation is proved against a pure function of the old table, for example `WithStatus(rows, id, s, now)` or `SetActive(rows, id, active, now)`. The checks that come before a write are pure functions too: `SubmitError`, `RequestError`, `AddError` and `LoginDecision`. The properties are lemmas over those functions:
  - duplicate prevention per (user, property) pair, and resubmission after rejection;
  - idempotence of the status operations;
  - counts rising by one;
  - e-mail and favorite uniqueness.
- **Controllers.** Each handler is a method that takes the caller explicitly: `caller: Option<Id>` for the logged-in user, `role: Option<string>` for the session's role attribute. Its `Outcome` says whether the service was reached. Every refusal leaves the store unchanged.

`PropertyViewing` is the one entity whose source is available. It is a class with mutable fields, a default and a 4-argument constructor, a status setter, and the persist and update hooks. The viewing DAO moves these objects in and out of its `Viewing` rows.

The viewing date check follows the code: `isBefore(now)` refuses only dates strictly earlier than the clock reading. A request whose date equals the current time is therefore accepted (`ViewingWorkflow.DateEqualToNowAccepted`), though a "future" date is what the error message asks for.

## Model

| member | source | states |
|---|---|---|
| ViewingEntity.PropertyViewing.constructor | src/main/java/com/realestate/management/model/PropertyViewing.java:27 | a viewing built without arguments is PENDING, with no id and no timestamps |
| ViewingEntity.PropertyViewing.Request | src/main/java/com/realestate/management/model/PropertyViewing.java:61-67 | the 4-argument constructor stores property, user, date and message unchanged and sets PENDING |
| ViewingEntity.PropertyViewing.SetStatus | src/main/java/com/realestate/management/model/PropertyViewing.java:106-108 | only the status field changes |
| ViewingEntity.PropertyViewing.OnCreate | src/main/java/com/realestate/management/model/PropertyViewing.java:46-50 | createdAt and updatedAt take the same clock value; nothing else changes |
| ViewingEntity.PropertyViewing.OnUpdate | src/main/java/com/realestate/management/model/PropertyViewing.java:52-55 | only updatedAt changes |
| PropertyData.PropertyDao.Save | src/main/java/com/realestate/management/dao/PropertyDao.java:21-23 | the record is stored under a fresh id, and no other row changes |
| PropertyData.PropertyDao.Update | src/main/java/com/realestate/management/dao/PropertyDao.java:26-28 | the stored row with the record's id is overwritten |
| PropertyData.PropertyDao.Delete | src/main/java/com/realestate/management/dao/PropertyDao.java:31-33 | exactly the row with the record's id is removed |
| PropertyData.PropertyDao.FindById | src/main/java/com/realestate/management/dao/PropertyDao.java:36-38 | the stored row, or null for an unknown id |
| PropertyData.FindAll | src/main/java/com/realestate/management/dao/PropertyDao.java:41-45 | every row, once each, newest first |
| PropertyData.FindAllApproved | src/main/java/com/realestate/management/dao/PropertyDao.java:48-53 | exactly the APPROVED rows, newest first |
| PropertyData.FindByOwner | src/main/java/com/realestate/management/dao/PropertyDao.java:56-61 | exactly the owner's rows in every status, newest first |
| PropertyData.FindByStatus | src/main/java/com/realestate/management/dao/PropertyDao.java:64-69 | exactly the rows in that status, newest first |
| PropertyData.FindByListingType | src/main/java/com/realestate/management/dao/PropertyDao.java:72-78 | APPROVED rows of that listing type, newest first |
| PropertyData.FindByPropertyType | src/main/java/com/realestate/management/dao/PropertyDao.java:81-87 | APPROVED rows of that category, newest first |
| PropertyData.FindByCity | src/main/java/com/realestate/management/dao/PropertyDao.java:89-95 | APPROVED rows whose city contains the text, ignoring case, newest first |
| PropertyData.FindByPriceRange | src/main/java/com/realestate/management/dao/PropertyDao.java:99-105 | APPROVED rows with price in the closed range, cheapest first |
| PropertyData.FindByBedrooms | src/main/java/com/realestate/management/dao/PropertyDao.java:109-114 | APPROVED rows with at least that many bedrooms, newest first |
| PropertyData.SearchProperties | src/main/java/com/realestate/management/dao/PropertyDao.java:118-166 | results are all APPROVED; a row is listed iff it passes every present filter (inclusive bounds, case-insensitive city substring); newest first |
| PropertyData.SearchWithoutFiltersIsPublicListing | src/main/java/com/realestate/management/dao/PropertyDao.java:121-142 | with no filter given the search is the public listing |
| PropertyData.EmptyCityIsNoFilter | src/main/java/com/realestate/management/dao/PropertyDao.java:123-125 | an empty city text filters nothing, like a null one |
| PropertyData.CityFilterIgnoresCase | src/main/java/com/realestate/management/dao/PropertyDao.java:123-148 | a search text and its lower-cased form find the same rows |
| PropertyData.EmptyCityMatchesAll | src/main/java/com/realestate/management/dao/PropertyDao.java:89-95 | with an empty city text, findByCity selects exactly the APPROVED rows: the same listings as findAllApproved, and as many |
| PropertyData.CountByOwner | src/main/java/com/realestate/management/dao/PropertyDao.java:170-175 | equals the length of the owner's list |
| PropertyData.CountPending | src/main/java/com/realestate/management/dao/PropertyDao.java:178-183 | equals the length of the PENDING list |
| ApplicationData.ApplicationDao.Save | src/main/java/com/realestate/management/dao/ApplicationDao.java:21-23 | stored under a fresh id with its creation time stamped; no other row changes |
| ApplicationData.ApplicationDao.Update | src/main/java/com/realestate/management/dao/ApplicationDao.java:26-28 | the stored row with the record's id is overwritten |
| ApplicationData.ApplicationDao.FindById | src/main/java/com/realestate/management/dao/ApplicationDao.java:36-38 | the stored row, or null for an unknown id |
| ApplicationData.HasApplication | src/main/java/com/realestate/management/dao/ApplicationDao.java:105-117 | true iff the pair has an application that is PENDING, UNDER_REVIEW or APPROVED |
| ApplicationData.ResolvedApplicationsDoNotBlock | src/main/java/com/realestate/management/dao/ApplicationDao.java:111-115 | REJECTED and WITHDRAWN applications never make hasApplication true |
| ApplicationData.FindAll | src/main/java/com/realestate/management/dao/ApplicationDao.java:41-46 | every application, newest first |
| ApplicationData.FindByUser | src/main/java/com/realestate/management/dao/ApplicationDao.java:49-55 | the applicant's applications in every status, newest first |
| ApplicationData.FindByProperty | src/main/java/com/realestate/management/dao/ApplicationDao.java:58-64 | the applications for one property, newest first |
| ApplicationData.FindByPropertyOwner | src/main/java/com/realestate/management/dao/ApplicationDao.java:67-73 | applications whose property's owner is the given id, not whose applicant is; newest first |
| ApplicationData.FindByStatus | src/main/java/com/realestate/management/dao/ApplicationDao.java:76-82 | applications in one status, newest first |
| ApplicationData.FindPendingByOwner | src/main/java/com/realestate/management/dao/ApplicationDao.java:85-92 | PENDING applications for the owner's properties, newest first |
| ApplicationData.PendingByOwnerIsPendingPart | src/main/java/com/realestate/management/dao/ApplicationDao.java:67-92 | the owner's pending list is exactly the PENDING part of the owner's full list |
| ApplicationData.CountPendingByOwner | src/main/java/com/realestate/management/dao/ApplicationDao.java:95-102 | equals the length of the owner's pending list |
| ApplicationData.CountByUser | src/main/java/com/realestate/management/dao/ApplicationDao.java:120-126 | equals the length of the applicant's list |
| ViewingData.ViewingDao.Save | src/main/java/com/realestate/management/dao/ViewingDao.java:22-24 | the persist hook stamps both times, the entity gets a fresh id, and its state becomes the new row |
| ViewingData.ViewingDao.Update | src/main/java/com/realestate/management/dao/ViewingDao.java:27-29 | an entity equal to its row changes nothing; otherwise the update hook stamps it and it replaces the row |
| ViewingData.ViewingDao.Delete | src/main/java/com/realestate/management/dao/ViewingDao.java:32-34 | exactly the entity's row is removed |
| ViewingData.ViewingDao.FindById | src/main/java/com/realestate/management/dao/ViewingDao.java:37-39 | null for an unknown id; otherwise a fresh persisted entity holding the stored row |
| ViewingData.HasViewingRequest | src/main/java/com/realestate/management/dao/ViewingDao.java:117-128 | true iff the pair has a PENDING or APPROVED viewing |
| ViewingData.FindAll | src/main/java/com/realestate/management/dao/ViewingDao.java:42-47 | every viewing, latest date first |
| ViewingData.FindByUser | src/main/java/com/realestate/management/dao/ViewingDao.java:50-56 | the user's viewings in every status, latest date first |
| ViewingData.FindByProperty | src/main/java/com/realestate/management/dao/ViewingDao.java:59-65 | the viewings of one property, latest date first |
| ViewingData.FindByPropertyOwner | src/main/java/com/realestate/management/dao/ViewingDao.java:68-74 | viewings of the owner's properties, latest date first |
| ViewingData.FindByStatus | src/main/java/com/realestate/management/dao/ViewingDao.java:77-83 | viewings in one status, latest date first |
| ViewingData.FindPendingByOwner | src/main/java/com/realestate/management/dao/ViewingDao.java:86-94 | PENDING viewings of the owner's properties, earliest date first |
| ViewingData.FindUpcomingByUser | src/main/java/com/realestate/management/dao/ViewingDao.java:96-104 | the user's APPROVED viewings dated strictly after now, earliest first |
| ViewingData.UpcomingShrinksOverTime | src/main/java/com/realestate/management/dao/ViewingDao.java:96-104 | a viewing upcoming at a later time was upcoming at every earlier time |
| ViewingData.CountPendingByOwner | src/main/java/com/realestate/management/dao/ViewingDao.java:107-114 | equals the length of the owner's pending list |
| FavoriteData.FavoriteDao.Save | src/main/java/com/realestate/management/dao/FavoriteDao.java:20-22 | stored under a fresh id with its creation time stamped; no other row changes |
| FavoriteData.FavoriteDao.Delete | src/main/java/com/realestate/management/dao/FavoriteDao.java:25-27 | exactly the given favorite is removed; the others stay |
| FavoriteData.FavoriteDao.FindByUserAndProperty | src/main/java/com/realestate/management/dao/FavoriteDao.java:30-38 | null iff isFavorited is false; otherwise a stored favorite of that pair |
| FavoriteData.IsFavorited | src/main/java/com/realestate/management/dao/FavoriteDao.java:50-57 | true iff a favorite with that user and property exists |
| FavoriteData.FindFavoritesByUser | src/main/java/com/realestate/management/dao/FavoriteDao.java:41-47 | the user's favorites whose property exists, most recently saved first |
| FavoriteData.FindFavoritePropertiesByUser | src/main/java/com/realestate/management/dao/FavoriteDao.java:41-47 | the property of each of those favorites, position by position, so the list follows the favorites' newest-first order and has one entry per favorite |
| FavoriteData.CountByUser | src/main/java/com/realestate/management/dao/FavoriteDao.java:60-66 | the number of the user's favorite rows; positive iff the user has one |
| FavoriteData.CountMatchesList | src/main/java/com/realestate/management/dao/FavoriteDao.java:41-66 | when all of the user's favorites point at existing properties, the count equals the list length |
| UserData.UserDao.Save | src/main/java/com/realestate/management/dao/UserDao.java:19-21 | stored under a fresh id; no other row changes |
| UserData.UserDao.Update | src/main/java/com/realestate/management/dao/UserDao.java:24-26 | the stored row with the user's id is overwritten |
| UserData.UserDao.Delete | src/main/java/com/realestate/management/dao/UserDao.java:29-31 | exactly the user's row is removed |
| UserData.UserDao.FindById | src/main/java/com/realestate/management/dao/UserDao.java:34-36 | the stored row, or null for an unknown id |
| UserData.UserDao.FindByEmail | src/main/java/com/realestate/management/dao/UserDao.java:39-46 | null iff emailExists is false; otherwise a stored user whose e-mail equals the argument exactly |
| UserData.EmailExists | src/main/java/com/realestate/management/dao/UserDao.java:63-68 | true iff a user with exactly that e-mail exists |
| UserData.EmailIdentifiesUser | src/main/java/com/realestate/management/dao/UserDao.java:39-46 | with unique e-mails, the lookup can only return the one user with that address |
| UserData.FindAll | src/main/java/com/realestate/management/dao/UserDao.java:48-52 | every user, once each |
| UserData.FindByRole | src/main/java/com/realestate/management/dao/UserDao.java:55-60 | exactly the users with that role |
| UserData.FindActiveUsers | src/main/java/com/realestate/management/dao/UserDao.java:71-75 | exactly the active users |
| PropertyWorkflow.WithStatus | src/main/java/com/realestate/management/service/PropertyService.java:78-119 | an unknown id changes nothing; a stored listing takes the status and update time, from any prior status, and nothing else changes |
| PropertyWorkflow.StatusTwiceIsOnce | src/main/java/com/realestate/management/service/PropertyService.java:78-119 | the same status operation twice equals the second alone |
| PropertyWorkflow.PublicAfterStatusIffApproved | src/main/java/com/realestate/management/service/PropertyService.java:78-119 | after a status operation the listing is public iff the new status is APPROVED |
| PropertyWorkflow.NewListingAwaitsApproval | src/main/java/com/realestate/management/service/PropertyService.java:23-30 | a new PENDING listing leaves the public listing unchanged and raises the pending count by one |
| PropertyWorkflow.OwnershipMatchesOwnerListing | src/main/java/com/realestate/management/service/PropertyService.java:164-167 | the ownership test holds iff the listing appears in the user's own list |
| PropertyWorkflow.PropertyService.CreateProperty | src/main/java/com/realestate/management/service/PropertyService.java:23-30 | whatever the input carried, the stored listing is PENDING, owned by the given user, stamped now, under a fresh id |
| PropertyWorkflow.PropertyService.UpdateProperty | src/main/java/com/realestate/management/service/PropertyService.java:33-37 | the caller's record with only updatedAt changed replaces the row |
| PropertyWorkflow.PropertyService.DeleteProperty | src/main/java/com/realestate/management/service/PropertyService.java:40-45 | the row with that id is removed; an unknown id is a no-op |
| PropertyWorkflow.PropertyService.ApproveProperty | src/main/java/com/realestate/management/service/PropertyService.java:78-86 | the table becomes WithStatus(APPROVED); the result is null iff the id is unknown |
| PropertyWorkflow.PropertyService.RejectProperty | src/main/java/com/realestate/management/service/PropertyService.java:89-97 | the table becomes WithStatus(REJECTED); the result is null iff the id is unknown |
| PropertyWorkflow.PropertyService.MarkAsSold | src/main/java/com/realestate/management/service/PropertyService.java:100-108 | the table becomes WithStatus(SOLD), from any prior status; null iff unknown |
| PropertyWorkflow.PropertyService.MarkAsRented | src/main/java/com/realestate/management/service/PropertyService.java:111-119 | the table becomes WithStatus(RENTED), from any prior status; null iff unknown |
| PropertyWorkflow.PropertyService.GetPendingProperties | src/main/java/com/realestate/management/service/PropertyService.java:73-75 | exactly the PENDING listings, newest first, as many as countPending |
| PropertyWorkflow.PropertyService.IsOwner | src/main/java/com/realestate/management/service/PropertyService.java:164-167 | false for an unknown listing; otherwise true iff its owner is the user |
| ApplicationWorkflow.SubmitError | src/main/java/com/realestate/management/service/ApplicationService.java:30-41 | the duplicate error comes first, then not-found; no error iff the pair has no active application and both records exist |
| ApplicationWorkflow.ApplicationTypeFor | src/main/java/com/realestate/management/service/ApplicationService.java:47-52 | PURCHASE iff the listing is for SALE, RENTAL iff it is for RENT |
| ApplicationWorkflow.WithStatus | src/main/java/com/realestate/management/service/ApplicationService.java:85-121 | an unknown id changes nothing; a stored application takes the status from any prior status; nothing else changes |
| ApplicationWorkflow.StatusTwiceIsOnce | src/main/java/com/realestate/management/service/ApplicationService.java:85-121 | the same status operation twice equals once |
| ApplicationWorkflow.SubmitThenDuplicate | src/main/java/com/realestate/management/service/ApplicationService.java:30-54 | a stored active application of the pair makes the next submission a duplicate |
| ApplicationWorkflow.ReapplyAfterRejectOrWithdraw | src/main/java/com/realestate/management/service/ApplicationService.java:32-34 | once the pair's only active application is rejected or withdrawn, the duplicate check passes |
| ApplicationWorkflow.OwnershipMatchesOwnerQueue | src/main/java/com/realestate/management/service/ApplicationService.java:129-132 | the property-owner test holds iff the application is in the owner's received list |
| ApplicationWorkflow.ApplicationService.SubmitApplication | src/main/java/com/realestate/management/service/ApplicationService.java:30-56 | fails with SubmitError's message and nothing stored, or stores exactly one application linked to the property and user, typed by the listing, with the draft's status untouched |
| ApplicationWorkflow.ApplicationService.ApproveApplication | src/main/java/com/realestate/management/service/ApplicationService.java:85-91 | the table becomes WithStatus(APPROVED) |
| ApplicationWorkflow.ApplicationService.RejectApplication | src/main/java/com/realestate/management/service/ApplicationService.java:95-101 | the table becomes WithStatus(REJECTED) |
| ApplicationWorkflow.ApplicationService.MarkUnderReview | src/main/java/com/realestate/management/service/ApplicationService.java:105-111 | the table becomes WithStatus(UNDER_REVIEW) |
| ApplicationWorkflow.ApplicationService.WithdrawApplication | src/main/java/com/realestate/management/service/ApplicationService.java:115-121 | the table becomes WithStatus(WITHDRAWN), even from APPROVED |
| ApplicationWorkflow.ApplicationService.IsPropertyOwner | src/main/java/com/realestate/management/service/ApplicationService.java:129-132 | false for an unknown application; otherwise true iff its property's owner is the user |
| ApplicationWorkflow.ApplicationService.IsApplicant | src/main/java/com/realestate/management/service/ApplicationService.java:135-138 | false for an unknown application; otherwise true iff the user submitted it |
| ViewingWorkflow.RequestError | src/main/java/com/realestate/management/service/ViewingService.java:31-47 | duplicate first, then not-found, then a date strictly before now; no error iff none applies |
| ViewingWorkflow.DateEqualToNowAccepted | src/main/java/com/realestate/management/service/ViewingService.java:45-47 | a date equal to the clock reading passes the date check |
| ViewingWorkflow.WithStatus | src/main/java/com/realestate/management/service/ViewingService.java:86-122 | an unknown id changes nothing; the stored viewing ends in the status from any prior one, and is stamped only if the status changed |
| ViewingWorkflow.StatusTwiceIsOnce | src/main/java/com/realestate/management/service/ViewingService.java:86-122 | repeating a status operation, at any time, changes nothing more |
| ViewingWorkflow.RequestThenDuplicate | src/main/java/com/realestate/management/service/ViewingService.java:33-50 | a stored PENDING or APPROVED viewing of the pair makes the next request a duplicate |
| ViewingWorkflow.RequestAgainAfterResolution | src/main/java/com/realestate/management/service/ViewingService.java:33-35 | once the pair's only active viewing is resolved, the duplicate check passes |
| ViewingWorkflow.OwnershipMatchesOwnerRequests | src/main/java/com/realestate/management/service/ViewingService.java:130-133 | the property-owner test holds iff the viewing is in the owner's request list |
| ViewingWorkflow.ViewingService.RequestViewing | src/main/java/com/realestate/management/service/ViewingService.java:31-52 | fails with RequestError's message and nothing stored, or stores exactly one PENDING viewing with the given property, user, date and message |
| ViewingWorkflow.ViewingService.ApproveViewing | src/main/java/com/realestate/management/service/ViewingService.java:86-92 | the table becomes WithStatus(APPROVED) |
| ViewingWorkflow.ViewingService.RejectViewing | src/main/java/com/realestate/management/service/ViewingService.java:96-102 | the table becomes WithStatus(REJECTED) |
| ViewingWorkflow.ViewingService.CancelViewing | src/main/java/com/realestate/management/service/ViewingService.java:106-112 | the table becomes WithStatus(CANCELLED) |
| ViewingWorkflow.ViewingService.CompleteViewing | src/main/java/com/realestate/management/service/ViewingService.java:116-122 | the table becomes WithStatus(COMPLETED), even from PENDING |
| ViewingWorkflow.ViewingService.IsPropertyOwner | src/main/java/com/realestate/management/service/ViewingService.java:130-133 | false for an unknown viewing; otherwise true iff its property's owner is the user |
| ViewingWorkflow.ViewingService.IsRequester | src/main/java/com/realestate/management/service/ViewingService.java:136-139 | false for an unknown viewing; otherwise true iff the user requested it |
| FavoriteWorkflow.AddError | src/main/java/com/realestate/management/dao/FavoriteService.java:30-41 | already-favorited first, then not-found; no error iff neither applies |
| FavoriteWorkflow.AddRaisesCountByOne | src/main/java/com/realestate/management/dao/FavoriteService.java:43-44 | after an add the pair is favorited and the user's count is one higher |
| FavoriteWorkflow.AddLeavesOtherCounts | src/main/java/com/realestate/management/dao/FavoriteService.java:43-44 | other users' counts do not change |
| FavoriteWorkflow.SecondAddFails | src/main/java/com/realestate/management/dao/FavoriteService.java:30-45 | a second add of the same pair is refused as already favorited |
| FavoriteWorkflow.AddPreservesUniquePairs | src/main/java/com/realestate/management/dao/FavoriteService.java:30-45 | an add that passed the check keeps one favorite per pair |
| FavoriteWorkflow.RemovePreservesUniquePairs | src/main/java/com/realestate/management/dao/FavoriteService.java:49-54 | a remove keeps one favorite per pair |
| FavoriteWorkflow.RemoveClearsFavorited | src/main/java/com/realestate/management/dao/FavoriteService.java:49-54 | with one favorite per pair, removing it makes isFavorited false |
| FavoriteWorkflow.FavoriteService.AddFavorite | src/main/java/com/realestate/management/dao/FavoriteService.java:30-45 | returns AddError's message with nothing stored, or stores exactly one favorite of the pair |
| FavoriteWorkflow.FavoriteService.RemoveFavorite | src/main/java/com/realestate/management/dao/FavoriteService.java:49-54 | a no-op when not favorited; otherwise exactly one favorite of the pair is deleted |
| FavoriteWorkflow.FavoriteService.GetUserFavorites | src/main/java/com/realestate/management/dao/FavoriteService.java:57-59 | the property of each of the user's joined favorites, position by position in their newest-first order, one entry per favorite |
| FavoriteWorkflow.FavoriteService.IsFavoritedBy | src/main/java/com/realestate/management/dao/FavoriteService.java:62-64 | true iff a favorite of the pair is stored |
| FavoriteWorkflow.FavoriteService.CountUserFavorites | src/main/java/com/realestate/management/dao/FavoriteService.java:67-69 | the number of the user's favorites |
| UserWorkflow.LoginDecision | src/main/java/com/realestate/management/service/UserService.java:38-54 | unknown user, then wrong password, then deactivated; the user comes back iff found, password equal and active |
| UserWorkflow.SetActive | src/main/java/com/realestate/management/service/UserService.java:84-101 | an unknown id changes nothing; a stored user takes the flag and update time; nothing else changes |
| UserWorkflow.SetActiveTwiceIsOnce | src/main/java/com/realestate/management/service/UserService.java:84-101 | activate and deactivate are idempotent |
| UserWorkflow.SetActiveKeepsEmailsUnique | src/main/java/com/realestate/management/service/UserService.java:84-101 | activation keeps e-mails unique |
| UserWorkflow.DeactivatedCannotLogIn | src/main/java/com/realestate/management/service/UserService.java:49-51 | a deactivated account fails login whatever the password |
| UserWorkflow.RegisterPreservesUniqueEmails | src/main/java/com/realestate/management/service/UserService.java:21-35 | registration after the e-mail check keeps e-mails unique |
| UserWorkflow.RegisteredUserCanLogIn | src/main/java/com/realestate/management/service/UserService.java:21-54 | a just-registered user is the only one with that e-mail and logs in with its password |
| UserWorkflow.UserService.RegisterUser | src/main/java/com/realestate/management/service/UserService.java:21-35 | a taken e-mail fails with nothing stored; otherwise exactly one user is stored, active whatever the input said |
| UserWorkflow.UserService.LoginUser | src/main/java/com/realestate/management/service/UserService.java:38-54 | an unknown e-mail gives "User not found"; otherwise the login decision for a user with that e-mail |
| UserWorkflow.UserService.UpdateUser | src/main/java/com/realestate/management/service/UserService.java:77-81 | the caller's record with only updatedAt changed replaces the row |
| UserWorkflow.UserService.DeactivateUser | src/main/java/com/realestate/management/service/UserService.java:84-91 | the table becomes SetActive(false); an unknown id is a no-op |
| UserWorkflow.UserService.ActivateUser | src/main/java/com/realestate/management/service/UserService.java:94-101 | the table becomes SetActive(true); an unknown id is a no-op |
| PropertyHandlers.MayManage | src/main/java/com/realestate/management/controller/PropertyController.java:213 | the listing exists and is in the caller's own listing, i.e. the caller owns it; the same guard reappears in delete, mark-sold and mark-rented (lines 253, 278, 304) |
| PropertyHandlers.EditedListing | src/main/java/com/realestate/management/controller/PropertyController.java:224-230 | keeps the path id, the stored owner and creation time; status PENDING; the other fields as submitted |
| PropertyHandlers.EditLeavesPublicListing | src/main/java/com/realestate/management/controller/PropertyController.java:225-230 | a listing saved by an edit is never in the public listing |
| PropertyHandlers.EditJoinsPending | src/main/java/com/realestate/management/controller/PropertyController.java:225-230 | after an edit the pending set is the old pending set plus the edited listing |
| PropertyHandlers.EditRequiresReapproval | src/main/java/com/realestate/management/controller/PropertyController.java:225-230 | an edited listing leaves the public listing, and the pending count rises unless it was pending |
| PropertyHandlers.PropertyController.CreateProperty | src/main/java/com/realestate/management/controller/PropertyController.java:126-158 | login, then validation, then the owner reloaded by the caller's id; only then one PENDING listing is stored |
| PropertyHandlers.PropertyController.UpdateProperty | src/main/java/com/realestate/management/controller/PropertyController.java:199-239 | login, then ownership of an existing listing, then validation; otherwise nothing changes; success stores the edited listing |
| PropertyHandlers.PropertyController.DeleteProperty | src/main/java/com/realestate/management/controller/PropertyController.java:242-265 | deletes only for the logged-in owner; otherwise nothing changes |
| PropertyHandlers.PropertyController.MarkAsSold | src/main/java/com/realestate/management/controller/PropertyController.java:268-291 | marks SOLD only for the logged-in owner; otherwise nothing changes |
| PropertyHandlers.PropertyController.MarkAsRented | src/main/java/com/realestate/management/controller/PropertyController.java:294-317 | marks RENTED only for the logged-in owner; otherwise nothing changes |
| ApplicationHandlers.OwnerMayApplyToOwnProperty | src/main/java/com/realestate/management/controller/ApplicationController.java:59-78 | the submission checks let a property's owner apply to it |
| ApplicationHandlers.ApplicationController.ShowApplicationForm | src/main/java/com/realestate/management/controller/ApplicationController.java:34-56 | login, then an existing property; the owner is redirected; anyone else sees the form |
| ApplicationHandlers.ApplicationController.SubmitApplication | src/main/java/com/realestate/management/controller/ApplicationController.java:59-78 | no caller: nothing happens; otherwise done iff SubmitError is empty, and a failure shows its message and stores nothing |
| ApplicationHandlers.ApplicationController.ApproveApplication | src/main/java/com/realestate/management/controller/ApplicationController.java:115-138 | changes anything only for the logged-in owner of the application's property |
| ApplicationHandlers.ApplicationController.RejectApplication | src/main/java/com/realestate/management/controller/ApplicationController.java:141-164 | changes anything only for the logged-in owner of the application's property |
| ApplicationHandlers.ApplicationController.WithdrawApplication | src/main/java/com/realestate/management/controller/ApplicationController.java:167-190 | changes anything only for the logged-in applicant |
| ApplicationHandlers.ApplicationController.MarkUnderReview | src/main/java/com/realestate/management/controller/ApplicationController.java:193-216 | changes anything only for the logged-in owner of the application's property |
| ViewingHandlers.OwnerMayRequestOwnProperty | src/main/java/com/realestate/management/controller/ViewingController.java:61-84 | the request checks let a property's owner request a viewing of it |
| ViewingHandlers.ViewingController.ShowRequestForm | src/main/java/com/realestate/management/controller/ViewingController.java:37-57 | login, then an existing property; the owner is redirected; anyone else sees the form |
| ViewingHandlers.ViewingController.SubmitViewingRequest | src/main/java/com/realestate/management/controller/ViewingController.java:61-84 | no caller or an unparsable date: nothing stored; otherwise done iff RequestError is empty |
| ViewingHandlers.ViewingController.ApproveViewing | src/main/java/com/realestate/management/controller/ViewingController.java:122-144 | changes anything only for the logged-in owner of the viewing's property |
| ViewingHandlers.ViewingController.RejectViewing | src/main/java/com/realestate/management/controller/ViewingController.java:148-170 | changes anything only for the logged-in owner of the viewing's property |
| ViewingHandlers.ViewingController.CancelViewing | src/main/java/com/realestate/management/controller/ViewingController.java:174-196 | changes anything only for the logged-in requester |
| ViewingHandlers.ViewingController.CompleteViewing | src/main/java/com/realestate/management/controller/ViewingController.java:200-222 | changes anything only for the logged-in owner of the viewing's property |
| AdminHandlers.IsAdmin | src/main/java/com/realestate/management/controller/AdminController.java:32-35 | true iff the role attribute is present and equal to "ADMIN" |
| AdminHandlers.AdminController.ApproveProperty | src/main/java/com/realestate/management/controller/AdminController.java:69-85 | a non-admin changes nothing; an admin reaches the service and completes even for an unknown id |
| AdminHandlers.AdminController.RejectProperty | src/main/java/com/realestate/management/controller/AdminController.java:88-104 | a non-admin changes nothing; an admin reaches the service |
| AdminHandlers.AdminController.DeactivateUser | src/main/java/com/realestate/management/controller/AdminController.java:119-135 | a non-admin changes nothing; an admin deactivates |
| AdminHandlers.AdminController.ActivateUser | src/main/java/com/realestate/management/controller/AdminController.java:138-154 | a non-admin changes nothing; an admin activates |
| AuthHandlers.IsGmail | src/main/java/com/realestate/management/controller/AuthController.java:43-47 | true iff the lower-cased address is some local part followed by "@gmail.com"; login applies the same rule (line 80) |
| AuthHandlers.GmailCheckIgnoresCase | src/main/java/com/realestate/management/controller/AuthController.java:43-47 | the Gmail rule gives the same answer for an address and its lower-cased form |
| AuthHandlers.GmailAddressHasSuffixLength | src/main/java/com/realestate/management/controller/AuthController.java:43-47 | an accepted address is at least as long as "@gmail.com" |
| AuthHandlers.LandingPage | src/main/java/com/realestate/management/controller/AuthController.java:96-100 | the admin dashboard iff the role is ADMIN, the user dashboard otherwise |
| AuthHandlers.AdminRoleConsistency | src/main/java/com/realestate/management/controller/AuthController.java:89-100 | the stored role name passes the admin gate iff the role is ADMIN iff the login lands on the admin dashboard |
| AuthHandlers.AuthController.RegisterUser | src/main/java/com/realestate/management/controller/AuthController.java:36-64 | the Gmail rule before validation errors before the service; only a full pass stores a user |
| AuthHandlers.AuthController.LoginUser | src/main/java/com/realestate/management/controller/AuthController.java:73-106 | a non-Gmail address never reaches the service; success stores user, id and role name in the session and lands by role; failure leaves the session alone |

## Left out

- JPA and Spring mechanics are not modelled: the entity manager, transactions, dependency injection, and lazy loading. Each table is a map, and each service call runs as one step.
- View rendering is not modelled: model attributes, flash messages other than service errors, and view names. The dashboard, favorite and home controllers and the application launcher (which opens a desktop browser) are not part of this model.
- The clock is the parameter `now`. Where the source reads the clock more than once in one call, the model uses one reading for all of them. This covers `onCreate`, `createProperty` and `registerUser`, and also `requestViewing`: its date check and the two persist stamps are three readings in the source and one `now` in the model.
- Date parsing with the pattern yyyy-MM-dd'T'HH:mm is a library call. The viewing handler receives its result as an `Option<Time>`, and a parse failure is the `Invalid` outcome; the exception's text is not modelled.
- `toLowerCase` is modelled as ASCII lower-casing. Locale-specific and non-ASCII case mappings are not modelled.
- The JPQL `LIKE` pattern is modelled as a plain case-insensitive substring test. `%` and `_` typed into the city text are not treated as wildcards.
- E-mail comparison in queries is exact equality. Database collation is not modelled.
- The race between a duplicate check and the following insert (two concurrent submissions) is not modelled.
- The Property, Application, User and Favorite entity classes are not part of this model. Their fields are inferred from the getters and setters the services and controllers call.
  - Descriptive fields no rule reads are folded into `title` / `details`.
  - Prices are integers.
  - The property category is an opaque name.
- ApplicationData.ApplicationDao.Save and FavoriteData.FavoriteDao.Save stamp `createdAt` at persist. The queries order by that column, but the entity code that sets it is not shown.
- ApplicationWorkflow.ApplicationService.SubmitApplication: the initial status of an application is whatever the draft carries. The entity's default is not shown, so the model does not assert PENDING.
- PropertyHandlers.PropertyController.CreateProperty: when the caller's account no longer exists, the model reports a failure and stores nothing. The source passes a null owner to the service, and whether persisting that fails depends on the entity mapping, which is not shown.
- PropertyData.PropertyDao.Update, ApplicationData.ApplicationDao.Update, UserData.UserDao.Update and ViewingData.ViewingDao.Update require the record's id to be stored. Merging a detached record whose id is not stored is not modelled. Depending on the Hibernate version, that merge inserts a row under a newly generated id or fails. The status operations of the services load the record by id before merging it. The property edit handler checks that the listing exists and is owned by the caller.
- UserWorkflow.UserService.UpdateUser requires the user's id to be stored. The service merges whatever record it is given, and no caller in the code shown guarantees that the id exists. An update of an unstored id is not modelled, for the reason given for the DAO updates above.
- PropertyWorkflow.PropertyService.DeleteProperty removes only the listing row. Applications, viewings and favorites that point at it keep its id. Queries that go through the property (owner lists, the favorites' property list, the owner checks) then skip them. Cascades and foreign-key failures depend on the entity mappings, which are not shown.
- `delete` on a detached entity (merge, then remove) is modelled as removal by id.
- Passwords are compared as stored strings. There is no hashing.
- Sort order among rows with equal keys: each list query's contract states only sortedness by its ORDER BY key. The ordered selection in the model is deterministic, though. It fixes one tie order for each set of selected rows, key and direction, so two queries that select the same rows by the same key are equal as lists in the model. The database does not promise that.
- PropertyData.SearchWithoutFiltersIsPublicListing, PropertyData.EmptyCityIsNoFilter and PropertyData.CityFilterIgnoresCase state list equality, which rests on that determinism. The queries they compare are built identically by the Java or differ only in a bound value, and the lemmas' set-level content (the same rows are selected) is what the source promises. Their tie order is a property of the model, not of every database execution.
- PropertyData.EmptyCityMatchesAll states that findByCity("") and findAllApproved select the same rows (equal id sets, members and lengths), not that they return the same list. They are two different queries, and rows with equal createdAt may come back in different orders.
- The read-only service pass-throughs that only forward to a DAO query are not separate members: `getPropertyById`, `getAllProperties`, and the per-user and per-owner list and count getters of the property, application, viewing and user services. The DAO functions above state their results. The exceptions are `getPendingProperties`, `getUserFavorites`, `isFavorited` and `countUserFavorites`, which are members of their services.
