/**
 * The favorites service: a user saves a property once, and can remove it again. The
 * duplicate check keeps at most one favorite per user and property.
 */
module FavoriteWorkflow {
  import opened Common
  import opened FavoriteEntity
  import opened FavoriteData
  import PropertyEntity
  import PropertyData
  import UserEntity
  import UserData

  const AlreadyFavorited := "Property is already in favorites"
  const UserOrPropertyNotFound := "User or Property not found"

  /** The error `addFavorite` raises, if any: the duplicate check first, then existence. */
  function AddError(favs: map<Id, Favorite>, users: map<Id, UserEntity.User>,
                    props: map<Id, PropertyEntity.Property>, userId: Id, propertyId: Id): (e: Option<string>)
    ensures IsFavorited(favs, userId, propertyId) ==> e == Some(AlreadyFavorited)
    ensures (!IsFavorited(favs, userId, propertyId) && (userId !in users || propertyId !in props))
              ==> e == Some(UserOrPropertyNotFound)
    ensures e.None? <==> !IsFavorited(favs, userId, propertyId) && userId in users && propertyId in props
  {
    if IsFavorited(favs, userId, propertyId) then Some(AlreadyFavorited)
    else if userId !in users || propertyId !in props then Some(UserOrPropertyNotFound)
    else None
  }

  /** Storing a new favorite marks the pair as favorited and raises the user's count by exactly one. */
  lemma AddRaisesCountByOne(favs: map<Id, Favorite>, f: Favorite)
    requires f.id !in favs
    ensures IsFavorited(favs[f.id := f], f.userId, f.propertyId)
    ensures CountByUser(favs[f.id := f], f.userId) == CountByUser(favs, f.userId) + 1
  {
    assert favs[f.id := f][f.id] == f;
    assert UserIds(favs[f.id := f], f.userId) == UserIds(favs, f.userId) + {f.id};
  }

  /** Other users' counts are untouched by an add. */
  lemma AddLeavesOtherCounts(favs: map<Id, Favorite>, f: Favorite, userId: Id)
    requires f.id !in favs && userId != f.userId
    ensures CountByUser(favs[f.id := f], userId) == CountByUser(favs, userId)
  {
    assert UserIds(favs[f.id := f], userId) == UserIds(favs, userId);
  }

  /** Once the pair is favorited, another add for it is refused. */
  lemma SecondAddFails(favs: map<Id, Favorite>, users: map<Id, UserEntity.User>,
                       props: map<Id, PropertyEntity.Property>, f: Favorite)
    requires f.id !in favs
    ensures AddError(favs[f.id := f], users, props, f.userId, f.propertyId) == Some(AlreadyFavorited)
  {
    AddRaisesCountByOne(favs, f);
  }

  /** An add that passed the duplicate check keeps at most one favorite per pair. */
  lemma AddPreservesUniquePairs(favs: map<Id, Favorite>, f: Favorite)
    requires UniquePairs(favs) && f.id !in favs && !IsFavorited(favs, f.userId, f.propertyId)
    ensures UniquePairs(favs[f.id := f])
  {
  }

  /** Removing a row keeps at most one favorite per pair. */
  lemma RemovePreservesUniquePairs(favs: map<Id, Favorite>, id: Id)
    requires UniquePairs(favs)
    ensures UniquePairs(favs - {id})
  {
  }

  /** With one favorite per pair, removing the pair's favorite un-favorites the pair. */
  lemma RemoveClearsFavorited(favs: map<Id, Favorite>, id: Id)
    requires UniquePairs(favs) && id in favs
    ensures !IsFavorited(favs - {id}, favs[id].userId, favs[id].propertyId)
  {
  }

  class FavoriteService {
    const favoriteDao: FavoriteDao
    const userDao: UserData.UserDao
    const propertyDao: PropertyData.PropertyDao

    constructor (favoriteDao: FavoriteDao, userDao: UserData.UserDao, propertyDao: PropertyData.PropertyDao)
      ensures this.favoriteDao == favoriteDao && this.userDao == userDao && this.propertyDao == propertyDao
    {
      this.favoriteDao := favoriteDao;
      this.userDao := userDao;
      this.propertyDao := propertyDao;
    }

    /**
     * `addFavorite`: on a check failure nothing is stored; otherwise one favorite of the
     * pair, stamped at `now`, is stored under a new id.
     */
    method AddFavorite(userId: Id, propertyId: Id, now: Time) returns (error: Option<string>)
      requires favoriteDao.Valid()
      modifies favoriteDao
      ensures favoriteDao.Valid()
      ensures error == AddError(old(favoriteDao.rows), userDao.rows, propertyDao.rows, userId, propertyId)
      ensures error.Some? ==> favoriteDao.rows == old(favoriteDao.rows)
      ensures error.None? ==>
                && old(favoriteDao.nextId) !in old(favoriteDao.rows)
                && favoriteDao.rows == old(favoriteDao.rows)[old(favoriteDao.nextId) :=
                                                               Favorite(old(favoriteDao.nextId), userId, propertyId, now)]
    {
      if IsFavorited(favoriteDao.rows, userId, propertyId) {
        return Some(AlreadyFavorited);
      }
      var user := userDao.FindById(userId);
      var property := propertyDao.FindById(propertyId);
      if user.None? || property.None? {
        return Some(UserOrPropertyNotFound);
      }
      var saved := favoriteDao.Save(Favorite(0, userId, propertyId, now), now);
      error := None;
    }

    /**
     * `removeFavorite`: nothing happens when the pair is not favorited; otherwise one
     * favorite of the pair is deleted and every other row stays.
     */
    method RemoveFavorite(userId: Id, propertyId: Id)
      requires favoriteDao.Valid()
      modifies favoriteDao`rows
      ensures favoriteDao.Valid()
      ensures !IsFavorited(old(favoriteDao.rows), userId, propertyId) ==> favoriteDao.rows == old(favoriteDao.rows)
      ensures IsFavorited(old(favoriteDao.rows), userId, propertyId) ==>
                exists k :: k in old(favoriteDao.rows) && old(favoriteDao.rows)[k].userId == userId
                            && old(favoriteDao.rows)[k].propertyId == propertyId
                            && favoriteDao.rows == old(favoriteDao.rows) - {k}
    {
      var favorite := favoriteDao.FindByUserAndProperty(userId, propertyId);
      if favorite.Some? {
        ghost var k :| k in favoriteDao.rows && favoriteDao.rows[k] == favorite.value;
        favoriteDao.Delete(favorite.value);
        assert favoriteDao.rows == old(favoriteDao.rows) - {k};
      }
    }

    /** `getUserFavorites`: the properties the user saved, most recently saved first. */
    ghost function GetUserFavorites(userId: Id): (r: seq<PropertyEntity.Property>)
      reads favoriteDao, propertyDao
      ensures |r| == |ListedIds(favoriteDao.rows, propertyDao.rows, userId)|
      ensures forall p :: p in r <==> exists k :: k in ListedIds(favoriteDao.rows, propertyDao.rows, userId)
                                                  && propertyDao.rows[favoriteDao.rows[k].propertyId] == p
      ensures var fs := FindFavoritesByUser(favoriteDao.rows, propertyDao.rows, userId);
              |r| == |fs| && forall i :: 0 <= i < |r| ==>
                (fs[i].propertyId in propertyDao.rows && r[i] == propertyDao.rows[fs[i].propertyId])
    {
      FindFavoritePropertiesByUser(favoriteDao.rows, propertyDao.rows, userId)
    }

    /** `isFavorited`: whether a favorite of the pair is stored. */
    method IsFavoritedBy(userId: Id, propertyId: Id) returns (b: bool)
      ensures b <==> exists k :: k in favoriteDao.rows && favoriteDao.rows[k].userId == userId
                                 && favoriteDao.rows[k].propertyId == propertyId
    {
      b := IsFavorited(favoriteDao.rows, userId, propertyId);
    }

    /** `countUserFavorites`: the number of favorites the user has stored. */
    method CountUserFavorites(userId: Id) returns (n: nat)
      ensures n == |UserIds(favoriteDao.rows, userId)|
      ensures n > 0 <==> exists k :: k in favoriteDao.rows && favoriteDao.rows[k].userId == userId
    {
      n := CountByUser(favoriteDao.rows, userId);
    }
  }
}
