/**
 * The favorite table: which user saved which property. `findFavoritePropertiesByUser`
 * selects the favorites' properties, so it joins against the property rows; the counts
 * read the favorite rows alone.
 */
module FavoriteData {
  import opened Common
  import opened Ordering
  import opened FavoriteEntity
  import PropertyEntity

  class FavoriteDao {
    var rows: map<Id, Favorite>
    /** The next value of the identity column. */
    var nextId: Id

    /** Every row is stored under its own id, and every id is below the next one to be issued. */
    ghost predicate Valid()
      reads this
    {
      KeyedById(rows) && forall k :: k in rows ==> k < nextId
    }

    constructor ()
      ensures Valid() && rows == map[]
    {
      rows := map[];
      nextId := 0;
    }

    /** `save` (persist) of a new favorite: a new id, and the creation time stamped at `now`. */
    method Save(f: Favorite, now: Time) returns (saved: Favorite)
      requires Valid()
      modifies this
      ensures Valid()
      ensures saved == f.(id := old(nextId), createdAt := now) && saved.id !in old(rows)
      ensures rows == old(rows)[saved.id := saved] && nextId == old(nextId) + 1
    {
      saved := f.(id := nextId, createdAt := now);
      rows := rows[nextId := saved];
      nextId := nextId + 1;
    }

    /** `delete`: the favorite's row is removed. */
    method Delete(f: Favorite)
      requires Valid()
      modifies this`rows
      ensures Valid() && rows == old(rows) - {f.id}
    {
      rows := rows - {f.id};
    }

    /**
     * `findByUserAndProperty`: the first favorite of the pair, or null when the pair has
     * none. The query has no ORDER BY, so which of several is returned is unspecified.
     */
    method FindByUserAndProperty(userId: Id, propertyId: Id) returns (r: Option<Favorite>)
      ensures r.None? <==> !IsFavorited(rows, userId, propertyId)
      ensures r.Some? ==> r.value in rows.Values && r.value.userId == userId && r.value.propertyId == propertyId
    {
      if IsFavorited(rows, userId, propertyId) {
        var k :| k in rows && rows[k].userId == userId && rows[k].propertyId == propertyId;
        r := Some(rows[k]);
      } else {
        r := None;
      }
    }
  }

  /** Every row is stored under its own id. */
  ghost predicate KeyedById(rows: map<Id, Favorite>)
  {
    forall k :: k in rows ==> rows[k].id == k
  }

  /** No user has saved the same property twice. */
  ghost predicate UniquePairs(rows: map<Id, Favorite>)
  {
    forall k1, k2 :: (k1 in rows && k2 in rows && rows[k1].userId == rows[k2].userId
                      && rows[k1].propertyId == rows[k2].propertyId) ==> k1 == k2
  }

  function PairIds(rows: map<Id, Favorite>, userId: Id, propertyId: Id): set<Id>
  {
    set k | k in rows && rows[k].userId == userId && rows[k].propertyId == propertyId
  }

  /** `isFavorited`: the pair's count of favorites is positive, that is, one exists. */
  function IsFavorited(rows: map<Id, Favorite>, userId: Id, propertyId: Id): (b: bool)
    ensures b <==> exists k :: k in rows && rows[k].userId == userId && rows[k].propertyId == propertyId
  {
    var ids := PairIds(rows, userId, propertyId);
    assert forall k :: (k in rows && rows[k].userId == userId && rows[k].propertyId == propertyId) ==> k in ids;
    |ids| > 0
  }

  function UserIds(rows: map<Id, Favorite>, userId: Id): set<Id>
  {
    set k | k in rows && rows[k].userId == userId
  }

  /** The favorite rows the inner join of `findFavoritePropertiesByUser` keeps. */
  function ListedIds(rows: map<Id, Favorite>, props: map<Id, PropertyEntity.Property>, userId: Id): set<Id>
  {
    set k | k in rows && rows[k].userId == userId && rows[k].propertyId in props
  }

  /** The user's favorites whose property exists, most recently saved first. */
  ghost function FindFavoritesByUser(rows: map<Id, Favorite>, props: map<Id, PropertyEntity.Property>,
                                     userId: Id): (r: seq<Favorite>)
    ensures |r| == |ListedIds(rows, props, userId)|
    ensures forall f :: f in r <==> f in rows.Values && f.userId == userId && f.propertyId in props
    ensures forall i, j :: 0 <= i < j < |r| ==> r[i].createdAt >= r[j].createdAt
  {
    var r := Select(rows, ListedIds(rows, props, userId), (f: Favorite) => f.createdAt, false);
    assert SortedBy(r, (f: Favorite) => f.createdAt, false);
    r
  }

  /**
   * `findFavoritePropertiesByUser`: the properties of the user's favorites, in the order of
   * the favorites (most recently saved first).
   */
  ghost function FindFavoritePropertiesByUser(rows: map<Id, Favorite>, props: map<Id, PropertyEntity.Property>,
                                              userId: Id): (r: seq<PropertyEntity.Property>)
    ensures |r| == |ListedIds(rows, props, userId)|
    ensures forall p :: p in r <==> exists k :: k in ListedIds(rows, props, userId) && props[rows[k].propertyId] == p
    ensures var fs := FindFavoritesByUser(rows, props, userId);
            |r| == |fs| && forall i :: 0 <= i < |r| ==> fs[i].propertyId in props && r[i] == props[fs[i].propertyId]
  {
    var fs := FindFavoritesByUser(rows, props, userId);
    var r := PropertiesOf(fs, props);
    forall p | p in r
      ensures exists k :: k in ListedIds(rows, props, userId) && props[rows[k].propertyId] == p
    {
      var i :| 0 <= i < |r| && r[i] == p;
      assert fs[i] in fs;
      var k :| k in rows && rows[k] == fs[i];
      assert k in ListedIds(rows, props, userId);
    }
    forall k | k in ListedIds(rows, props, userId)
      ensures props[rows[k].propertyId] in r
    {
      assert rows[k] in fs;
      var i :| 0 <= i < |fs| && fs[i] == rows[k];
      assert r[i] == props[rows[k].propertyId];
    }
    r
  }

  /** The property of each favorite, position by position. */
  ghost function PropertiesOf(fs: seq<Favorite>, props: map<Id, PropertyEntity.Property>): (r: seq<PropertyEntity.Property>)
    requires forall f :: f in fs ==> f.propertyId in props
    ensures |r| == |fs| && forall i :: 0 <= i < |fs| ==> r[i] == props[fs[i].propertyId]
  {
    seq(|fs|, i requires 0 <= i < |fs| => props[fs[i].propertyId])
  }

  /** `countByUser`: the number of favorite rows of the user. */
  function CountByUser(rows: map<Id, Favorite>, userId: Id): (n: nat)
    ensures n == |UserIds(rows, userId)|
    ensures n > 0 <==> exists k :: k in rows && rows[k].userId == userId
  {
    var ids := UserIds(rows, userId);
    assert forall k :: (k in rows && rows[k].userId == userId) ==> k in ids;
    |ids|
  }

  /**
   * When every favorite of the user points at an existing property, the count equals
   * the length of the favorites list.
   */
  lemma CountMatchesList(rows: map<Id, Favorite>, props: map<Id, PropertyEntity.Property>, userId: Id)
    requires forall k :: k in rows && rows[k].userId == userId ==> rows[k].propertyId in props
    ensures CountByUser(rows, userId) == |FindFavoritePropertiesByUser(rows, props, userId)|
  {
    assert UserIds(rows, userId) == ListedIds(rows, props, userId);
  }
}
