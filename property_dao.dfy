/**
 * The property table and its queries. `PropertyDao` holds the rows by id; each query is a
 * pure function of the rows: the rows its WHERE clause admits, in its ORDER BY order.
 */
module PropertyData {
  import opened Common
  import opened Text
  import opened Ordering
  import opened PropertyEntity

  class PropertyDao {
    var rows: map<Id, Property>
    /** The next value of the identity column. */
    var nextId: Id

    /** Every row is stored under its own id, and every id is below the next one to be issued. */
    ghost predicate Valid()
      reads this
    {
      KeyedById(rows) && forall k :: k in rows ==> k < nextId
    }

    constructor ()
      ensures Valid() && rows == map[]
    {
      rows := map[];
      nextId := 0;
    }

    /** `save` (persist): the identity column gives the record a new id. */
    method Save(p: Property) returns (saved: Property)
      requires Valid()
      modifies this
      ensures Valid()
      ensures saved == p.(id := old(nextId)) && saved.id !in old(rows)
      ensures rows == old(rows)[saved.id := saved] && nextId == old(nextId) + 1
    {
      saved := p.(id := nextId);
      rows := rows[nextId := saved];
      nextId := nextId + 1;
    }

    /** `update` (merge) of a record whose id is stored: the row is overwritten. */
    method Update(p: Property)
      requires Valid() && p.id in rows
      modifies this`rows
      ensures Valid() && rows == old(rows)[p.id := p]
    {
      rows := rows[p.id := p];
    }

    /** `delete` (remove): the row with the record's id is gone; nothing else changes. */
    method Delete(p: Property)
      requires Valid()
      modifies this`rows
      ensures Valid() && rows == old(rows) - {p.id}
    {
      rows := rows - {p.id};
    }

    /** `findById`: the stored row, or null. */
    function FindById(id: Id): (r: Option<Property>)
      reads this
      ensures r.Some? <==> id in rows
      ensures r.Some? ==> r.value == rows[id]
    {
      if id in rows then Some(rows[id]) else None
    }
  }

  /** Every row is stored under its own id. */
  ghost predicate KeyedById(rows: map<Id, Property>)
  {
    forall k :: k in rows ==> rows[k].id == k
  }

  /** `ORDER BY p.createdAt DESC`. */
  ghost predicate NewestFirst(s: seq<Property>)
  {
    forall i, j :: 0 <= i < j < |s| ==> s[i].createdAt >= s[j].createdAt
  }

  /** `ORDER BY p.price ASC`. */
  ghost predicate CheapestFirst(s: seq<Property>)
  {
    forall i, j :: 0 <= i < j < |s| ==> s[i].price <= s[j].price
  }

  /** Sorts the rows with ids `ids` by creation time, newest first. */
  ghost function ByNewest(rows: map<Id, Property>, ids: set<Id>): (r: seq<Property>)
    requires ids <= rows.Keys
    ensures |r| == |ids|
    ensures forall p :: p in r <==> exists k :: k in ids && rows[k] == p
    ensures NewestFirst(r)
  {
    var r := Select(rows, ids, (p: Property) => p.createdAt, false);
    assert SortedBy(r, (p: Property) => p.createdAt, false);
    r
  }

  /** `findAll`: every property, newest first. */
  ghost function FindAll(rows: map<Id, Property>): (r: seq<Property>)
    ensures forall p :: p in r <==> p in rows.Values
    ensures |r| == |rows|
    ensures NewestFirst(r)
  {
    assert rows.Keys == set k | k in rows;
    ByNewest(rows, rows.Keys)
  }

  function ApprovedIds(rows: map<Id, Property>): set<Id>
  {
    set k | k in rows && rows[k].status == Approved
  }

  /** `findAllApproved`: the public listing, newest first. */
  ghost function FindAllApproved(rows: map<Id, Property>): (r: seq<Property>)
    ensures forall p :: p in r <==> p in rows.Values && p.status == Approved
    ensures NewestFirst(r)
    ensures |r| == |ApprovedIds(rows)|
  {
    ByNewest(rows, ApprovedIds(rows))
  }

  function OwnerIds(rows: map<Id, Property>, ownerId: Id): set<Id>
  {
    set k | k in rows && rows[k].ownerId == ownerId
  }

  /** `findByOwner`: the owner's properties in every status, newest first. */
  ghost function FindByOwner(rows: map<Id, Property>, ownerId: Id): (r: seq<Property>)
    ensures forall p :: p in r <==> p in rows.Values && p.ownerId == ownerId
    ensures NewestFirst(r)
    ensures |r| == |OwnerIds(rows, ownerId)|
  {
    ByNewest(rows, OwnerIds(rows, ownerId))
  }

  function StatusIds(rows: map<Id, Property>, status: PropertyStatus): set<Id>
  {
    set k | k in rows && rows[k].status == status
  }

  /** `findByStatus`: the properties in one status, newest first. */
  ghost function FindByStatus(rows: map<Id, Property>, status: PropertyStatus): (r: seq<Property>)
    ensures forall p :: p in r <==> p in rows.Values && p.status == status
    ensures NewestFirst(r)
    ensures |r| == |StatusIds(rows, status)|
  {
    ByNewest(rows, StatusIds(rows, status))
  }

  /** `findByListingType`: approved properties of one listing type, newest first. */
  ghost function FindByListingType(rows: map<Id, Property>, listingType: ListingType): (r: seq<Property>)
    ensures forall p :: p in r <==> p in rows.Values && p.listingType == listingType && p.status == Approved
    ensures NewestFirst(r)
    ensures |r| == |ListingTypeIds(rows, listingType)|
  {
    ByNewest(rows, ListingTypeIds(rows, listingType))
  }

  function ListingTypeIds(rows: map<Id, Property>, listingType: ListingType): set<Id>
  {
    set k | k in rows && rows[k].listingType == listingType && rows[k].status == Approved
  }

  /** `findByPropertyType`: approved properties of one category, newest first. */
  ghost function FindByPropertyType(rows: map<Id, Property>, propertyType: PropertyType): (r: seq<Property>)
    ensures forall p :: p in r <==> p in rows.Values && p.propertyType == propertyType && p.status == Approved
    ensures NewestFirst(r)
    ensures |r| == |PropertyTypeIds(rows, propertyType)|
  {
    ByNewest(rows, PropertyTypeIds(rows, propertyType))
  }

  function PropertyTypeIds(rows: map<Id, Property>, propertyType: PropertyType): set<Id>
  {
    set k | k in rows && rows[k].propertyType == propertyType && rows[k].status == Approved
  }

  /** `findByCity`: approved properties whose city contains `city`, ignoring case, newest first. */
  ghost function FindByCity(rows: map<Id, Property>, city: string): (r: seq<Property>)
    ensures forall p :: p in r <==> p in rows.Values && ContainsIgnoreCase(p.city, city) && p.status == Approved
    ensures NewestFirst(r)
    ensures |r| == |CityIds(rows, city)|
  {
    ByNewest(rows, CityIds(rows, city))
  }

  function CityIds(rows: map<Id, Property>, city: string): set<Id>
  {
    set k | k in rows && ContainsIgnoreCase(rows[k].city, city) && rows[k].status == Approved
  }

  /**
   * An empty city text binds the pattern "%%", which every city matches, so `findByCity`
   * with it selects exactly the rows of the public listing: the same listings, as many.
   */
  lemma EmptyCityMatchesAll(rows: map<Id, Property>)
    ensures CityIds(rows, "") == ApprovedIds(rows)
    ensures forall p :: p in FindByCity(rows, "") <==> p in FindAllApproved(rows)
    ensures |FindByCity(rows, "")| == |FindAllApproved(rows)|
  {
    forall k | k in rows {
      EmptyIsContained(Lower(rows[k].city));
    }
    assert Lower("") == "";
    assert CityIds(rows, "") == ApprovedIds(rows);
  }

  /** `findByPriceRange`: approved properties priced in [minPrice, maxPrice], cheapest first. */
  ghost function FindByPriceRange(rows: map<Id, Property>, minPrice: int, maxPrice: int): (r: seq<Property>)
    ensures forall p :: p in r <==> p in rows.Values && minPrice <= p.price <= maxPrice && p.status == Approved
    ensures |r| == |PriceRangeIds(rows, minPrice, maxPrice)|
    ensures CheapestFirst(r)
  {
    var ids := PriceRangeIds(rows, minPrice, maxPrice);
    var r := Select(rows, ids, (p: Property) => p.price, true);
    assert SortedBy(r, (p: Property) => p.price, true);
    r
  }

  function PriceRangeIds(rows: map<Id, Property>, minPrice: int, maxPrice: int): set<Id>
  {
    set k | k in rows && minPrice <= rows[k].price <= maxPrice && rows[k].status == Approved
  }

  /** `findByBedrooms`: approved properties with at least `bedrooms` bedrooms, newest first. */
  ghost function FindByBedrooms(rows: map<Id, Property>, bedrooms: int): (r: seq<Property>)
    ensures forall p :: p in r <==> p in rows.Values && p.bedrooms >= bedrooms && p.status == Approved
    ensures NewestFirst(r)
    ensures |r| == |BedroomsIds(rows, bedrooms)|
  {
    ByNewest(rows, BedroomsIds(rows, bedrooms))
  }

  function BedroomsIds(rows: map<Id, Property>, bedrooms: int): set<Id>
  {
    set k | k in rows && rows[k].bedrooms >= bedrooms && rows[k].status == Approved
  }

  /**
   * The optional filters of `searchProperties`, each conjoined only when present:
   * a null or empty city, and a null type, price bound or bedroom count, add nothing.
   */
  predicate MatchesFilters(p: Property, city: Option<string>, propertyType: Option<PropertyType>,
                           listingType: Option<ListingType>, minPrice: Option<int>,
                           maxPrice: Option<int>, bedrooms: Option<int>)
  {
    && (city.Some? && city.value != "" ==> ContainsIgnoreCase(p.city, city.value))
    && (propertyType.Some? ==> p.propertyType == propertyType.value)
    && (listingType.Some? ==> p.listingType == listingType.value)
    && (minPrice.Some? ==> p.price >= minPrice.value)
    && (maxPrice.Some? ==> p.price <= maxPrice.value)
    && (bedrooms.Some? ==> p.bedrooms >= bedrooms.value)
  }

  /** `searchProperties`: approved properties passing every present filter, newest first. */
  ghost function SearchProperties(rows: map<Id, Property>, city: Option<string>, propertyType: Option<PropertyType>,
                                  listingType: Option<ListingType>, minPrice: Option<int>,
                                  maxPrice: Option<int>, bedrooms: Option<int>): (r: seq<Property>)
    ensures forall p :: p in r ==> p.status == Approved
    ensures forall p :: p in r <==>
      && p in rows.Values
      && p.status == Approved
      && (city.Some? && city.value != "" ==> ContainsIgnoreCase(p.city, city.value))
      && (propertyType.Some? ==> p.propertyType == propertyType.value)
      && (listingType.Some? ==> p.listingType == listingType.value)
      && (minPrice.Some? ==> p.price >= minPrice.value)
      && (maxPrice.Some? ==> p.price <= maxPrice.value)
      && (bedrooms.Some? ==> p.bedrooms >= bedrooms.value)
    ensures NewestFirst(r)
    ensures |r| == |SearchIds(rows, city, propertyType, listingType, minPrice, maxPrice, bedrooms)|
  {
    ByNewest(rows, SearchIds(rows, city, propertyType, listingType, minPrice, maxPrice, bedrooms))
  }

  function SearchIds(rows: map<Id, Property>, city: Option<string>, propertyType: Option<PropertyType>,
                     listingType: Option<ListingType>, minPrice: Option<int>,
                     maxPrice: Option<int>, bedrooms: Option<int>): set<Id>
  {
    set k | k in rows && rows[k].status == Approved
            && MatchesFilters(rows[k], city, propertyType, listingType, minPrice, maxPrice, bedrooms)
  }

  /** `countByOwner` counts exactly the rows `findByOwner` lists. */
  function CountByOwner(rows: map<Id, Property>, ownerId: Id): (n: nat)
    ensures n == |FindByOwner(rows, ownerId)|
  {
    |OwnerIds(rows, ownerId)|
  }

  /** `countPending` counts exactly the rows `findByStatus(PENDING)` lists. */
  function CountPending(rows: map<Id, Property>): (n: nat)
    ensures n == |FindByStatus(rows, Pending)|
  {
    |StatusIds(rows, Pending)|
  }

  /** A search with no filter given is the public listing itself. */
  lemma SearchWithoutFiltersIsPublicListing(rows: map<Id, Property>)
    ensures SearchProperties(rows, None, None, None, None, None, None) == FindAllApproved(rows)
  {
    assert SearchIds(rows, None, None, None, None, None, None) == ApprovedIds(rows);
  }

  /** An empty city text is no filter at all, exactly like an absent one. */
  lemma EmptyCityIsNoFilter(rows: map<Id, Property>, propertyType: Option<PropertyType>,
                            listingType: Option<ListingType>, minPrice: Option<int>,
                            maxPrice: Option<int>, bedrooms: Option<int>)
    ensures SearchProperties(rows, Some(""), propertyType, listingType, minPrice, maxPrice, bedrooms)
         == SearchProperties(rows, None, propertyType, listingType, minPrice, maxPrice, bedrooms)
  {
    assert SearchIds(rows, Some(""), propertyType, listingType, minPrice, maxPrice, bedrooms)
        == SearchIds(rows, None, propertyType, listingType, minPrice, maxPrice, bedrooms);
  }

  /** The city filter ignores letter case in the search text: a lower-cased text finds the same rows. */
  lemma {:induction false} CityFilterIgnoresCase(rows: map<Id, Property>, city: string, propertyType: Option<PropertyType>,
                                                 listingType: Option<ListingType>, minPrice: Option<int>,
                                                 maxPrice: Option<int>, bedrooms: Option<int>)
    ensures SearchProperties(rows, Some(city), propertyType, listingType, minPrice, maxPrice, bedrooms)
         == SearchProperties(rows, Some(Lower(city)), propertyType, listingType, minPrice, maxPrice, bedrooms)
  {
    LowerIdempotent(city);
    assert (city == "") == (Lower(city) == "");
    assert SearchIds(rows, Some(city), propertyType, listingType, minPrice, maxPrice, bedrooms)
        == SearchIds(rows, Some(Lower(city)), propertyType, listingType, minPrice, maxPrice, bedrooms);
  }
}
