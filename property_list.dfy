/** The listing view (PropertyList.jsx): the filter predicate over a fetched page of
    properties, the displayed list derived from it, and the page cursor with its
    Previous/Next controls. Fetching is outside the model: the fetched page and
    `totalProperties` are inputs. */
module PropertyList {
  import opened Option
  import opened Sequences
  import opened FilterCriteria

  /** Page size the backend uses, and the threshold of the Next button. */
  const PageSize := 12

  /** The room-type value that matches every property. */
  const AnyRoomType := "Anytype"

  /** The fields of a fetched property the filter reads; `None` stands for a missing field. */
  datatype Property = Property(price: int, propertyType: Option<string>, roomType: Option<string>, amenities: Option<seq<string>>)

  /** ASCII lower case of one character. */
  function LowerChar(c: char): char {
    if 'A' <= c <= 'Z' then (c as int + 32) as char else c
  }

  /** ASCII lower case of a string (`toLowerCase` restricted to ASCII). */
  function Lower(s: string): (r: string)
    ensures |r| == |s|
  {
    seq(|s|, i requires 0 <= i < |s| => LowerChar(s[i]))
  }

  lemma LowerIdempotent(s: string)
    ensures Lower(Lower(s)) == Lower(s)
  {
  }

  /** Price clause: inclusive at both ends. */
  predicate PriceMatch(range: PriceRange, price: int) {
    price >= range.min && price <= range.max
  }

  /** Property-type clause: an empty filter type matches everything, otherwise lower-case equality. */
  predicate PropertyTypeMatch(filterType: string, propertyType: Option<string>) {
    filterType == "" || (propertyType.Some? && Lower(propertyType.value) == Lower(filterType))
  }

  /** Room-type clause: `""` and `"Anytype"` match everything, otherwise exact equality. */
  predicate RoomTypeMatch(filterRoom: string, roomType: Option<string>) {
    filterRoom == "" || filterRoom == AnyRoomType || roomType == Some(filterRoom)
  }

  /** Amenity clause: an empty request matches everything, otherwise every requested amenity is listed. */
  predicate AmenitiesMatch(requested: seq<string>, amenities: Option<seq<string>>) {
    |requested| == 0 || forall i :: 0 <= i < |requested| ==> amenities.Some? && requested[i] in amenities.value
  }

  /** The conjunction of the four clauses. A matching property is priced within the range
      and lists every requested amenity; with no type, room type or amenity requested,
      only the price decides. */
  function Matches(filters: Criteria, p: Property): (r: bool)
    ensures r ==> filters.priceRange.min <= p.price <= filters.priceRange.max
    ensures r ==> forall a :: a in filters.amenities ==> p.amenities.Some? && a in p.amenities.value
    ensures filters.propertyType == "" && filters.roomType == "" && filters.amenities == [] ==> (r <==> PriceMatch(filters.priceRange, p.price))
  {
    && PriceMatch(filters.priceRange, p.price)
    && PropertyTypeMatch(filters.propertyType, p.propertyType)
    && RoomTypeMatch(filters.roomType, p.roomType)
    && AmenitiesMatch(filters.amenities, p.amenities)
  }

  /** The callback passed to `properties.filter`. */
  function MatchesFilters(filters: Criteria): Property -> bool {
    p => Matches(filters, p)
  }

  /** The list the filter effect stores: the fetched page as it is when no filter is
      applied, otherwise its order-preserving subsequence of matching properties. */
  function Displayed(properties: seq<Property>, appliedFilters: Option<Criteria>): (r: seq<Property>)
    ensures appliedFilters.None? ==> r == properties
    ensures |r| <= |properties| && IsSubsequence(r, properties)
    ensures appliedFilters.Some? ==> forall p :: p in r <==> p in properties && Matches(appliedFilters.value, p)
  {
    match appliedFilters
    case None =>
      assert IsSubsequence(properties, properties) by { SubsequenceReflexive(properties); }
      properties
    case Some(filters) => Filter(MatchesFilters(filters), properties)
  }

  lemma {:induction false} SubsequenceReflexive<T>(s: seq<T>)
    ensures IsSubsequence(s, s)
  {
    if s != [] {
      SubsequenceReflexive(s[1..]);
    }
  }

  /** With a filter applied, the displayed list is built element by element: it
      distributes over concatenation and keeps a single property exactly when it matches. */
  lemma DisplayedByElement(a: seq<Property>, b: seq<Property>, filters: Criteria, p: Property)
    ensures Displayed(a + b, Some(filters)) == Displayed(a, Some(filters)) + Displayed(b, Some(filters))
    ensures Displayed([p], Some(filters)) == if Matches(filters, p) then [p] else []
  {
    FilterConcat(MatchesFilters(filters), a, b);
    assert [p][1..] == [];
  }

  /** The type clause compares case-insensitively: lower-casing either side changes nothing. */
  lemma PropertyTypeIgnoresCase(filterType: string, t: string)
    ensures PropertyTypeMatch(filterType, Some(Lower(t))) == PropertyTypeMatch(filterType, Some(t))
    ensures PropertyTypeMatch(Lower(filterType), Some(t)) == PropertyTypeMatch(filterType, Some(t))
  {
    LowerIdempotent(t);
    LowerIdempotent(filterType);
  }

  /** A property with no type is excluded once a type is requested. */
  lemma MissingTypeExcluded(filters: Criteria, p: Property)
    requires filters.propertyType != "" && p.propertyType.None?
    ensures !Matches(filters, p)
  {
  }

  /** A property with no amenity list is excluded once some amenity is requested. */
  lemma MissingAmenitiesExcluded(filters: Criteria, p: Property)
    requires filters.amenities != [] && p.amenities.None?
    ensures !Matches(filters, p)
  {
    assert filters.amenities[0] in filters.amenities;
  }

  /** The amenity clause holds exactly when the requested amenities are among the property's;
      it depends on the requested set only, not on order or repetition. */
  lemma AmenitiesMatchIsInclusion(requested: seq<string>, amenities: seq<string>)
    ensures AmenitiesMatch(requested, Some(amenities)) <==> (forall a :: a in requested ==> a in amenities)
  {
  }

  /** `""` and `"Anytype"` as the room type filter every page identically. */
  lemma AnyRoomTypeIsNoRoomType(properties: seq<Property>, filters: Criteria)
    ensures Displayed(properties, Some(filters.(roomType := ""))) == Displayed(properties, Some(filters.(roomType := AnyRoomType)))
  {
    var p := MatchesFilters(filters.(roomType := ""));
    var q := MatchesFilters(filters.(roomType := AnyRoomType));
    FilterCongruent(p, q, properties);
  }

  /** The price clause includes both ends of the range: a price equal to min or to max matches it. */
  lemma PriceClauseInclusive(range: PriceRange, price: int)
    requires range.min <= range.max && (price == range.min || price == range.max)
    ensures PriceMatch(range, price)
  {
  }

  /** Prices 500, 600, 1000, 1500 and 2000 against the range 600..1500: the properties
      priced 600, 1000 and 1500 are shown, in their order. */
  lemma PriceSample(filters: Criteria, a: Property, d: Property, b: Property, e: Property, c: Property)
    requires filters == Criteria(PriceRange(600, 1500), "", "", [])
    requires a.price == 500 && d.price == 600 && b.price == 1000 && e.price == 1500 && c.price == 2000
    ensures Displayed([a, d, b, e, c], Some(filters)) == [d, b, e]
  {
    assert !Matches(filters, a) && Matches(filters, d) && Matches(filters, b) && Matches(filters, e) && !Matches(filters, c);
    var f := Some(filters);
    var ec := Displayed([e, c], f);
    assert ec == [e] by { DisplayedCons(e, [c], filters); DisplayedCons(c, [], filters); }
    var bec := Displayed([b, e, c], f);
    assert bec == [b, e] by { DisplayedCons(b, [e, c], filters); }
    var dbec := Displayed([d, b, e, c], f);
    assert dbec == [d, b, e] by { DisplayedCons(d, [b, e, c], filters); }
    DisplayedCons(a, [d, b, e, c], filters);
  }

  /** One step of the element-by-element construction: the head is kept exactly when it matches. */
  lemma DisplayedCons(p: Property, rest: seq<Property>, filters: Criteria)
    ensures Displayed([p] + rest, Some(filters)) == (if Matches(filters, p) then [p] else []) + Displayed(rest, Some(filters))
  {
    DisplayedByElement([p], rest, filters, p);
  }

  /** Requesting Wifi and Ac excludes a property that lists only Wifi. */
  lemma AmenitySample(filters: Criteria, p: Property)
    requires filters.amenities == ["Wifi", "Ac"] && p.amenities == Some(["Wifi"])
    ensures !Matches(filters, p)
  {
    assert filters.amenities[1] == "Ac";
  }

  /** `Math.ceil(totalProperties / 12)`: the fewest pages of 12 that hold every property. */
  function LastPage(totalProperties: nat): (r: nat)
    ensures r * PageSize >= totalProperties
    ensures r > 0 ==> (r - 1) * PageSize < totalProperties
  {
    (totalProperties + PageSize - 1) / PageSize
  }

  /** "Previous" is disabled on the first page. */
  predicate PreviousDisabled(page: int) {
    page == 1
  }

  /** "Next" is disabled on a short page or on the last page. */
  predicate NextDisabled(displayedCount: nat, page: int, lastPage: int) {
    displayedCount < PageSize || page == lastPage
  }

  /** A click on Previous: one page back unless the button is disabled. */
  function PreviousPage(page: int): (r: int)
    ensures r == page - 1 <==> !PreviousDisabled(page)
    ensures r == page <==> PreviousDisabled(page)
  {
    if PreviousDisabled(page) then page else page - 1
  }

  /** A click on Next: one page forward unless the button is disabled. */
  function NextPage(displayedCount: nat, page: int, lastPage: int): (r: int)
    ensures r == page + 1 <==> !NextDisabled(displayedCount, page, lastPage)
    ensures r == page <==> NextDisabled(displayedCount, page, lastPage)
  {
    if NextDisabled(displayedCount, page, lastPage) then page else page + 1
  }

  /** Starting from a page in 1..lastPage, both controls stay in 1..lastPage. */
  lemma PagingStaysInRange(displayedCount: nat, page: int, lastPage: int)
    requires 1 <= page <= lastPage
    ensures 1 <= PreviousPage(page) <= lastPage
    ensures 1 <= NextPage(displayedCount, page, lastPage) <= lastPage
  {
  }

  /** The view's own state: the page cursor and the list the filter effect stored. */
  class View {
    var currentPage: int
    var filteredProperties: seq<Property>

    ghost predicate Valid()
      reads this
    {
      currentPage >= 1
    }

    constructor ()
      ensures Valid() && currentPage == 1 && filteredProperties == []
    {
      currentPage := 1;
      filteredProperties := [];
    }

    /** The filter effect, run whenever the fetched page or the applied criteria change. */
    method FilterEffect(properties: seq<Property>, appliedFilters: Option<Criteria>)
      requires Valid()
      modifies this
      ensures Valid() && currentPage == old(currentPage)
      ensures filteredProperties == Displayed(properties, appliedFilters)
    {
      if appliedFilters.Some? {
        filteredProperties := Filter(MatchesFilters(appliedFilters.value), properties);
      } else {
        filteredProperties := properties;
      }
    }

    /** A click on Previous; the button does nothing while disabled. */
    method ClickPrevious()
      requires Valid()
      modifies this
      ensures Valid() && filteredProperties == old(filteredProperties)
      ensures currentPage == PreviousPage(old(currentPage))
    {
      if currentPage != 1 {
        currentPage := currentPage - 1;
      }
    }

    /** A click on Next, given the backend's `totalProperties`; the button does nothing while disabled. */
    method ClickNext(totalProperties: nat)
      requires Valid()
      modifies this
      ensures Valid() && filteredProperties == old(filteredProperties)
      ensures currentPage == NextPage(|filteredProperties|, old(currentPage), LastPage(totalProperties))
    {
      var lastPage := LastPage(totalProperties);
      if !(|filteredProperties| < PageSize || currentPage == lastPage) {
        currentPage := currentPage + 1;
      }
    }
  }
}
