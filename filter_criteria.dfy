/** The filter criteria value that the filter editor builds and the listing applies
    (the object `{priceRange, propertyType, roomType, amenities}`). */
module FilterCriteria {
  import opened Sequences

  /** Bounds of the price slider and of the two number inputs. */
  const MinPrice := 600
  const MaxPrice := 30000

  /** The option values offered by the editor's selectable boxes and checkboxes. */
  const PropertyTypeOptions: seq<string> := ["house", "flat", "guest-house", "hotel"]
  const RoomTypeOptions: seq<string> := ["Entire Home", "Room", "Anytype"]
  const AmenityOptions: seq<string> := ["Wifi", "Kitchen", "Ac", "Washing Machine", "Tv", "Pool", "Free Parking"]

  datatype PriceRange = PriceRange(min: int, max: int)

  /** `""` for a type or a room type means "no constraint". */
  datatype Criteria = Criteria(priceRange: PriceRange, propertyType: string, roomType: string, amenities: seq<string>)

  /** 600 <= min <= max <= 30000. */
  predicate InBounds(r: PriceRange) {
    MinPrice <= r.min && r.max <= MaxPrice && r.min <= r.max
  }

  /** The invariant the editor keeps on its draft: a bounded price range and no duplicate amenity. */
  ghost predicate ValidDraft(c: Criteria) {
    InBounds(c.priceRange) && NoDup(c.amenities)
  }

  /** The draft a freshly mounted editor starts from and that Clear All restores. */
  function Default(): Criteria {
    Criteria(PriceRange(MinPrice, MaxPrice), "", "", [])
  }
}
