/** The filter editor (FilterModal.jsx): a draft of the filter criteria that guarded
    event handlers update in place, with Clear All and Apply. */
module FilterModal {
  import opened Option
  import opened Sequences
  import opened FilterCriteria

  /** The slider's `onChange`: the candidate range is committed only when it is in bounds. */
  function SliderUpdate(current: PriceRange, value: PriceRange): (r: PriceRange)
    ensures r == value || r == current
    ensures r == value <==> InBounds(value) || value == current
    ensures InBounds(current) ==> InBounds(r)
  {
    if value.min >= MinPrice && value.max <= MaxPrice && value.min <= value.max then value else current
  }

  /** The minimum number input: `input` is the parsed number, `None` when it is not a number. */
  function MinInputUpdate(current: PriceRange, input: Option<int>): (r: PriceRange)
    ensures r.max == current.max
    ensures r == current || (input.Some? && r.min == input.value && MinPrice <= r.min <= current.max)
    ensures input.Some? && MinPrice <= input.value <= current.max ==> r.min == input.value
    ensures InBounds(current) ==> InBounds(r)
  {
    if input.Some? && input.value >= MinPrice && input.value <= current.max then current.(min := input.value) else current
  }

  /** The maximum number input, the mirror image of `MinInputUpdate`. */
  function MaxInputUpdate(current: PriceRange, input: Option<int>): (r: PriceRange)
    ensures r.min == current.min
    ensures r == current || (input.Some? && r.max == input.value && current.min <= r.max <= MaxPrice)
    ensures input.Some? && current.min <= input.value <= MaxPrice ==> r.max == input.value
    ensures InBounds(current) ==> InBounds(r)
  {
    if input.Some? && input.value <= MaxPrice && input.value >= current.min then current.(max := input.value) else current
  }

  /** Single-select with toggle-off, as for the property type and the room type. */
  function ToggleSelect(previous: string, selected: string): (r: string)
    ensures r == "" || r == selected
    ensures r == "" <==> previous == selected || selected == ""
  {
    if previous == selected then "" else selected
  }

  /** Multi-select toggle of one amenity: remove it when present, append it when absent. */
  function ToggleAmenity(previous: seq<string>, selected: string): (r: seq<string>)
    ensures selected in previous ==> selected !in r && IsSubsequence(r, previous)
    ensures selected in previous ==> forall x :: x != selected ==> (x in r <==> x in previous)
    ensures selected in previous ==> multiset(r) == multiset(previous)[selected := 0]
    ensures selected !in previous ==> r == previous + [selected]
  {
    if selected in previous then
      FilterIsNotMultiset(selected, previous);
      Filter(IsNot(selected), previous)
    else previous + [selected]
  }

  /** Selecting the same value twice: back to `""` unless the value was selected to begin with. */
  lemma ToggleSelectTwice(previous: string, selected: string)
    ensures ToggleSelect(ToggleSelect(previous, selected), selected) == if previous == selected then selected else ""
  {
  }

  /** Toggling keeps the amenity list duplicate-free. */
  lemma ToggleAmenityKeepsNoDup(previous: seq<string>, selected: string)
    requires NoDup(previous)
    ensures NoDup(ToggleAmenity(previous, selected))
  {
    if selected in previous {
      FilterNoDup(IsNot(selected), previous);
    } else {
      NoDupAppend(previous, selected);
    }
  }

  /** Toggling an absent amenity twice restores the list, order included. */
  lemma ToggleAbsentTwice(previous: seq<string>, selected: string)
    requires selected !in previous
    ensures ToggleAmenity(ToggleAmenity(previous, selected), selected) == previous
  {
    var once := previous + [selected];
    assert ToggleAmenity(previous, selected) == once;
    FilterConcat(IsNot(selected), previous, [selected]);
    FilterKeepsAll(IsNot(selected), previous);
    assert Filter(IsNot(selected), [selected]) == [];
  }

  /** Toggling a present amenity twice moves it to the end and keeps the same members;
      on a duplicate-free list the two lists are permutations of each other. */
  lemma TogglePresentTwice(previous: seq<string>, selected: string)
    requires selected in previous
    ensures ToggleAmenity(ToggleAmenity(previous, selected), selected) == Filter(IsNot(selected), previous) + [selected]
    ensures forall x :: x in ToggleAmenity(ToggleAmenity(previous, selected), selected) <==> x in previous
    ensures NoDup(previous) ==> multiset(ToggleAmenity(ToggleAmenity(previous, selected), selected)) == multiset(previous)
  {
    var removed := Filter(IsNot(selected), previous);
    assert selected !in removed;
    if NoDup(previous) {
      FilterIsNotMultiset(selected, previous);
      NoDupOccursOnce(selected, previous);
      assert multiset(removed + [selected]) == multiset(removed) + multiset{selected};
      assert multiset(previous) == multiset(previous)[selected := 0] + multiset{selected};
    }
  }

  /** Selecting only offered values keeps a single-select field either empty or one of the offered values. */
  lemma ToggleSelectStaysInVocabulary(options: seq<string>, previous: string, selected: string)
    requires previous == "" || previous in options
    requires selected in options
    ensures ToggleSelect(previous, selected) == "" || ToggleSelect(previous, selected) in options
  {
  }

  /** The property-type and room-type boxes offer their option lists, so both fields stay
      within their vocabularies. */
  lemma SelectionsStayInVocabulary(propertyType: string, roomType: string, selectedType: string, selectedRoom: string)
    requires propertyType == "" || propertyType in PropertyTypeOptions
    requires roomType == "" || roomType in RoomTypeOptions
    requires selectedType in PropertyTypeOptions && selectedRoom in RoomTypeOptions
    ensures ToggleSelect(propertyType, selectedType) == "" || ToggleSelect(propertyType, selectedType) in PropertyTypeOptions
    ensures ToggleSelect(roomType, selectedRoom) == "" || ToggleSelect(roomType, selectedRoom) in RoomTypeOptions
  {
    ToggleSelectStaysInVocabulary(PropertyTypeOptions, propertyType, selectedType);
    ToggleSelectStaysInVocabulary(RoomTypeOptions, roomType, selectedRoom);
  }

  /** Toggling only amenities offered by the checkboxes keeps the list inside that vocabulary. */
  lemma ToggleAmenityStaysInVocabulary(previous: seq<string>, selected: string)
    requires forall x :: x in previous ==> x in AmenityOptions
    requires selected in AmenityOptions
    ensures forall x :: x in ToggleAmenity(previous, selected) ==> x in AmenityOptions
  {
  }

  /** The editor's four state fields. */
  class Editor {
    var priceRange: PriceRange
    var propertyType: string
    var roomType: string
    var amenities: seq<string>

    ghost predicate Valid()
      reads this
    {
      ValidDraft(Draft())
    }

    /** The draft as a criteria value. */
    function Draft(): Criteria
      reads this
    {
      Criteria(priceRange, propertyType, roomType, amenities)
    }

    constructor ()
      ensures Valid() && Draft() == Default()
    {
      priceRange := PriceRange(MinPrice, MaxPrice);
      propertyType := "";
      roomType := "";
      amenities := [];
    }

    method PriceRangeChange(value: PriceRange)
      requires Valid()
      modifies this
      ensures Valid()
      ensures Draft() == old(Draft()).(priceRange := SliderUpdate(old(priceRange), value))
    {
      if value.min >= MinPrice && value.max <= MaxPrice && value.min <= value.max {
        priceRange := value;
      }
    }

    method MinInputChange(input: Option<int>)
      requires Valid()
      modifies this
      ensures Valid()
      ensures Draft() == old(Draft()).(priceRange := MinInputUpdate(old(priceRange), input))
    {
      if input.Some? && input.value >= MinPrice && input.value <= priceRange.max {
        priceRange := priceRange.(min := input.value);
      }
    }

    method MaxInputChange(input: Option<int>)
      requires Valid()
      modifies this
      ensures Valid()
      ensures Draft() == old(Draft()).(priceRange := MaxInputUpdate(old(priceRange), input))
    {
      if input.Some? && input.value <= MaxPrice && input.value >= priceRange.min {
        priceRange := priceRange.(max := input.value);
      }
    }

    /** Emits the draft as it stands when the parent passed an `onApply` callback; the draft is not changed. */
    method ApplyFilters(hasOnApply: bool) returns (emitted: Option<Criteria>)
      ensures emitted.Some? <==> hasOnApply
      ensures emitted.Some? ==> emitted.value == Draft()
    {
      var filters := Criteria(priceRange, propertyType, roomType, amenities);
      if hasOnApply {
        emitted := Some(filters);
      } else {
        emitted := None;
      }
    }

    /** Clear All: every field back to its default; neither closes the editor nor notifies the parent. */
    method ClearFilters()
      modifies this
      ensures Valid() && Draft() == Default()
    {
      priceRange := PriceRange(MinPrice, MaxPrice);
      propertyType := "";
      roomType := "";
      amenities := [];
    }

    method AmenitiesChange(selected: string)
      requires Valid()
      modifies this
      ensures Valid()
      ensures Draft() == old(Draft()).(amenities := ToggleAmenity(old(amenities), selected))
    {
      ToggleAmenityKeepsNoDup(amenities, selected);
      amenities := if selected in amenities then Filter(IsNot(selected), amenities) else amenities + [selected];
    }

    method PropertyTypeChange(selected: string)
      requires Valid()
      modifies this
      ensures Valid()
      ensures Draft() == old(Draft()).(propertyType := ToggleSelect(old(propertyType), selected))
    {
      propertyType := if propertyType == selected then "" else selected;
    }

    method RoomTypeChange(selected: string)
      requires Valid()
      modifies this
      ensures Valid()
      ensures Draft() == old(Draft()).(roomType := ToggleSelect(old(roomType), selected))
    {
      roomType := if roomType == selected then "" else selected;
    }
  }
}
