/** The components wired together as the pages wire them: the trigger in the header
    relays the editor's criteria to the container, whose value the routed listing view
    reads through the outlet context (Main.jsx line 22). Header.jsx is not part of this
    model: that the header hands the container's handler to the trigger is inferred from
    Main.jsx line 21 and the trigger's `onApplyFilters` prop (Filter.jsx line 4). */
module Pipeline {
  import opened Option
  import opened FilterCriteria
  import opened FilterModal
  import opened FilterTrigger
  import opened MainLayout
  import opened PropertyList

  /** Opening the editor, ticking one amenity and applying: the listing shows exactly
      the fetched properties that match the default criteria with that amenity. */
  method ApplyOneAmenity(properties: seq<Property>, amenity: string) returns (shown: seq<Property>)
    ensures shown == Displayed(properties, Some(Default().(amenities := [amenity])))
    ensures forall p :: p in shown ==> p.amenities.Some? && amenity in p.amenities.value
  {
    var container := new Container();
    var trigger := new Trigger();
    var view := new View();
    trigger.OpenFilter();
    assert ToggleAmenity([], amenity) == [amenity];
    trigger.editor.AmenitiesChange(amenity);
    var forwarded := trigger.ApplyFromEditor(true);
    container.ApplyFilters(forwarded.value);
    view.FilterEffect(properties, container.appliedFilters);
    shown := view.filteredProperties;
    assert Default().(amenities := [amenity]).amenities[0] == amenity;
  }

  /** Clearing the applied filters returns the listing to the unfiltered page. */
  method ClearRestoresListing(properties: seq<Property>, filters: Criteria) returns (shown: seq<Property>)
    ensures shown == properties
  {
    var container := new Container();
    var view := new View();
    container.ApplyFilters(filters);
    view.FilterEffect(properties, container.appliedFilters);
    container.ClearFilters();
    view.FilterEffect(properties, container.appliedFilters);
    shown := view.filteredProperties;
  }

  /** Closing the editor without applying discards its draft: the next opening starts
      from the default draft whatever was edited before. */
  method ReopenDiscardsDraft(value: PriceRange, propertyType: string, amenity: string) returns (draft: Criteria)
    ensures draft == Default()
  {
    var trigger := new Trigger();
    trigger.OpenFilter();
    trigger.editor.PriceRangeChange(value);
    trigger.editor.PropertyTypeChange(propertyType);
    trigger.editor.AmenitiesChange(amenity);
    trigger.CloseModal();
    trigger.OpenFilter();
    draft := trigger.editor.Draft();
  }
}
