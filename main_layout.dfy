/** The listing container (Main.jsx): the applied criteria, or `None` when no filter is
    applied, shared with the routed listing view together with its two handlers. */
module MainLayout {
  import opened Option
  import opened FilterCriteria

  class Container {
    var appliedFilters: Option<Criteria>

    constructor ()
      ensures appliedFilters == None
    {
      appliedFilters := None;
    }

    /** Replaces the applied criteria wholesale; nothing is validated here. */
    method ApplyFilters(filters: Criteria)
      modifies this
      ensures appliedFilters == Some(filters)
    {
      appliedFilters := Some(filters);
    }

    /** Back to "no filter applied", whatever the previous state. */
    method ClearFilters()
      modifies this
      ensures appliedFilters == None
    {
      appliedFilters := None;
    }
  }
}
