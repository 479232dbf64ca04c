/** The filter trigger (Filter.jsx): an open/closed flag, the editor that exists only
    while the flag is set, and the relay of applied criteria to the parent. */
module FilterTrigger {
  import opened Option
  import opened FilterCriteria
  import opened FilterModal

  class Trigger {
    var isModalOpen: bool
    /** The mounted editor; `null` while the modal is closed. */
    var editor: Editor?

    ghost predicate Valid()
      reads this, editor
    {
      (editor != null <==> isModalOpen) && (editor != null ==> editor.Valid())
    }

    constructor ()
      ensures Valid() && !isModalOpen
    {
      isModalOpen := false;
      editor := null;
    }

    /** Opening a closed modal mounts a fresh editor on the default draft;
        opening an open one changes nothing. */
    method OpenFilter()
      requires Valid()
      modifies this
      ensures Valid() && isModalOpen
      ensures !old(isModalOpen) ==> fresh(editor) && editor.Draft() == Default()
      ensures old(isModalOpen) ==> editor == old(editor)
    {
      if !isModalOpen {
        editor := new Editor();
      }
      isModalOpen := true;
    }

    /** Closing unmounts the editor, discarding its draft. */
    method CloseModal()
      requires Valid()
      modifies this
      ensures Valid() && !isModalOpen && editor == null
    {
      isModalOpen := false;
      editor := null;
    }

    /** The editor's `onApply`: forwards the criteria unchanged when the parent passed
        `onApplyFilters`, then closes. */
    method ApplyFilters(filters: Criteria, hasOnApplyFilters: bool) returns (forwarded: Option<Criteria>)
      requires Valid()
      modifies this
      ensures Valid() && !isModalOpen && editor == null
      ensures forwarded == if hasOnApplyFilters then Some(filters) else None
    {
      if hasOnApplyFilters {
        forwarded := Some(filters);
      } else {
        forwarded := None;
      }
      isModalOpen := false;
      editor := null;
    }

    /** The Apply button of the mounted editor: the editor emits its draft to this
        trigger (which always passes its handler), which relays it and closes. */
    method ApplyFromEditor(hasOnApplyFilters: bool) returns (forwarded: Option<Criteria>)
      requires Valid() && isModalOpen
      modifies this
      ensures Valid() && !isModalOpen && editor == null
      ensures forwarded == if hasOnApplyFilters then Some(old(editor.Draft())) else None
    {
      var emitted := editor.ApplyFilters(true);
      forwarded := ApplyFilters(emitted.value, hasOnApplyFilters);
    }
  }
}
