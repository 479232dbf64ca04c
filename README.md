# HomelyHub front end: filter pipeline and profile-edit rules

A Dafny model of the decision logic in the HomelyHub rental marketplace's React front end.

The **filter pipeline** has four parts:

- The filter editor (`FilterModal.jsx`) keeps a draft of the criteria. That draft holds a price range, a property type, a room type and an amenity list.
- The filter trigger (`Filter.jsx`) opens and closes the editor and relays applied criteria to its parent.
- The listing container (`Main.jsx`) holds the applied criteria, or nothing when no filter is applied.
- The listing view (`PropertyList.jsx`) filters the fetched page of properties with a four-clause predicate and steps a page cursor.

The **profile editor** (`EditProfile.jsx`) does three things:

- It validates a chosen avatar file.
- It builds the update payload from the fields that changed, and rejects a submission that changes nothing.
- It shows backend errors, or resynchronises the form from the stored user.

Each component whose state the source updates in place is a class. Its fields are the component's state fields (`useState`, and the `useForm` values for the profile form), plus the mounted editor for the trigger, and its methods are the event handlers, each specified against a pure function of the old state. The derived values (the filter predicate, the displayed list, `lastPage`, the changed-field payload) are functions, and lemmas state their properties.

Modules, one per source file plus two shared ones:

- `Option`
- `Sequences`: JavaScript's `filter` and facts about it.
- `FilterCriteria`: the criteria value, its bounds and the option vocabularies.
- `FilterModal`
- `FilterTrigger`
- `MainLayout`
- `PropertyList`
- `EditProfile`
- `Pipeline`: the components wired together as the pages wire them.

Three behaviours of the code worth knowing:

- **Apply does not close the editor.** The editor's Apply only calls `onApply`. Closing is done by the trigger's handler, which the trigger passes as `onApply`.
- **Amenities are an ordered list, not a set.** Removing one keeps the order of the others. Toggling a present amenity twice moves it to the end.
- **The size limit is inclusive.** The message says "less than 5MB", but a file of exactly 5 MiB passes the size check, because only `size > 5*1024*1024` is rejected. It must still have an `image/` type to be accepted.

## Model

| member | source | states |
|---|---|---|
| `Sequences.Filter` | homelyhub-main/Frontend/src/components/home/PropertyList.jsx:64-104 | `Array.filter`: the result is no longer than the input, is a subsequence of it (order kept), and contains exactly the input's elements that satisfy the predicate |
| `FilterModal.SliderUpdate` | homelyhub-main/Frontend/src/components/home/FilterModal.jsx:12-16 | the result is either the candidate or the current range; it is the candidate exactly when the candidate is within 600 ≤ min ≤ max ≤ 30000 (or already current); a bounded range stays bounded |
| `FilterModal.MinInputUpdate` | homelyhub-main/Frontend/src/components/home/FilterModal.jsx:18-23 | max never changes; min changes only to a parsed number in 600..current max, and does change for every such number; a bounded range stays bounded |
| `FilterModal.MaxInputUpdate` | homelyhub-main/Frontend/src/components/home/FilterModal.jsx:25-30 | mirror image: min never changes; max changes only to a parsed number in current min..30000, and does for every such number; bounds kept |
| `FilterModal.ToggleSelect` | homelyhub-main/Frontend/src/components/home/FilterModal.jsx:89-97 | the result is `""` or the selected value; it is `""` exactly when the selected value was already selected |
| `FilterModal.ToggleSelectTwice` | homelyhub-main/Frontend/src/components/home/FilterModal.jsx:89-97 | selecting the same value twice gives `""`, unless it was selected to begin with (then it is selected again) |
| `FilterModal.ToggleAmenity` | homelyhub-main/Frontend/src/components/home/FilterModal.jsx:81-87 | a present amenity is removed, every copy of it, and every other member is kept in relative order with its multiplicity; an absent one is appended at the end |
| `FilterModal.ToggleAmenityKeepsNoDup` | homelyhub-main/Frontend/src/components/home/FilterModal.jsx:81-87 | a duplicate-free amenity list stays duplicate-free after a toggle |
| `FilterModal.ToggleAbsentTwice` | homelyhub-main/Frontend/src/components/home/FilterModal.jsx:81-87 | toggling an absent amenity twice restores the list exactly, order included |
| `FilterModal.TogglePresentTwice` | homelyhub-main/Frontend/src/components/home/FilterModal.jsx:81-87 | toggling a present amenity twice moves it to the end, keeps the same members and, on a duplicate-free list, is a permutation |
| `FilterModal.ToggleSelectStaysInVocabulary` | homelyhub-main/Frontend/src/components/home/FilterModal.jsx:89-97 | selecting only offered values keeps a single-select field empty or one of those values |
| `FilterModal.SelectionsStayInVocabulary` | homelyhub-main/Frontend/src/components/home/FilterModal.jsx:47-58 | selecting from the property-type and room-type boxes keeps each field `""` or one of its option values |
| `FilterModal.ToggleAmenityStaysInVocabulary` | homelyhub-main/Frontend/src/components/home/FilterModal.jsx:60-87 | toggling only checkbox values keeps the list inside the seven-amenity vocabulary |
| `FilterModal.Editor.constructor` | homelyhub-main/Frontend/src/components/home/FilterModal.jsx:7-10 | the draft starts as price 600..30000, `""`, `""`, `[]`, which satisfies the draft invariant |
| `FilterModal.Editor.PriceRangeChange` | homelyhub-main/Frontend/src/components/home/FilterModal.jsx:12-16 | only the price range changes, to the guarded slider update; the invariant is kept |
| `FilterModal.Editor.MinInputChange` | homelyhub-main/Frontend/src/components/home/FilterModal.jsx:18-23 | only the price range changes, to the guarded min update; the invariant is kept |
| `FilterModal.Editor.MaxInputChange` | homelyhub-main/Frontend/src/components/home/FilterModal.jsx:25-30 | only the price range changes, to the guarded max update; the invariant is kept |
| `FilterModal.Editor.ApplyFilters` | homelyhub-main/Frontend/src/components/home/FilterModal.jsx:32-45 | emits exactly the current draft when `onApply` is provided and nothing otherwise; changes no state |
| `FilterModal.Editor.ClearFilters` | homelyhub-main/Frontend/src/components/home/FilterModal.jsx:74-79 | all four fields back to the defaults (invariant holds); nothing is emitted and the editor stays open |
| `FilterModal.Editor.AmenitiesChange` | homelyhub-main/Frontend/src/components/home/FilterModal.jsx:81-87 | only the amenity list changes, to its toggle; the list stays duplicate-free |
| `FilterModal.Editor.PropertyTypeChange` | homelyhub-main/Frontend/src/components/home/FilterModal.jsx:89-93 | only the property type changes, by single-select with toggle-off |
| `FilterModal.Editor.RoomTypeChange` | homelyhub-main/Frontend/src/components/home/FilterModal.jsx:95-97 | only the room type changes, by single-select with toggle-off |
| `FilterTrigger.Trigger.constructor` | homelyhub-main/Frontend/src/components/home/Filter.jsx:5 | the modal starts closed, with no editor mounted |
| `FilterTrigger.Trigger.OpenFilter` | homelyhub-main/Frontend/src/components/home/Filter.jsx:7-10 | afterwards the modal is open; opening a closed modal mounts a fresh editor on the default draft; opening an open one keeps the same editor |
| `FilterTrigger.Trigger.CloseModal` | homelyhub-main/Frontend/src/components/home/Filter.jsx:12-15 | afterwards the modal is closed and the editor, with its draft, is gone (idempotent) |
| `FilterTrigger.Trigger.ApplyFilters` | homelyhub-main/Frontend/src/components/home/Filter.jsx:17-25 | forwards the received criteria unchanged when `onApplyFilters` is provided, nothing otherwise, and closes |
| `FilterTrigger.Trigger.ApplyFromEditor` | homelyhub-main/Frontend/src/components/home/Filter.jsx:17-40 | the Apply button of the mounted editor: what reaches the parent is exactly the draft as it was, and the modal closes |
| `MainLayout.Container.constructor` | homelyhub-main/Frontend/src/components/home/Main.jsx:7 | no filter is applied initially |
| `MainLayout.Container.ApplyFilters` | homelyhub-main/Frontend/src/components/home/Main.jsx:9-12 | the applied value becomes exactly the received criteria, unvalidated |
| `MainLayout.Container.ClearFilters` | homelyhub-main/Frontend/src/components/home/Main.jsx:14-17 | the applied value becomes "none" whatever it was (idempotent) |
| `PropertyList.Matches` | homelyhub-main/Frontend/src/components/home/PropertyList.jsx:64-104 | the filter callback: a matching property is priced inside the range (both ends included) and lists every requested amenity; with no type, room type or amenity requested, the price alone decides |
| `PropertyList.Displayed` | homelyhub-main/Frontend/src/components/home/PropertyList.jsx:59-112 | no filter: the fetched page exactly; with one: an order-preserving subsequence of the page whose members are exactly the matching properties, so "Showing X of Y" has X ≤ Y |
| `PropertyList.DisplayedByElement` | homelyhub-main/Frontend/src/components/home/PropertyList.jsx:64-104 | with a filter, the displayed list distributes over concatenation and keeps one property exactly when it matches; together these fix the result, duplicates included |
| `PropertyList.PriceClauseInclusive` | homelyhub-main/Frontend/src/components/home/PropertyList.jsx:66-68 | the price clause is inclusive at both ends: a price equal to the range's min or max matches |
| `PropertyList.PriceSample` | homelyhub-main/Frontend/src/components/home/PropertyList.jsx:66-68 | prices 500, 600, 1000, 1500, 2000 against 600..1500 display exactly the properties priced 600, 1000 and 1500, in order |
| `PropertyList.DisplayedCons` | homelyhub-main/Frontend/src/components/home/PropertyList.jsx:64-104 | the displayed list of `[p] + rest` is `p` (exactly when it matches) followed by the displayed list of `rest` |
| `PropertyList.PropertyTypeIgnoresCase` | homelyhub-main/Frontend/src/components/home/PropertyList.jsx:71-73 | the type clause compares lower-cased values: lower-casing the property's type or the requested type changes no outcome |
| `PropertyList.MissingTypeExcluded` | homelyhub-main/Frontend/src/components/home/PropertyList.jsx:71-73 | a property without a type fails once a type is requested |
| `PropertyList.AnyRoomTypeIsNoRoomType` | homelyhub-main/Frontend/src/components/home/PropertyList.jsx:76-79 | `"Anytype"` and `""` as room type display the same list for every page |
| `PropertyList.AmenitiesMatchIsInclusion` | homelyhub-main/Frontend/src/components/home/PropertyList.jsx:82-86 | for a listed property, the amenity clause holds exactly when every requested amenity is in the property's list |
| `PropertyList.MissingAmenitiesExcluded` | homelyhub-main/Frontend/src/components/home/PropertyList.jsx:82-86 | a property without an amenity list fails once an amenity is requested |
| `PropertyList.AmenitySample` | homelyhub-main/Frontend/src/components/home/PropertyList.jsx:82-86 | requesting Wifi and Ac excludes a property listing only Wifi |
| `PropertyList.LastPage` | homelyhub-main/Frontend/src/components/home/PropertyList.jsx:46 | `ceil(total/12)`: the least number of 12-property pages that holds all properties |
| `PropertyList.PreviousPage` | homelyhub-main/Frontend/src/components/home/PropertyList.jsx:211-217 | a Previous click moves back exactly one page when the button is enabled (page ≠ 1) and leaves the page unchanged exactly when it is disabled |
| `PropertyList.NextPage` | homelyhub-main/Frontend/src/components/home/PropertyList.jsx:223-229 | a Next click moves forward exactly one page when enabled and leaves it unchanged exactly when disabled (fewer than 12 shown, or on the last page) |
| `PropertyList.PagingStaysInRange` | homelyhub-main/Frontend/src/components/home/PropertyList.jsx:211-229 | from a page within 1..lastPage, both controls keep the page within 1..lastPage |
| `PropertyList.View.constructor` | homelyhub-main/Frontend/src/components/home/PropertyList.jsx:38-39 | the cursor starts at page 1, with nothing displayed |
| `PropertyList.View.FilterEffect` | homelyhub-main/Frontend/src/components/home/PropertyList.jsx:59-112 | the stored list becomes the displayed list for the fetched page and the applied criteria; the page is unchanged |
| `PropertyList.View.ClickPrevious` | homelyhub-main/Frontend/src/components/home/PropertyList.jsx:211-217 | the page becomes the Previous step of the old page and stays ≥ 1 |
| `PropertyList.View.ClickNext` | homelyhub-main/Frontend/src/components/home/PropertyList.jsx:223-229 | the page becomes the Next step, judged on the displayed count and `lastPage` of the backend total |
| `EditProfile.CheckAvatar` | homelyhub-main/Frontend/src/components/user/EditProfile.jsx:22-39 | no file → no message; size over 5 MiB → the size message; otherwise a non-`image/` type → the type message; otherwise accepted (each case an if-and-only-if) |
| `EditProfile.SizeCheckedFirst` | homelyhub-main/Frontend/src/components/user/EditProfile.jsx:30-39 | an oversized file gets the size message whatever its type; a file of exactly 5 MiB passes the size check |
| `EditProfile.Original` | homelyhub-main/Frontend/src/components/user/EditProfile.jsx:16-20 | the comparison values: the user's name, phone number and avatar URL, all `""` when there is no user; the original avatar has no placeholder fallback |
| `EditProfile.SyncedForm` | homelyhub-main/Frontend/src/components/user/EditProfile.jsx:99-102 | the resynced form: name and phone number from the user; the avatar is the user's URL when there is one and the placeholder URL otherwise, so never empty |
| `EditProfile.UpdatedFields` | homelyhub-main/Frontend/src/components/user/EditProfile.jsx:67-79 | a field is in the payload exactly when its value is non-empty and differs from the original, and then carries the form value; a cleared field is never submitted |
| `EditProfile.ClearedOrUnchangedIsNoChange` | homelyhub-main/Frontend/src/components/user/EditProfile.jsx:67-86 | a form whose fields are each unchanged or cleared yields an empty payload, hence "No changes made" |
| `EditProfile.ResyncedFormDiff` | homelyhub-main/Frontend/src/components/user/EditProfile.jsx:94-104 | after a resync, a user with an avatar who edits nothing has an empty payload; a user without one always submits the placeholder URL as the avatar |
| `EditProfile.Editor.constructor` | homelyhub-main/Frontend/src/components/user/EditProfile.jsx:58-63 | the form's default values are the user's fields (`""` when missing); the preview (line 12) starts from the avatar URL or the placeholder |
| `EditProfile.Editor.OnChange` | homelyhub-main/Frontend/src/components/user/EditProfile.jsx:22-56 | a rejected file yields its message and no change; no file yields nothing; an accepted file sets the preview and the form's avatar to the same read result, touching nothing else |
| `EditProfile.Editor.ChangeName` | homelyhub-main/Frontend/src/components/user/EditProfile.jsx:130 | typing in the name input sets only the form's name |
| `EditProfile.Editor.ChangePhoneNumber` | homelyhub-main/Frontend/src/components/user/EditProfile.jsx:146 | typing in the phone input sets only the form's phone number |
| `EditProfile.Editor.OnSubmit` | homelyhub-main/Frontend/src/components/user/EditProfile.jsx:64-91 | an empty payload gives "No changes made" and nothing else; otherwise the payload is dispatched exactly as built, with the success message and navigation to `/profile` |
| `EditProfile.Editor.Sync` | homelyhub-main/Frontend/src/components/user/EditProfile.jsx:94-104 | pending errors are shown and cleared and the form is left alone; otherwise a present user resets the form (avatar falling back to the placeholder) and the preview to the same avatar; with no user nothing happens |
| `Pipeline.ApplyOneAmenity` | homelyhub-main/Frontend/src/components/home/Main.jsx:9-22 | open, tick one amenity, apply: the listing shows exactly the page filtered by the default criteria plus that amenity, and every shown property lists it |
| `Pipeline.ClearRestoresListing` | homelyhub-main/Frontend/src/components/home/Main.jsx:14-22 | after clearing, the listing is the unfiltered fetched page again |
| `Pipeline.ReopenDiscardsDraft` | homelyhub-main/Frontend/src/components/home/Filter.jsx:35-40 | closing without applying discards all edits: the next opening shows the default draft |

## Left out

- **Fetching properties** (the effect at `PropertyList.jsx` lines 50-56, Redux dispatch, `getAllProperties`). These are network calls to a backend that is not part of this model. The fetched page and `totalProperties` are inputs, and a page change's re-fetch is a new input to `FilterEffect`.
- **Out-of-order fetch responses and effect ordering.** These are concurrency and event-loop concerns.
- **`updateUser`, toasts, `navigate` and `console.log`.** The dispatched payload, the messages and the route are returned as values. Clearing the errors is part of the `Sync` outcome, which is `ShowAndClearErrors`.
- **FileReader.** The asynchronous read, its `readyState` check and its `onerror` are not modelled. A successful read is the parameter `readResult`.
- **Rendering.** `Card`, all JSX, CSS, the "active filters" tags, the GSAP animation (lines 115-129) and the unguarded `images[0].url` and `address.*` accesses are presentational, or data-shape faults.
- **`Profile.jsx`** is display only. `Header.jsx` is not part of this model. That it passes the container's handler on to the trigger is inferred from `Main.jsx` line 21 (`onApplyFilters={handleApplyFilters}` on the header) and the trigger's `onApplyFilters` prop (`Filter.jsx` line 4); `Pipeline` relies on that wiring.
- **`react-input-range` internals.** The slider's value reaches `PriceRangeChange` as a candidate range.
- `FilterModal.Editor.MinInputChange`: JavaScript's `parseInt` on the input text is not modelled. The handler takes the parsed number, or `None` when the input is `NaN`.
- `FilterModal.Editor.MaxInputChange`: the same `parseInt` abstraction as `MinInputChange`; the handler takes the parsed number or `None`.
- `PropertyList.Lower`: only ASCII letters are lower-cased. Unicode case mapping is not modelled.
- `PropertyList.Property`: prices are integers. JavaScript numbers, including fractional prices and `NaN`, are not modelled, and neither is a `totalProperties` that is not a natural number.
- `EditProfile.User`: a missing name, phone number or avatar URL is `""`, which is what the code's `|| ""` turns them into. A phone number stored as a number, and JavaScript's falsy `0`, are not modelled. Neither is the `undefined` a resync writes for a missing name or phone number (both are written unguarded): it is as falsy as `""` for the payload.
- `PropertyList.View.ClickNext`: a click on a disabled button is a no-op, because the browser does not fire `onClick` on a disabled button. The cursor is not kept within `lastPage` when the backend total shrinks; `PagingStaysInRange` states the bound for a cursor that starts inside it.
