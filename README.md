# dt-tags: a verified model of the tag picker's state machine

`dt-tags` is a web component for picking tags. The user types a query and sees a
filtered list of candidate values. The candidates come from a local `options` list
or are fetched on demand through a bubbling `load` event. The user moves a keyboard
cursor over the candidates, plus one virtual "Add" row. Choosing a candidate or the
typed text selects it as a tag. The selected tags are drawn as removable chips, with
labels and optional links. Selected values that begin with `-` are negated markers:
they pass through the value list but are never treated as tags.

The model keeps the component's instance fields and trigger-driven updates, and drops
the rendering:

- `TagData` (`tag_data.dfy`) holds the values. It defines option records, the
  load-result shapes and the recorded `load` request. It also defines the negated-marker
  test and the filter that removes markers, ASCII lower-casing, substring search, and the
  normalisation of bare strings to `{ id }` records.
- `FilterEngine` (`filter_engine.dfy`) models `_filterOptions` as a pure decision. With
  options, it filters them locally. With none and the list open, it emits a request.
  Otherwise it does nothing.
- `Cursor` (`cursor.dfy`) covers the clamped `_listHighlightNext` and the value
  `_keyboardSelectOption` selects. It also produces the option rows and their
  active marking from `_renderOption` and `_renderOptions`.
- `TagRenderer` (`tag_renderer.dfy`) models `_renderSelectedOptions`. It produces one chip
  per plain value, resolves each label from `options || allOptions`, and builds the
  link-label record and the `link || '#'` target.
- `Element` (`dt_tags.dfy`) is the class `DtTags`. Its fields are `options`,
  `value`, `query`, `filteredOptions`, `allOptions`, `activeIndex` and `loading`. Its methods
  are the component's triggers: filter, `willUpdate`, the two `load` callbacks, highlight,
  keyboard select and click-add. Emitted requests and the calls to the inherited `_select`
  and `_remove` are recorded in ghost fields.
- `Scenarios` (`scenarios.dfy`) holds client methods that use only the class's contracts.
  They cover local filtering, adding a typed tag, a load round, a stale selection and a
  chip with a negated marker.

Quirks of the JavaScript that the model keeps on purpose:

- An empty `options` array counts as "no options" for filtering (`options?.length`).
- For labels, an empty `options` array still wins over `allOptions`, because `[]` is truthy.
- The success callback filters against the selected values captured when the request was
  made, not the current ones.
- The cursor can reach one past the last candidate even when no "Add" row is shown. Enter
  then selects the raw query (`Cursor.HiddenAddRowStillSelectsQuery`).

Further behaviours of the code that the model keeps:

- Keyboard select picks the query for every index at or past the end of the candidates
  (`activeIndex + 1 > filteredOptions.length`), not only at exactly the end.
- Labels are looked up in `options || allOptions`. When `options` is present, `allOptions`
  is never consulted, even when `options` has no match.
- `onError` does not touch `filteredOptions`. It stays whatever it was when the error
  arrived, which is not necessarily empty.
- The query filter applies only in the local-options branch. The success callback drops
  the selected values, as the local branch does, but ignores the query.

## Model

| member | source | states |
|---|---|---|
| `TagData.UnnegatedMembers` | src/components/form/dt-tags/dt-tags.js:76-77 | the selected values used for filtering are exactly the entries not starting with `-` |
| `TagData.UnnegatedAppend` | src/components/form/dt-tags/dt-tags.js:180-181 | dropping negated markers keeps the order of the plain values (it distributes over concatenation) |
| `TagData.UnnegatedCount` | src/components/form/dt-tags/dt-tags.js:180-181 | one entry survives per non-negated value, duplicates included |
| `TagData.NegatedMarkerIsInvisible` | src/components/form/dt-tags/dt-tags.js:76-77 | inserting a `-` marker anywhere into the value list leaves the plain values unchanged |
| `TagData.Lower` | src/components/form/dt-tags/dt-tags.js:85-86 | the lower-cased string has the same length and no upper-case ASCII letter; other characters are kept and letters shift by 32 |
| `TagData.LowerIdempotent` | src/components/form/dt-tags/dt-tags.js:85-86 | lower-casing twice equals lower-casing once |
| `TagData.Includes` | src/components/form/dt-tags/dt-tags.js:84-86 | `includes` holds iff the substring occurs at some index; the empty string occurs everywhere |
| `TagData.NormaliseStringsRoundTrip` | src/components/form/dt-tags/dt-tags.js:105-111 | bare names become records whose ids read back as the names, in order, with no label |
| `FilterEngine.FilterLocal` | src/components/form/dt-tags/dt-tags.js:80-87 | an option is a candidate iff it is in `options`, its id is not selected, and it matches the query case-insensitively (any option when the query is empty) |
| `FilterEngine.FilterIsSubsequence` | src/components/form/dt-tags/dt-tags.js:80-87 | candidates are an order-preserving subsequence of `options` |
| `FilterEngine.FilterIdempotent` | src/components/form/dt-tags/dt-tags.js:80-87 | filtering the candidates again with the same inputs returns them unchanged |
| `FilterEngine.FilterSelectedByMembership` | src/components/form/dt-tags/dt-tags.js:82 | the filter depends on the selected values only through membership |
| `FilterEngine.NegatedMarkerNeverExcludes` | src/components/form/dt-tags/dt-tags.js:76-82 | adding a negated marker to the value list never removes a candidate |
| `FilterEngine.FilterIgnoresQueryCase` | src/components/form/dt-tags/dt-tags.js:83-86 | queries that differ only in ASCII letter case give the same candidates |
| `FilterEngine.FilterStepOf` | src/components/form/dt-tags/dt-tags.js:76-101 | local filtering iff `options` is non-empty; a fetch iff there are no options and the list is open, carrying the query and the plain selected values; local candidates exclude selected ids, match the query and keep option order |
| `FilterEngine.LocalStepIdempotent` | src/components/form/dt-tags/dt-tags.js:79-87 | the candidates a local step produces are a fixed point of the filter with the same inputs |
| `Cursor.Next` | src/components/form/dt-tags/dt-tags.js:62-67 | one step down is `index + 1` below the end and never exceeds the candidate count |
| `Cursor.HighlightTimesClamps` | src/components/form/dt-tags/dt-tags.js:62-67 | after k > 0 steps the cursor is `min(count, index + k)` |
| `Cursor.HighlightFromNoneSaturates` | src/components/form/dt-tags/dt-tags.js:62-67 | from -1, k ≤ N steps reach k - 1, N + 1 steps reach N, and further steps stay at N |
| `Cursor.KeyboardChoice` | src/components/form/dt-tags/dt-tags.js:52-60 | nothing is selected iff the cursor is -1 or below; at or past the end the query is selected; otherwise the id of the candidate under the cursor |
| `Cursor.Rows` | src/components/form/dt-tags/dt-tags.js:152-176 | one row per candidate in order, active iff the cursor is above -1 and equals its index; then an `AddNew(query, …)` row exactly when `allowAdd` is set and the query is non-empty, active iff the cursor is above -1 and at or past the end |
| `Cursor.AtMostOneActiveRow` | src/components/form/dt-tags/dt-tags.js:142-169 | the active-class conditions never mark two rows at once |
| `Cursor.ActiveRowIsKeyboardChoice` | src/components/form/dt-tags/dt-tags.js:142-169 | the row marked active holds exactly the value keyboard select would pick |
| `Cursor.KeyboardChoiceIsMarked` | src/components/form/dt-tags/dt-tags.js:52-60 | when the cursor is on a candidate or on a shown "Add" row, some row is marked active and its value is the keyboard choice |
| `Cursor.HiddenAddRowStillSelectsQuery` | src/components/form/dt-tags/dt-tags.js:54-66 | without an "Add" row the cursor can rest one past the end, no row is active there, and keyboard select still picks the raw query |
| `TagRenderer.ResolveLabel` | src/components/form/dt-tags/dt-tags.js:184-190 | a chip's label is the tag itself or the non-empty label of an option whose id is the tag |
| `TagRenderer.ResolveLabelIsFirstMatch` | src/components/form/dt-tags/dt-tags.js:185-189 | the label comes from the first option whose id equals the tag, falling back to the tag |
| `TagRenderer.LinkLabelIdRoundTrip` | src/components/form/dt-tags/dt-tags.js:195 | the link-label id is the field name, `_`, then the tag, and the tag can be read back from it |
| `TagRenderer.LinkLabelIdInjective` | src/components/form/dt-tags/dt-tags.js:195 | within one field, different tags never share a link-label id |
| `TagRenderer.Href` | src/components/form/dt-tags/dt-tags.js:191-201 | the link target is never empty, and is `#` when the host has no link builder |
| `TagRenderer.SelectedChips` | src/components/form/dt-tags/dt-tags.js:180-183 | one chip per plain value, in the order of the value list |
| `TagRenderer.ChipsAreThePlainValues` | src/components/form/dt-tags/dt-tags.js:180-182 | the chip count equals the count of non-negated values; every chip is a plain value and every plain value has a chip |
| `TagRenderer.ChipLabelsFollowFirstMatch` | src/components/form/dt-tags/dt-tags.js:179-190 | each label is the first match in `options` when present, otherwise in `allOptions`, otherwise the raw tag |
| `TagRenderer.EmptyOptionsHideAllOptions` | src/components/form/dt-tags/dt-tags.js:179 | a present but empty `options` makes every chip show its raw tag, whatever `allOptions` holds |
| `Element.DtTags.constructor` | src/components/form/dt-tags/dt-tags.js:6-11 | configuration as given; closed, no candidates, cursor at -1, not loading, nothing requested or selected |
| `Element.DtTags.FilterOptions` | src/components/form/dt-tags/dt-tags.js:75-128 | the state changes as the filter decision says (candidates; or loading, empty list and one new request; or nothing), and local candidates satisfy the no-selected, query-match guarantee |
| `Element.DtTags.WillUpdate` | src/components/form/dt-tags/dt-tags.js:28-39 | runs the filter exactly when `open` changed, the list is open and there are no candidates; otherwise nothing changes |
| `Element.DtTags.OnSuccess` | src/components/form/dt-tags/dt-tags.js:102-118 | loading ends; `allOptions` is the normalised result; candidates are that list minus the values selected when the request was made, in order, with no query filter |
| `Element.DtTags.OnError` | src/components/form/dt-tags/dt-tags.js:119-122 | only the loading flag changes, to false |
| `Element.DtTags.ListHighlightNext` | src/components/form/dt-tags/dt-tags.js:62-67 | the cursor becomes `min(length, cursor + 1)`, so it never passes one beyond the last candidate |
| `Element.DtTags.Select` | src/components/form/dt-tags/dt-tags.js:55-57 | the inherited `_select` is recorded with the value it is given |
| `Element.DtTags.Remove` | src/components/form/dt-tags/dt-tags.js:207 | the inherited `_remove` is recorded with the chip's value |
| `Element.DtTags.KeyboardSelectOption` | src/components/form/dt-tags/dt-tags.js:52-60 | exactly the keyboard choice is passed to `_select`, or nothing when the cursor is -1 |
| `Element.DtTags.ClickAddNew` | src/components/form/dt-tags/dt-tags.js:41-50 | the clicked row's `data-label` is selected when there is a target |
| `Element.DtTags.RenderOptions` | src/components/form/dt-tags/dt-tags.js:152-176 | the rows drawn for the current state; any row marked active carries the value Enter would select |
| `Element.DtTags.RenderSelectedOptions` | src/components/form/dt-tags/dt-tags.js:178-216 | one chip per non-negated value, each with a non-empty link target |

## Left out

- Lit templates, styles, markup attributes (`alt`, `data-value`, `?disabled`) and `customElements.define` are presentation only. Rows and chips are modelled as values.
- `msg('Add')` is a localisation lookup. The "Add" row carries only the query.
- `CustomEvent` construction, bubbling and `dispatchEvent` are not modelled. An emitted event is a recorded `LoadRequest` holding `field`, `postType`, `query` and the captured selected values. Its callbacks are the methods `OnSuccess` and `OnError`, which can be called for any emitted request, in any order. That covers stale responses.
- Element.DtTags.OnError does not model the error value or its `console.warn`, which is a diagnostic side channel.
- `window.SHAREDFUNCTIONS` is a host global. It is an optional `Host` value whose two functions are opaque; the filter description it builds is carried as a string.
- TagRenderer.Host always has both functions. The code checks only that `createCustomFilter` exists and then calls `create_url_for_list_query` unchecked, so a host with only the first function makes rendering throw; that failure is not modelled.
- Element.DtTags.FilterOptions returns `[]` in the fetch branch. `dispatchEvent` runs listeners synchronously, so a listener that calls `onSuccess` at once makes the JavaScript return the loaded list; in the model the callback is always a separate later call.
- `toLocaleLowerCase` is locale-dependent. It is replaced by ASCII lower-casing.
- The base class `DtMultiSelect` is not part of this model. This leaves out `super.willUpdate`, `_clickOption`, the touch handlers, and the effects of `_select` and `_remove` on `value`, `query` and `activeIndex`. `_select` and `_remove` are only recorded. `super._renderOptions` is assumed to draw one row per candidate, in order, through `_renderOption(opt, idx)`.
- Element.DtTags.ClickAddNew does not clear the shadow-DOM input's `value`, which is DOM manipulation.
- Load results of mixed shape, such as a first element that is a string followed by records, or a non-array, are not modelled. A result is either all bare strings or all records.
- The `o === tag` comparison in the label lookup never holds here, because option lists hold records only.
- An absent `value`, `query`, `name` or `label` is modelled as `[]` or `""`. This matches every test of them (`value || []`, `!this.query`, `this.label || this.name`), but not every use of their text. An unset `query` reaches `_select` as `undefined` from keyboard select, where the model selects `""`. An absent `name` is printed as `undefined` in the link-label record (`name_tag` and `fieldLabel: tag`), where the model uses `""`. An emitted request carries `""` where the page could carry `undefined`.
- The constructor's initial working state is assumed to be the base class's defaults: closed, cursor -1, no candidates, not loading.
