/**
 * The `dt-tags` element as a state machine over its instance fields. Rendering is
 * reduced to the rows and chips it would draw; the `load` event is a recorded
 * request whose two callbacks are the methods `OnSuccess` and `OnError`; the
 * inherited `_select` and `_remove` record the value they are given.
 */
module Element {
  import opened TagData
  import opened FilterEngine
  import opened Cursor
  import opened TagRenderer

  class DtTags {
    // Set by the host page.
    var options: Option<seq<TagOption>>
    var value: seq<string>
    var name: string
    var postType: string
    var fieldLabel: string
    var allowAdd: bool
    var open: bool

    // Working state of the picker.
    var allOptions: Option<seq<TagOption>>
    var query: string
    var filteredOptions: seq<TagOption>
    var activeIndex: int
    var loading: bool

    // What the element asked of its surroundings: emitted `load` events,
    // and the values passed to the inherited `_select` and `_remove`.
    ghost var requests: seq<LoadRequest>
    ghost var selections: seq<string>
    ghost var removals: seq<string>

    constructor (options: Option<seq<TagOption>>, value: seq<string>, name: string, postType: string,
                 fieldLabel: string, allowAdd: bool)
      ensures this.options == options && this.value == value && this.name == name
      ensures this.postType == postType && this.fieldLabel == fieldLabel && this.allowAdd == allowAdd
      ensures !open && allOptions == None && query == "" && filteredOptions == []
      ensures activeIndex == -1 && !loading
      ensures requests == [] && selections == [] && removals == []
    {
      this.options, this.value, this.name := options, value, name;
      this.postType, this.fieldLabel, this.allowAdd := postType, fieldLabel, allowAdd;
      open, allOptions, query, filteredOptions := false, None, "", [];
      activeIndex, loading := -1, false;
      requests, selections, removals := [], [], [];
    }

    /** What `_filterOptions` would do in the current state. */
    function Step(): FilterStep
      reads this
    {
      FilterStepOf(options, value, query, open, name, postType)
    }

    /** The state change of one `_filterOptions` call, relative to the state before it. */
    twostate predicate FilterApplied()
      reads this
    {
      match old(Step())
      case Local(kept) =>
        filteredOptions == kept && loading == old(loading) && requests == old(requests)
      case Fetch(request) =>
        filteredOptions == [] && loading && requests == old(requests) + [request]
      case Idle =>
        filteredOptions == old(filteredOptions) && loading == old(loading) && requests == old(requests)
    }

    /** `_filterOptions`: filter the local options, or, with none and the list open,
        show the loading state and emit one `load` request. */
    method FilterOptions() returns (candidates: seq<TagOption>)
      modifies this`filteredOptions, this`loading, this`requests
      ensures FilterApplied()
      ensures Step().Local? ==> CandidatesConsistent(filteredOptions, Unnegated(value), query)
      ensures candidates == filteredOptions
    {
      var selectedValues := Unnegated(value);
      if HasOptions(options) {
        filteredOptions := FilterLocal(options.value, selectedValues, query);
      } else if open {
        loading := true;
        filteredOptions := [];
        requests := requests + [LoadRequest(name, postType, query, selectedValues)];
      }
      candidates := filteredOptions;
    }

    /** `willUpdate`: when `open` changed, the list is open and there are no candidates
        yet, recompute them. */
    method WillUpdate(openChanged: bool)
      modifies this`filteredOptions, this`loading, this`requests
      ensures if openChanged && old(open) && old(filteredOptions) == [] then FilterApplied() else unchanged(this)
    {
      if openChanged && open && filteredOptions == [] {
        var _ := FilterOptions();
      }
    }

    /** The `load` request's success callback: normalise, cache in `allOptions`, and drop
        the values that were selected when the request was made. */
    method OnSuccess(request: LoadRequest, result: LoadResult)
      requires request in requests
      modifies this`loading, this`allOptions, this`filteredOptions
      ensures !loading
      ensures allOptions == Some(Normalise(result))
      ensures result.Strings? ==> Ids(allOptions.value) == result.names
      ensures filteredOptions == ExcludeSelected(Normalise(result), request.selected)
      ensures CandidatesConsistent(filteredOptions, request.selected, "")
      ensures IsSubsequence(filteredOptions, allOptions.value)
    {
      loading := false;
      var opts := Normalise(result);
      if result.Strings? {
        NormaliseStringsRoundTrip(result.names);
      }
      allOptions := Some(opts);
      filteredOptions := ExcludeSelected(opts, request.selected);
      FilterIsSubsequence(opts, request.selected, "");
    }

    /** The `load` request's error callback: only the loading state ends. */
    method OnError(request: LoadRequest)
      requires request in requests
      modifies this`loading
      ensures !loading
    {
      loading := false;
    }

    /** `_listHighlightNext`: move the cursor down, at most to one past the last candidate. */
    method ListHighlightNext()
      modifies this`activeIndex
      ensures activeIndex == Next(|filteredOptions|, old(activeIndex))
      ensures activeIndex <= |filteredOptions|
      ensures old(activeIndex) >= -1 ==> activeIndex >= 0
    {
      activeIndex := if |filteredOptions| < activeIndex + 1 then |filteredOptions| else activeIndex + 1;
    }

    /** The inherited `_select`, recorded. */
    method Select(v: string)
      modifies this`selections
      ensures selections == old(selections) + [v]
    {
      selections := selections + [v];
    }

    /** The inherited `_remove`, bound to each chip's remove button, recorded. */
    method Remove(v: string)
      modifies this`removals
      ensures removals == old(removals) + [v]
    {
      removals := removals + [v];
    }

    /** `_keyboardSelectOption`: select the candidate under the cursor, or the typed
        query when the cursor is past the last candidate. */
    method KeyboardSelectOption()
      modifies this`selections
      ensures selections == old(selections) + match KeyboardChoice(activeIndex, filteredOptions, query)
                                               case Some(v) => [v]
                                               case None => []
    {
      if activeIndex > -1 {
        if activeIndex + 1 > |filteredOptions| {
          Select(query);
        } else {
          Select(filteredOptions[activeIndex].id);
        }
      }
    }

    /** `_clickAddNew`: select the clicked "Add" row's `data-label`, when there is a target. */
    method ClickAddNew(target: Option<string>)
      modifies this`selections
      ensures selections == old(selections) + match target
                                               case Some(v) => [v]
                                               case None => []
    {
      if target.Some? {
        Select(target.value);
      }
    }

    /** The rows of the open list; the row marked active is the one Enter selects. */
    function RenderOptions(): (rows: seq<Row>)
      reads this
      ensures |rows| == |filteredOptions| + (if allowAdd && query != "" then 1 else 0)
      ensures forall i :: 0 <= i < |rows| && rows[i].active ==>
                KeyboardChoice(activeIndex, filteredOptions, query) == Some(RowValue(rows[i]))
    {
      var rows := Rows(filteredOptions, activeIndex, allowAdd, query);
      assert forall i :: 0 <= i < |rows| && rows[i].active ==>
               KeyboardChoice(activeIndex, filteredOptions, query) == Some(RowValue(rows[i])) by {
        forall i | 0 <= i < |rows| && rows[i].active
          ensures KeyboardChoice(activeIndex, filteredOptions, query) == Some(RowValue(rows[i]))
        {
          ActiveRowIsKeyboardChoice(filteredOptions, activeIndex, allowAdd, query, i);
        }
      }
      rows
    }

    /** The chips of the selected tags: one per non-negated value. */
    function RenderSelectedOptions(host: Option<Host>): (chips: seq<Chip>)
      reads this
      ensures |chips| == CountPlain(value)
      ensures forall c :: c in chips ==> c.tag in value && !IsNegated(c.tag) && c.href != ""
    {
      var chips := SelectedChips(value, options, allOptions, host, name, fieldLabel, postType);
      ChipsAreThePlainValues(value, options, allOptions, host, name, fieldLabel, postType);
      chips
    }
  }
}
