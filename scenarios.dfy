/**
 * Client scenarios: what a page using the element can rely on, derived from the
 * contracts of `Element.DtTags` alone.
 */
module Scenarios {
  import opened TagData
  import opened FilterEngine
  import opened Cursor
  import opened TagRenderer
  import opened Element

  /** Options `a`, `b`, `apple`, with `b` selected and query `a`: candidates `a` and `apple`. */
  method LocalFilterScenario() {
    var a, b, apple := TagOption("a", ""), TagOption("b", ""), TagOption("apple", "");
    var t := new DtTags(Some([a, b, apple]), ["b"], "tags", "contacts", "Tags", false);
    t.query := "a";
    assert Unnegated(["b"]) == ["b"];
    assert Keep(a, ["b"], "a") by {
      assert OccursAt(Lower("a"), Lower("a"), 0);
    }
    assert Keep(apple, ["b"], "a") by {
      assert OccursAt(Lower("apple"), Lower("a"), 0);
    }
    assert !Keep(b, ["b"], "a");
    var opts := [a, b, apple];
    assert opts[1..] == [b, apple] && opts[1..][1..] == [apple] && opts[1..][1..][1..] == [];
    assert FilterLocal([apple], ["b"], "a") == [apple];
    assert FilterLocal([b, apple], ["b"], "a") == [apple];
    assert FilterLocal(opts, ["b"], "a") == [a, apple];
    var candidates := t.FilterOptions();
    assert candidates == [a, apple];
  }

  /** With `allowAdd`, query `newtag` and no candidates, Enter on the cursor's first
      position selects the typed text. */
  method AddNewScenario() {
    var t := new DtTags(Some([]), [], "tags", "contacts", "Tags", true);
    t.query := "newtag";
    t.ListHighlightNext();
    assert t.activeIndex == 0;
    assert t.RenderOptions() == [AddNew("newtag", true)];
    t.KeyboardSelectOption();
    assert t.selections == ["newtag"];
  }

  /** No options: opening emits exactly one request with the empty query, and its success
      callback fills both lists from the returned names. */
  method LoadScenario() {
    var t := new DtTags(None, [], "tags", "contacts", "Tags", false);
    t.open := true;
    t.WillUpdate(true);
    assert t.requests == [LoadRequest("tags", "contacts", "", [])];
    assert t.loading && t.filteredOptions == [];
    t.OnSuccess(LoadRequest("tags", "contacts", "", []), Strings(["x", "y"]));
    assert Normalise(Strings(["x", "y"])) == [TagOption("x", ""), TagOption("y", "")];
    assert t.allOptions == Some([TagOption("x", ""), TagOption("y", "")]);
    assert t.filteredOptions == [TagOption("x", ""), TagOption("y", "")];
    assert !t.loading;
  }

  /** A value selected after the request was emitted still shows up as a candidate:
      the success callback filters with the values captured at request time. */
  method StaleSelectionScenario() {
    var t := new DtTags(None, [], "tags", "contacts", "Tags", false);
    t.open := true;
    var _ := t.FilterOptions();
    var request := LoadRequest("tags", "contacts", "", []);
    assert t.requests == [request];
    t.value := ["x"];
    t.OnSuccess(request, Strings(["x"]));
    assert t.filteredOptions == [TagOption("x", "")];
    assert t.filteredOptions[0].id in Unnegated(t.value);
  }

  /** A negated marker gets no chip; the plain value gets one, labelled from `allOptions`. */
  method ChipScenario() {
    var t := new DtTags(None, ["-excluded", "kept"], "tags", "contacts", "Tags", false);
    t.allOptions := Some([TagOption("kept", "Kept")]);
    var chips := t.RenderSelectedOptions(None);
    assert Unnegated(["-excluded", "kept"]) == ["kept"];
    assert chips == [Chip("kept", "Kept", "#")];
  }
}
