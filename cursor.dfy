/**
 * The keyboard cursor over the candidate list: `_listHighlightNext`,
 * `_keyboardSelectOption`, and which rendered row is marked active.
 */
module Cursor {
  import opened TagData

  /** One step down, stopping one past the last candidate. */
  function Next(count: nat, index: int): (next: int)
    ensures next <= count
    ensures next == index + 1 || next == count
    ensures index < count ==> next == index + 1
  {
    if count < index + 1 then count else index + 1
  }

  /** The cursor after `k` presses of the down key. */
  function HighlightTimes(count: nat, index: int, k: nat): int
    decreases k
  {
    if k == 0 then index else HighlightTimes(count, Next(count, index), k - 1)
  }

  /** After at least one press the cursor is `min(count, index + k)`. */
  lemma {:induction false} HighlightTimesClamps(count: nat, index: int, k: nat)
    requires k > 0
    ensures HighlightTimes(count, index, k) == if index + k < count then index + k else count
    decreases k
  {
    if k > 1 {
      HighlightTimesClamps(count, Next(count, index), k - 1);
    }
  }

  /** From "nothing active", `count + 1` presses reach the virtual row and further presses stay there. */
  lemma HighlightFromNoneSaturates(count: nat, extra: nat)
    ensures HighlightTimes(count, -1, count + 1) == count
    ensures HighlightTimes(count, -1, count + 1 + extra) == count
    ensures forall k :: 0 < k <= count ==> HighlightTimes(count, -1, k) == k - 1
  {
    HighlightTimesClamps(count, -1, count + 1);
    HighlightTimesClamps(count, -1, count + 1 + extra);
    forall k | 0 < k <= count
      ensures HighlightTimes(count, -1, k) == k - 1
    {
      HighlightTimesClamps(count, -1, k);
    }
  }

  /** The value `_keyboardSelectOption` hands to `_select`, if any. */
  function KeyboardChoice(activeIndex: int, filtered: seq<TagOption>, query: string): (choice: Option<string>)
    ensures choice.None? <==> activeIndex <= -1
    ensures activeIndex >= |filtered| ==> choice == Some(query)
    ensures 0 <= activeIndex < |filtered| ==> choice == Some(filtered[activeIndex].id)
  {
    if activeIndex > -1 then
      if activeIndex + 1 > |filtered| then Some(query) else Some(filtered[activeIndex].id)
    else None
  }

  /** A rendered row of the open list. */
  datatype Row =
    | Candidate(option: TagOption, text: string, active: bool)
    | AddNew(query: string, active: bool)

  /** The value choosing a row selects: the candidate's id, or the typed query. */
  function RowValue(row: Row): string {
    match row
    case Candidate(option, _, _) => option.id
    case AddNew(query, _) => query
  }

  /** A candidate row shows its label, or its id when it has none. */
  function OptionText(opt: TagOption): string {
    if opt.caption != "" then opt.caption else opt.id
  }

  /** The "Add" row is drawn when adding is allowed and a query is typed. */
  predicate AddRowShown(allowAdd: bool, query: string) {
    allowAdd && query != ""
  }

  /** One row per candidate, active when the cursor is on its index, then the "Add" row,
      active when the cursor is at or past the end of the candidates. */
  function Rows(filtered: seq<TagOption>, activeIndex: int, allowAdd: bool, query: string): (rows: seq<Row>)
    ensures |rows| == |filtered| + (if AddRowShown(allowAdd, query) then 1 else 0)
    ensures forall i :: 0 <= i < |filtered| ==> rows[i].Candidate? && rows[i].option == filtered[i]
    ensures forall i :: 0 <= i < |filtered| ==> rows[i].active == (-1 < activeIndex && activeIndex == i)
    ensures AddRowShown(allowAdd, query) ==> rows[|filtered|] == AddNew(query, -1 < activeIndex && |filtered| <= activeIndex)
  {
    var candidates := seq(|filtered|, i requires 0 <= i < |filtered| =>
      Candidate(filtered[i], OptionText(filtered[i]), activeIndex > -1 && activeIndex == i));
    if AddRowShown(allowAdd, query) then
      candidates + [AddNew(query, activeIndex > -1 && activeIndex >= |filtered|)]
    else candidates
  }

  /** Rows are marked so that at most one of them is active. */
  lemma AtMostOneActiveRow(filtered: seq<TagOption>, activeIndex: int, allowAdd: bool, query: string)
    ensures var rows := Rows(filtered, activeIndex, allowAdd, query);
            forall i, j :: 0 <= i < j < |rows| && rows[i].active ==> !rows[j].active
  {
  }

  /** The row marked active is exactly what the Enter key selects. */
  lemma ActiveRowIsKeyboardChoice(filtered: seq<TagOption>, activeIndex: int, allowAdd: bool, query: string, i: nat)
    requires i < |Rows(filtered, activeIndex, allowAdd, query)|
    requires Rows(filtered, activeIndex, allowAdd, query)[i].active
    ensures KeyboardChoice(activeIndex, filtered, query) == Some(RowValue(Rows(filtered, activeIndex, allowAdd, query)[i]))
  {
  }

  /** Whenever the cursor is on a real candidate or on a shown "Add" row, Enter selects
      the value of the one row marked active. */
  lemma KeyboardChoiceIsMarked(filtered: seq<TagOption>, activeIndex: int, allowAdd: bool, query: string)
    requires -1 < activeIndex
    requires activeIndex < |filtered| || AddRowShown(allowAdd, query)
    ensures var rows := Rows(filtered, activeIndex, allowAdd, query);
            exists i :: 0 <= i < |rows| && rows[i].active && KeyboardChoice(activeIndex, filtered, query) == Some(RowValue(rows[i]))
  {
    var rows := Rows(filtered, activeIndex, allowAdd, query);
    var i := if activeIndex < |filtered| then activeIndex else |filtered|;
    assert rows[i].active && KeyboardChoice(activeIndex, filtered, query) == Some(RowValue(rows[i]));
  }

  /** With no "Add" row shown, the cursor can still sit one past the last candidate:
      then no row is marked, yet Enter selects the raw query. */
  lemma HiddenAddRowStillSelectsQuery(filtered: seq<TagOption>, allowAdd: bool, query: string)
    requires !AddRowShown(allowAdd, query)
    ensures Next(|filtered|, |filtered|) == |filtered|
    ensures forall row :: row in Rows(filtered, |filtered|, allowAdd, query) ==> !row.active
    ensures KeyboardChoice(|filtered|, filtered, query) == Some(query)
  {
  }
}
