/**
 * The flagged content queue: the header and row checkboxes, the reasons line of the review
 * dialog, the filters, and the resets after the status mutations.
 */
module FlaggedContent {
  import opened JsText

  /** A report; a missing description is `None`. */
  datatype Report = Report(reason: string, description: Option<string>)

  /** A flagged item: its `_id` as a string, the separate `id` property (missing on the items
      the endpoint returns is `None`), and its reports. */
  datatype Content = Content(_id: string, id: Option<string>, title: string, reports: seq<Report>)

  // ----- selection -----

  /** The header checkbox shows checked when the selection is as long as the list. */
  predicate HeaderChecked(selected: seq<string>, items: seq<Content>) {
    |selected| == |items|
  }

  /** The header checkbox's handler: every item's `_id`, or nothing. */
  function HeaderToggled(items: seq<Content>, checked: bool): (r: seq<string>)
    ensures checked ==> |r| == |items| && forall k :: 0 <= k < |items| ==> r[k] == items[k]._id
    ensures !checked ==> r == []
  {
    if checked then seq(|items|, k requires 0 <= k < |items| => items[k]._id) else []
  }

  /** A row checkbox's handler: checking appends the row's `_id`, unchecking removes every copy. */
  function RowToggled(selected: seq<string>, c: Content, checked: bool): (r: seq<string>)
    ensures checked ==> |r| == |selected| + 1 && r[..|selected|] == selected && r[|selected|] == c._id
    ensures !checked ==> c._id !in r && |r| <= |selected|
  {
    if checked then selected + [c._id] else Without(selected, c._id)
  }

  /** A row checkbox shows checked when the selection includes the row's `id` property. */
  predicate RowChecked(selected: seq<string>, c: Content) {
    c.id.Some? && Includes(selected, c.id.value)
  }

  /** Checking the header selects every row and shows the header checked; unchecking shows it
      unchecked on a non-empty list. */
  lemma HeaderToggleShown(items: seq<Content>)
    ensures HeaderChecked(HeaderToggled(items, true), items)
    ensures forall c :: c in items ==> c._id in HeaderToggled(items, true)
    ensures |items| > 0 ==> !HeaderChecked(HeaderToggled(items, false), items)
  {
    forall c | c in items
      ensures c._id in HeaderToggled(items, true)
    {
      var k :| 0 <= k < |items| && items[k] == c;
      assert HeaderToggled(items, true)[k] == c._id;
    }
  }

  /** Checking a row selects it once more and unchecking it leaves it unselected, every other
      selected id staying selected. */
  lemma RowToggleMembers(selected: seq<string>, c: Content, x: string)
    ensures Count(RowToggled(selected, c, true), c._id) == Count(selected, c._id) + 1
    ensures c._id !in RowToggled(selected, c, false)
    ensures x != c._id ==> (x in RowToggled(selected, c, false) <==> x in selected)
    ensures x in RowToggled(selected, c, true) <==> x in selected || x == c._id
  {
    CountAppend(selected, [c._id], c._id);
    assert [c._id][1..] == [];
    if x != c._id && x in selected {
      var k :| 0 <= k < |selected| && selected[k] == x;
    }
  }

  /** The row checkbox reflects the selection only through the `id` property: without one it
      never shows checked, whatever is selected; with `id` equal to `_id` it shows checked
      exactly when the row is selected. */
  lemma RowCheckedUsesId(selected: seq<string>, c: Content)
    ensures c.id.None? ==> !RowChecked(selected, c) && !RowChecked(RowToggled(selected, c, true), c)
    ensures c.id == Some(c._id) ==> (RowChecked(selected, c) <==> c._id in selected)
    ensures c.id == Some(c._id) ==> RowChecked(RowToggled(selected, c, true), c)
  {
    if c.id.Some? {
      IncludesIsIn(selected, c.id.value);
      IncludesIsIn(RowToggled(selected, c, true), c.id.value);
    }
  }

  /** The header counts ids, not rows: checking the same row twice in a list of two shows the
      header checked while the other row stays unselected. */
  lemma HeaderCountsDuplicates(a: Content, b: Content)
    requires a._id != b._id
    ensures var selected := RowToggled(RowToggled([], a, true), a, true);
      HeaderChecked(selected, [a, b]) && b._id !in selected
  {
  }

  // ----- the review dialog -----

  /** `report.reason === "other" ? report.description : report.reason` */
  function ReasonText(r: Report): string {
    if r.reason == "other" then (if r.description.Some? then r.description.value else "") else r.reason
  }

  /** The pieces of the reasons line, one per report in order. */
  function ReasonPieces(reports: seq<Report>): (r: seq<string>)
    ensures |r| == |reports| && forall k :: 0 <= k < |reports| ==> r[k] == ReasonText(reports[k])
  {
    seq(|reports|, k requires 0 <= k < |reports| => ReasonText(reports[k]))
  }

  /** The reasons line: the pieces joined with `, `. */
  function ReasonsLine(reports: seq<Report>): string {
    Join(ReasonPieces(reports), ", ")
  }

  /** An `other` report shows its description (nothing when it has none), any other report its
      reason; two reports are separated by `, ` and no report gives an empty line. */
  lemma ReasonsLineShape(r1: Report, r2: Report)
    ensures ReasonsLine([]) == ""
    ensures ReasonsLine([r1]) == ReasonText(r1)
    ensures ReasonsLine([r1, r2]) == ReasonText(r1) + ", " + ReasonText(r2)
    ensures r1.reason != "other" ==> ReasonText(r1) == r1.reason
    ensures r1.reason == "other" && r1.description.Some? ==> ReasonText(r1) == r1.description.value
  {
    assert ReasonPieces([r1, r2]) == [ReasonText(r1), ReasonText(r2)];
    JoinPair(ReasonText(r1), ReasonText(r2), ", ");
  }

  // ----- filters and mutations -----

  datatype Filters = Filters(status: string, contentType: string, minReports: string)

  const DefaultFilters := Filters("PENDING", "ALL", "")

  datatype Status = Approved | Rejected

  /** A single status update: the dialog's buttons send the item's `id` property. */
  datatype StatusUpdate = StatusUpdate(id: Option<string>, status: Status)

  /** The page's state. */
  class FlaggedContentPage {
    var selectedContent: Option<Content>
    var selectedItems: seq<string>
    var filters: Filters

    constructor()
      ensures selectedContent == None && selectedItems == [] && filters == DefaultFilters
    {
      selectedContent := None;
      selectedItems := [];
      filters := DefaultFilters;
    }

    method HeaderCheckbox(items: seq<Content>, checked: bool)
      modifies this
      ensures selectedItems == HeaderToggled(items, checked)
      ensures selectedContent == old(selectedContent) && filters == old(filters)
    {
      if checked {
        selectedItems := seq(|items|, k requires 0 <= k < |items| => items[k]._id);
      } else {
        selectedItems := [];
      }
    }

    method RowCheckbox(c: Content, checked: bool)
      modifies this
      ensures selectedItems == RowToggled(old(selectedItems), c, checked)
      ensures selectedContent == old(selectedContent) && filters == old(filters)
    {
      if checked {
        selectedItems := selectedItems + [c._id];
      } else {
        selectedItems := Without(selectedItems, c._id);
      }
    }

    /** The dialog's `onOpenChange(open)` for row `c`. */
    method DialogOpenChange(c: Content, open: bool)
      modifies this
      ensures selectedContent == if open then Some(c) else None
      ensures selectedItems == old(selectedItems) && filters == old(filters)
    {
      selectedContent := if open then Some(c) else None;
    }

    method StatusFilter(value: string)
      modifies this
      ensures filters == old(filters).(status := value)
      ensures selectedContent == old(selectedContent) && selectedItems == old(selectedItems)
    {
      filters := filters.(status := value);
    }

    method ContentTypeFilter(value: string)
      modifies this
      ensures filters == old(filters).(contentType := value)
      ensures selectedContent == old(selectedContent) && selectedItems == old(selectedItems)
    {
      filters := filters.(contentType := value);
    }

    method MinReportsFilter(value: string)
      modifies this
      ensures filters == old(filters).(minReports := value)
      ensures selectedContent == old(selectedContent) && selectedItems == old(selectedItems)
    {
      filters := filters.(minReports := value);
    }

    /** The bulk buttons send the selected ids as they stand, duplicates included. */
    method BulkRequest(status: Status) returns (ids: seq<string>)
      ensures ids == selectedItems
    {
      ids := selectedItems;
    }

    /** A single update succeeded: the dialog closes and the selection is cleared. */
    method UpdateSucceeded()
      modifies this
      ensures selectedContent == None && selectedItems == [] && filters == old(filters)
    {
      selectedContent := None;
      selectedItems := [];
    }

    /** A bulk update succeeded: the selection is cleared and the dialog left as it is. */
    method BulkUpdateSucceeded()
      modifies this
      ensures selectedItems == [] && selectedContent == old(selectedContent) && filters == old(filters)
    {
      selectedItems := [];
    }
  }

  /** The dialog's approve and reject buttons. */
  function UpdateRequest(c: Content, status: Status): (r: StatusUpdate)
    ensures r.status == status
    ensures r.id.Some? <==> c.id.Some?
  {
    StatusUpdate(c.id, status)
  }
}
