/** The vendor list (src/components/pages/vendor/VendorList.jsx): a page of
    vendors with a checkbox selection, bulk approve / decline / delete through
    a confirmation dialog driven by a reducer, a CSV export of the selected
    vendors, and staged filters committed to the query on "apply". */
module VendorList {
  import opened Js
  import Lists
  import Text

  // ---------------------------------------------------------------------------
  // The bulk-action reducer

  datatype ActionType = Approve | Decline | Delete

  /** `isOpen`, `actionType`, `remarks`, `isSubmitting` */
  datatype BulkState = BulkState(isOpen: bool, actionType: Option<ActionType>, remarks: string, isSubmitting: bool)

  const InitialState := BulkState(false, None, "", false)

  datatype BulkAction =
    | OpenModal(payload: ActionType)
    | CloseModal
    | SetRemarks(text: string)
    | StartSubmit
    | SubmitComplete
    | Unrecognised

  /** `bulkActionReducer` */
  function Reduce(state: BulkState, action: BulkAction): (next: BulkState)
  {
    match action
    case OpenModal(t) => state.(isOpen := true, actionType := Some(t), remarks := "")
    case CloseModal => state.(isOpen := false, actionType := None, remarks := "", isSubmitting := false)
    case SetRemarks(text) => state.(remarks := text)
    case StartSubmit => state.(isSubmitting := true)
    case SubmitComplete => InitialState
    case Unrecognised => state
  }

  /** Closing the dialog and completing a submit both return to the initial
      state, whatever the state was. */
  lemma CloseAndCompleteReset(state: BulkState)
    ensures Reduce(state, CloseModal) == InitialState
    ensures Reduce(state, SubmitComplete) == InitialState
  {
  }

  /** Opening sets the dialog open with the given action and empty remarks,
      and keeps `isSubmitting`. */
  lemma OpenModalFields(state: BulkState, t: ActionType)
    ensures var next := Reduce(state, OpenModal(t));
      next.isOpen && next.actionType == Some(t) && next.remarks == "" && next.isSubmitting == state.isSubmitting
  {
  }

  /** The remaining actions each touch one field, or none. */
  lemma SingleFieldActions(state: BulkState, text: string)
    ensures Reduce(state, SetRemarks(text)) == BulkState(state.isOpen, state.actionType, text, state.isSubmitting)
    ensures Reduce(state, StartSubmit) == BulkState(state.isOpen, state.actionType, state.remarks, true)
    ensures Reduce(state, Unrecognised) == state
  {
  }

  /** A decline needs a reason: `actionType === 'DECLINE' && !remarks.trim()`. */
  predicate DeclineWithoutReason(state: BulkState)
  {
    state.actionType == Some(Decline) && Trim(state.remarks) == ""
  }

  /** The confirm button's `disabled`. */
  predicate ConfirmDisabled(state: BulkState)
  {
    state.isSubmitting || DeclineWithoutReason(state)
  }

  /** The button is disabled whenever the handler would refuse, and a
      decline's reason counts only when it holds a non-space character. */
  lemma RefusalDisablesConfirm(state: BulkState)
    ensures DeclineWithoutReason(state) ==> ConfirmDisabled(state)
    ensures state.actionType == Some(Decline) ==>
      (DeclineWithoutReason(state) <==> forall i :: 0 <= i < |state.remarks| ==> IsSpace(state.remarks[i]))
  {
    TrimEmpty(state.remarks);
  }

  /** The request of `handleSubmitAction`. */
  datatype BulkRequest =
    | BulkDelete(vendorIds: seq<JsVal>)
    | BulkApproval(vendorIds: seq<JsVal>, approvalStatus: int, declineRemarks: Option<string>)

  /** Delete for a delete; otherwise status 1 for an approve and 2 for
      anything else, with the remarks only for a decline. */
  function Request(state: BulkState, selected: seq<JsVal>): (req: BulkRequest)
    ensures req.vendorIds == selected
    ensures req.BulkDelete? <==> state.actionType == Some(Delete)
    ensures req.BulkApproval? ==> (req.approvalStatus == 1 <==> state.actionType == Some(Approve))
    ensures req.BulkApproval? ==> req.approvalStatus in {1, 2}
    ensures req.BulkApproval? ==>
      (req.declineRemarks.Some? <==> state.actionType == Some(Decline))
      && (req.declineRemarks.Some? ==> req.declineRemarks.value == state.remarks)
  {
    if state.actionType == Some(Delete) then BulkDelete(selected)
    else BulkApproval(selected, if state.actionType == Some(Approve) then 1 else 2,
                      if state.actionType == Some(Decline) then Some(state.remarks) else None)
  }

  // ---------------------------------------------------------------------------
  // The CSV export

  /** The fields of a vendor row that the export reads. */
  datatype VendorRow = VendorRow(id: JsVal, shopName: JsVal, vendorType: JsVal, mobileNo: JsVal,
                                 email: JsVal, approvalStatus: JsVal, isBanned: JsVal)

  const CsvHeaders: seq<string> := ["ID", "Shop Name", "Type", "Mobile", "Email", "Status", "Is Banned"]

  /** How `Array.prototype.join` writes an element: `undefined` and `null`
      as nothing, anything else as `String(x)`. */
  function Cell(v: JsVal): string
  {
    if v.Undefined? || v.Null? then "" else ToStr(v)
  }

  /** `approval_status === "1"` → Approved, `=== "2"` → Rejected, else Pending. */
  function StatusText(v: JsVal): (text: string)
    ensures v == Str("1") ==> text == "Approved"
    ensures v == Str("2") ==> text == "Rejected"
    ensures v != Str("1") && v != Str("2") ==> text == "Pending"
  {
    if v == Str("1") then "Approved" else if v == Str("2") then "Rejected" else "Pending"
  }

  /** The seven cells of a vendor's line: the shop name is wrapped in double
      quotes (embedded quotes are not doubled), the type is "Shop" only for
      the number 1, and the ban flag is "Yes" only for the string "1". */
  function RowCells(v: VendorRow): (cells: seq<string>)
    ensures |cells| == |CsvHeaders| == 7
    ensures cells[1] == "\"" + ToStr(Or(v.shopName, Str(""))) + "\""
    ensures cells[2] == (if v.vendorType == Num(1) then "Shop" else "Designer")
    ensures cells[0] == Cell(v.id)
    ensures cells[3] == Cell(Or(v.mobileNo, Str(""))) && cells[4] == Cell(Or(v.email, Str("")))
    ensures cells[5] == StatusText(v.approvalStatus)
    ensures cells[6] == (if v.isBanned == Str("1") then "Yes" else "No")
  {
    [Cell(v.id),
     "\"" + ToStr(Or(v.shopName, Str(""))) + "\"",
     if v.vendorType == Num(1) then "Shop" else "Designer",
     Cell(Or(v.mobileNo, Str(""))),
     Cell(Or(v.email, Str(""))),
     StatusText(v.approvalStatus),
     if v.isBanned == Str("1") then "Yes" else "No"]
  }

  /** The selected vendors of the page, in page order
      (`vendors.filter(v => checkCheckBox.includes(v.id))`). */
  function SelectedVendors(vendors: seq<VendorRow>, selected: seq<JsVal>): (r: seq<VendorRow>)
    ensures Lists.Subsequence(r, vendors)
    ensures forall i :: 0 <= i < |r| ==> r[i] in vendors && r[i].id in selected
    ensures forall i :: 0 <= i < |vendors| && vendors[i].id in selected ==> vendors[i] in r
  {
    Lists.Filter(vendors, (v: VendorRow) => v.id in selected)
  }

  /** A selected row is exported as often as it appears on the page, and
      no other row is exported. */
  lemma SelectedVendorsCounts(vendors: seq<VendorRow>, selected: seq<JsVal>)
    ensures forall v :: multiset(SelectedVendors(vendors, selected))[v] == (if v.id in selected then multiset(vendors)[v] else 0)
  {
    Lists.FilterCounts(vendors, (v: VendorRow) => v.id in selected);
  }

  function RowLines(rows: seq<VendorRow>): (lines: seq<string>)
    ensures |lines| == |rows|
    ensures forall i :: 0 <= i < |rows| ==> lines[i] == Text.Join(RowCells(rows[i]), ",")
  {
    seq(|rows|, i requires 0 <= i < |rows| => Text.Join(RowCells(rows[i]), ","))
  }

  /** The CSV text: the header line, then one line per selected vendor. */
  function Csv(vendors: seq<VendorRow>, selected: seq<JsVal>): string
  {
    Text.Join([Text.Join(CsvHeaders, ",")] + RowLines(SelectedVendors(vendors, selected)), "\n")
  }

  /** No cell of the vendor's line holds a line break. */
  predicate SingleLine(v: VendorRow)
  {
    forall i :: 0 <= i < 7 ==> '\n' !in RowCells(v)[i]
  }

  /** No cell of the vendor's line holds a comma. */
  predicate NoCommas(v: VendorRow)
  {
    forall i :: 0 <= i < 7 ==> ',' !in RowCells(v)[i]
  }

  /** When no value holds a line break, the export has exactly one header
      line and one line per selected vendor of the page, in page order. */
  lemma CsvLines(vendors: seq<VendorRow>, selected: seq<JsVal>)
    requires forall i :: 0 <= i < |vendors| ==> SingleLine(vendors[i])
    ensures var lines := Text.Split(Csv(vendors, selected), '\n');
      var rows := SelectedVendors(vendors, selected);
      |lines| == 1 + |rows|
      && lines[0] == Text.Join(CsvHeaders, ",")
      && forall i :: 0 <= i < |rows| ==> lines[i + 1] == Text.Join(RowCells(rows[i]), ",")
  {
    var rows := SelectedVendors(vendors, selected);
    SelectedSingleLine(vendors, selected);
    CsvOfRows(rows);
    assert forall i :: 0 <= i < |rows| ==> ([Text.Join(CsvHeaders, ",")] + RowLines(rows))[i + 1] == RowLines(rows)[i];
  }

  /** The selected rows of a page without line breaks have none either. */
  lemma SelectedSingleLine(vendors: seq<VendorRow>, selected: seq<JsVal>)
    requires forall i :: 0 <= i < |vendors| ==> SingleLine(vendors[i])
    ensures forall i :: 0 <= i < |SelectedVendors(vendors, selected)| ==> SingleLine(SelectedVendors(vendors, selected)[i])
  {
    var rows := SelectedVendors(vendors, selected);
    forall i | 0 <= i < |rows| ensures SingleLine(rows[i]) {
      assert rows[i] in vendors;
    }
  }

  /** Rows without line breaks split back into the header and their lines. */
  lemma CsvOfRows(rows: seq<VendorRow>)
    requires forall i :: 0 <= i < |rows| ==> SingleLine(rows[i])
    ensures var parts := [Text.Join(CsvHeaders, ",")] + RowLines(rows);
      Text.Split(Text.Join(parts, "\n"), '\n') == parts
  {
    var parts := [Text.Join(CsvHeaders, ",")] + RowLines(rows);
    Text.JoinAvoids(CsvHeaders, ",", '\n');
    LinesWithoutBreaks(rows);
    assert forall i :: 0 <= i < |parts| ==> '\n' !in parts[i];
    Text.SplitJoin(parts, '\n');
  }

  lemma LinesWithoutBreaks(rows: seq<VendorRow>)
    requires forall i :: 0 <= i < |rows| ==> SingleLine(rows[i])
    ensures forall i :: 0 <= i < |rows| ==> '\n' !in RowLines(rows)[i]
  {
    forall i | 0 <= i < |rows| ensures '\n' !in RowLines(rows)[i] {
      Text.JoinAvoids(RowCells(rows[i]), ",", '\n');
    }
  }

  /** When no value holds a comma, each line splits back into its seven
      cells; a comma inside a shop name would break this, since the quoting
      is not read back by a plain split (and a double quote in a shop name is
      not escaped as section 2 of RFC 4180 asks). */
  lemma RowRoundTrip(v: VendorRow)
    requires NoCommas(v)
    ensures Text.Split(Text.Join(RowCells(v), ","), ',') == RowCells(v)
  {
    Text.SplitJoin(RowCells(v), ',');
  }

  // ---------------------------------------------------------------------------
  // Filters

  datatype VendorFilters = VendorFilters(fromDate: string, toDate: string, vendorType: string,
                                         approvalStatus: string, isBanned: string)

  const NoFilters := VendorFilters("", "", "", "", "")

  datatype FilterField = FromDate | ToDate | VendorType | ApprovalStatus | IsBanned

  /** `{ ...prev, [name]: value }` */
  function SetFilter(f: VendorFilters, field: FilterField, value: string): (r: VendorFilters)
  {
    match field
    case FromDate => f.(fromDate := value)
    case ToDate => f.(toDate := value)
    case VendorType => f.(vendorType := value)
    case ApprovalStatus => f.(approvalStatus := value)
    case IsBanned => f.(isBanned := value)
  }

  /** The query the list is fetched with. */
  datatype VendorQuery = VendorQuery(page: int, search: string, filters: VendorFilters)

  // ---------------------------------------------------------------------------
  // The screen

  datatype EditOutcome = NeedExactlyOne | OpenDetails(id: JsVal)

  class VendorListScreen {
    /** The current page of vendors. */
    const vendors: seq<VendorRow>

    var selected: seq<JsVal>
    var bulk: BulkState
    var searchTerm: string
    var filters: VendorFilters
    var query: VendorQuery

    constructor(vendors: seq<VendorRow>)
      ensures this.vendors == vendors && selected == [] && bulk == InitialState
      ensures searchTerm == "" && filters == NoFilters && query == VendorQuery(1, "", NoFilters)
    {
      this.vendors := vendors;
      selected := [];
      bulk := InitialState;
      searchTerm := "";
      filters := NoFilters;
      query := VendorQuery(1, "", NoFilters);
    }

    /** A checkbox checked: the id is appended. */
    method Check(id: JsVal)
      modifies this
      ensures selected == old(selected) + [id]
      ensures bulk == old(bulk) && query == old(query) && filters == old(filters) && searchTerm == old(searchTerm)
    {
      selected := selected + [id];
    }

    /** A checkbox unchecked: every occurrence of the id goes. */
    method Uncheck(id: JsVal)
      modifies this
      ensures selected == Lists.RemoveAll(old(selected), id)
      ensures id !in selected
      ensures forall i :: 0 <= i < |old(selected)| && old(selected)[i] != id ==> old(selected)[i] in selected
      ensures bulk == old(bulk) && query == old(query) && filters == old(filters) && searchTerm == old(searchTerm)
    {
      selected := Lists.RemoveAll(selected, id);
    }

    /** `handleExport`: nothing with an empty selection, else the CSV. */
    function Export(): (csv: Option<string>)
      reads this
      ensures csv.None? <==> |selected| == 0
      ensures csv.Some? ==> csv.value == Csv(vendors, selected)
    {
      if |selected| == 0 then None else Some(Csv(vendors, selected))
    }

    /** `handleEditStart`: exactly one selected vendor opens its details. */
    function EditStart(): (out: EditOutcome)
      reads this
      ensures out.OpenDetails? <==> |selected| == 1
      ensures out.OpenDetails? ==> out.id == selected[0]
    {
      if |selected| != 1 then NeedExactlyOne else OpenDetails(selected[0])
    }

    /** `initiateAction`: with an empty selection only a warning; otherwise
        the dialog opens for the action. */
    method InitiateAction(t: ActionType) returns (warned: bool)
      modifies this
      ensures warned <==> |selected| == 0
      ensures warned ==> bulk == old(bulk)
      ensures !warned ==> bulk == Reduce(old(bulk), OpenModal(t))
      ensures selected == old(selected) && query == old(query) && filters == old(filters) && searchTerm == old(searchTerm)
    {
      if |selected| == 0 {
        return true;
      }
      bulk := Reduce(bulk, OpenModal(t));
      return false;
    }

    /** The remarks box of the dialog. */
    method TypeRemarks(text: string)
      modifies this
      ensures bulk == Reduce(old(bulk), SetRemarks(text))
      ensures selected == old(selected) && query == old(query) && filters == old(filters) && searchTerm == old(searchTerm)
    {
      bulk := Reduce(bulk, SetRemarks(text));
    }

    /** The dialog's close buttons dispatch `CLOSE_MODAL`: the dialog returns
        to its initial state. */
    method Close()
      modifies this
      ensures bulk == Reduce(old(bulk), CloseModal) && bulk == InitialState
      ensures selected == old(selected) && query == old(query) && filters == old(filters) && searchTerm == old(searchTerm)
    {
      bulk := Reduce(bulk, CloseModal);
    }

    /** `handleSubmitAction` up to the request: a decline without a reason is
        refused before anything changes; otherwise the dialog starts
        submitting and the request goes out. */
    method SubmitAction() returns (req: Option<BulkRequest>)
      modifies this
      ensures req.None? <==> DeclineWithoutReason(old(bulk))
      ensures req.None? ==> bulk == old(bulk)
      ensures req.Some? ==> req.value == Request(old(bulk), selected) && bulk == Reduce(old(bulk), StartSubmit)
      ensures selected == old(selected) && query == old(query) && filters == old(filters) && searchTerm == old(searchTerm)
    {
      if DeclineWithoutReason(bulk) {
        return None;
      }
      var r := Request(bulk, selected);
      bulk := Reduce(bulk, StartSubmit);
      return Some(r);
    }

    /** The reply: a 200 or 201 clears the selection and resets the dialog;
        a failed call closes the dialog so the action can be retried; any
        other status changes nothing. `status` is `None` when the call threw. */
    method SubmitSettled(status: Option<int>)
      modifies this
      ensures status == Some(200) || status == Some(201) ==> selected == [] && bulk == InitialState
      ensures status.None? ==> selected == old(selected) && bulk == Reduce(old(bulk), CloseModal)
      ensures status.Some? && status.value != 200 && status.value != 201 ==>
        selected == old(selected) && bulk == old(bulk)
      ensures query == old(query) && filters == old(filters) && searchTerm == old(searchTerm)
    {
      if status.None? {
        bulk := Reduce(bulk, CloseModal);
      } else if status.value == 200 || status.value == 201 {
        selected := [];
        bulk := Reduce(bulk, SubmitComplete);
      }
    }

    /** `handlePageChange` */
    method PageChange(page: int)
      modifies this
      ensures query == old(query).(page := page)
      ensures filters == old(filters) && searchTerm == old(searchTerm) && selected == old(selected) && bulk == old(bulk)
    {
      query := query.(page := page);
    }

    /** `handleSearch`: the term is committed at once, on page 1; the
        committed filters stay. */
    method Search(term: string)
      modifies this
      ensures searchTerm == term && query == VendorQuery(1, term, old(query).filters)
      ensures filters == old(filters) && selected == old(selected) && bulk == old(bulk)
    {
      searchTerm := term;
      query := query.(page := 1, search := term);
    }

    /** `handleFilterChange`: only the staged filter changes. */
    method FilterChange(field: FilterField, value: string)
      modifies this
      ensures filters == SetFilter(old(filters), field, value)
      ensures query == old(query) && searchTerm == old(searchTerm) && selected == old(selected) && bulk == old(bulk)
    {
      filters := SetFilter(filters, field, value);
    }

    /** `applyFilters`: the staged filters and the search term, on page 1. */
    method ApplyFilters()
      modifies this
      ensures query == VendorQuery(1, searchTerm, filters)
      ensures filters == old(filters) && searchTerm == old(searchTerm) && selected == old(selected) && bulk == old(bulk)
    {
      query := VendorQuery(1, searchTerm, filters);
    }

    /** `resetFilters`: staged and committed filters and the search emptied. */
    method ResetFilters()
      modifies this
      ensures filters == NoFilters && searchTerm == "" && query == VendorQuery(1, "", NoFilters)
      ensures selected == old(selected) && bulk == old(bulk)
    {
      filters := NoFilters;
      searchTerm := "";
      query := VendorQuery(1, "", NoFilters);
    }
  }

  /** A staged filter change reaches the query only through apply. */
  lemma SetFilterChangesOneField(f: VendorFilters, field: FilterField, value: string)
    ensures var g := SetFilter(f, field, value);
      (g.fromDate == if field == FromDate then value else f.fromDate)
      && (g.toDate == if field == ToDate then value else f.toDate)
      && (g.vendorType == if field == VendorType then value else f.vendorType)
      && (g.approvalStatus == if field == ApprovalStatus then value else f.approvalStatus)
      && (g.isBanned == if field == IsBanned then value else f.isBanned)
  {
  }
}
