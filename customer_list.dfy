/** The customer list (src/components/pages/customer/CustomerList.jsx): the
    search term and the two dates are staged in the form, and only the
    committed query parameters drive the fetch. */
module CustomerList {
  /** `dateFilter`, the staged dates. */
  datatype DateFilter = DateFilter(fromDate: string, toDate: string)

  /** `queryParams`, the committed parameters of the fetch. */
  datatype CustomerQuery = CustomerQuery(page: int, search: string, fromDate: string, toDate: string)

  const NoDates := DateFilter("", "")
  const FirstPage := CustomerQuery(1, "", "", "")

  /** The `name` of a date input. */
  datatype DateField = FromDate | ToDate

  class CustomerListScreen {
    var searchTerm: string
    var dateFilter: DateFilter
    var query: CustomerQuery

    /** Everything empty, on page 1. */
    predicate Cleared()
      reads this
    {
      searchTerm == "" && dateFilter == NoDates && query == FirstPage
    }

    constructor()
      ensures Cleared()
    {
      searchTerm := "";
      dateFilter := NoDates;
      query := FirstPage;
    }

    /** `handlePageChange`: only the page changes. */
    method PageChange(page: int)
      modifies this
      ensures query == old(query).(page := page)
      ensures searchTerm == old(searchTerm) && dateFilter == old(dateFilter)
    {
      query := query.(page := page);
    }

    /** `handleSearch`: the term is staged and committed at once, back on
        page 1; the committed dates are kept. */
    method Search(term: string)
      modifies this
      ensures searchTerm == term
      ensures query == CustomerQuery(1, term, old(query).fromDate, old(query).toDate)
      ensures dateFilter == old(dateFilter)
    {
      searchTerm := term;
      query := query.(page := 1, search := term);
    }

    /** `handleDateChange`: only the named staged date changes, and nothing
        is committed. */
    method DateChange(field: DateField, value: string)
      modifies this
      ensures field == FromDate ==> dateFilter == DateFilter(value, old(dateFilter).toDate)
      ensures field == ToDate ==> dateFilter == DateFilter(old(dateFilter).fromDate, value)
      ensures query == old(query) && searchTerm == old(searchTerm)
    {
      match field
      case FromDate => dateFilter := dateFilter.(fromDate := value);
      case ToDate => dateFilter := dateFilter.(toDate := value);
    }

    /** `applyFilters`: the staged term and dates are committed, on page 1. */
    method ApplyFilters()
      modifies this
      ensures query == CustomerQuery(1, searchTerm, dateFilter.fromDate, dateFilter.toDate)
      ensures searchTerm == old(searchTerm) && dateFilter == old(dateFilter)
    {
      query := query.(page := 1, search := searchTerm, fromDate := dateFilter.fromDate, toDate := dateFilter.toDate);
    }

    /** `resetFilters`: staged and committed filters emptied, on page 1; a
        second reset changes nothing. */
    method ResetFilters()
      modifies this
      ensures Cleared()
      ensures old(Cleared()) ==> searchTerm == old(searchTerm) && dateFilter == old(dateFilter) && query == old(query)
    {
      dateFilter := NoDates;
      searchTerm := "";
      query := FirstPage;
    }
  }
}
