/** The pagination record the list screens derive from a fetched page,
    each field falling back to a default with `||` when the server's is
    missing or falsy. */
module Pagination {
  import opened Js

  /** `current_page`, `last_page`, `total`, `per_page`, `from`, `to`, both as
      the server sends them and as the screen derives them. */
  datatype PageMeta = PageMeta(currentPage: JsVal, lastPage: JsVal, total: JsVal,
                               perPage: JsVal, from: JsVal, to: JsVal)

  /** What `data?.data?.x` reads when nothing was fetched. */
  const Unfetched := PageMeta(Undefined, Undefined, Undefined, Undefined, Undefined, Undefined)

  /** One derived field: the value the server sent when it is truthy, else
      the number `d`. */
  predicate Defaulted(sent: JsVal, shown: JsVal, d: int)
  {
    (Truthy(sent) ==> shown == sent) && (!Truthy(sent) ==> shown == Num(d))
  }

  /** The category screen: `x || default` with defaults 1, 1, 0, 10, 0, 0. */
  function CategoryPagination(m: PageMeta): (p: PageMeta)
    ensures Truthy(p.currentPage) && Truthy(p.lastPage) && Truthy(p.perPage)
    ensures Defaulted(m.currentPage, p.currentPage, 1) && Defaulted(m.lastPage, p.lastPage, 1)
    ensures Defaulted(m.total, p.total, 0) && Defaulted(m.perPage, p.perPage, 10)
    ensures Defaulted(m.from, p.from, 0) && Defaulted(m.to, p.to, 0)
  {
    PageMeta(Or(m.currentPage, Num(1)), Or(m.lastPage, Num(1)), Or(m.total, Num(0)),
             Or(m.perPage, Num(10)), Or(m.from, Num(0)), Or(m.to, Num(0)))
  }

  /** Before the first fetch the category screen shows page 1 of 1, 10 per
      page, and an empty range. */
  lemma CategoryDefaults()
    ensures CategoryPagination(Unfetched) == PageMeta(Num(1), Num(1), Num(0), Num(10), Num(0), Num(0))
  {
  }

  /** A field the server did send (and that is not falsy) is shown as sent. */
  lemma CategoryKeepsServerValues(m: PageMeta)
    requires Truthy(m.currentPage) && Truthy(m.lastPage) && Truthy(m.total)
    requires Truthy(m.perPage) && Truthy(m.from) && Truthy(m.to)
    ensures CategoryPagination(m) == m
  {
  }

  /** The customer and vendor lists: the same defaults without `per_page`,
      which the derived object does not carry (reading it gives `undefined`). */
  function ListPagination(m: PageMeta): (p: PageMeta)
    ensures Truthy(p.currentPage) && Truthy(p.lastPage)
    ensures p.perPage == Undefined
    ensures Defaulted(m.currentPage, p.currentPage, 1) && Defaulted(m.lastPage, p.lastPage, 1)
    ensures Defaulted(m.total, p.total, 0) && Defaulted(m.from, p.from, 0) && Defaulted(m.to, p.to, 0)
    ensures m == Unfetched ==> p == PageMeta(Num(1), Num(1), Num(0), Undefined, Num(0), Num(0))
  {
    PageMeta(Or(m.currentPage, Num(1)), Or(m.lastPage, Num(1)), Or(m.total, Num(0)),
             Undefined, Or(m.from, Num(0)), Or(m.to, Num(0)))
  }

  /** The measurement screen: the server's pagination (defaulted as on the
      category screen) when it reports a `current_page`; otherwise the whole
      fetched list as one page, `count` being its length. */
  function MeasurementPagination(m: PageMeta, count: nat): (p: PageMeta)
    ensures Truthy(m.currentPage) ==> p == CategoryPagination(m)
    ensures !Truthy(m.currentPage) ==>
      p.currentPage == Num(1) && p.lastPage == Num(1) && p.from == Num(1)
      && p.total == Num(count) && p.to == Num(count)
  {
    if Truthy(m.currentPage) then CategoryPagination(m)
    else
      PageMeta(Num(1), Num(1), Num(count), Or(Num(count), Num(10)), Num(1), Num(count))
  }

  /** Without server pagination the one page holds every row: `per_page` is
      the list length, or 10 for an empty list, and never below the total. */
  lemma MeasurementFallbackOnePage(m: PageMeta, count: nat)
    requires !Truthy(m.currentPage)
    ensures var p := MeasurementPagination(m, count);
      p.perPage.Num? && p.perPage.n >= count && p.perPage.n > 0
      && (count > 0 ==> p.perPage == Num(count))
      && (count == 0 ==> p.perPage == Num(10))
  {
  }
}
