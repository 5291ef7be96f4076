/** The product feed (src/components/pages/Product/ProductFeed.jsx): a page
    of products fetched with a query string built from the page number and
    the first value of each active filter, with previous/next buttons. */
module ProductFeed {
  import opened Js
  import Text

  /** `activeFilters`: the values chosen in the filter sidebar. */
  datatype Filters = Filters(categoryId: seq<JsVal>, vendorId: seq<JsVal>, subcategoryId: seq<JsVal>)

  const NoFilters := Filters([], [], [])

  /** One `key=value` pair for a filter: its first value only, and nothing
      for an empty filter. */
  function Param(key: string, values: seq<JsVal>): (r: seq<string>)
    ensures |values| == 0 ==> r == []
    ensures |values| > 0 ==> r == [key + "=" + ToStr(values[0])]
  {
    if |values| > 0 then [key + "=" + ToStr(values[0])] else []
  }

  /** The `&`-separated pieces of the query: the page and the page size,
      then category, sub-category (sent as `sub_category_id`) and vendor, in
      that order, each only when chosen. */
  function QueryPairs(page: int, f: Filters): (r: seq<string>)
    ensures 2 <= |r| <= 5
    ensures r[0] == "?page=" + IntToString(page) && r[1] == "per_page=20"
  {
    ["?page=" + IntToString(page), "per_page=20"]
      + Param("category_id", f.categoryId) + Param("sub_category_id", f.subcategoryId)
      + Param("vendor_id", f.vendorId)
  }

  /** No filter gives the bare page query. */
  lemma NoFilterQuery(page: int)
    ensures Text.Join(QueryPairs(page, NoFilters), "&") == "?page=" + IntToString(page) + "&per_page=20"
  {
    assert QueryPairs(page, NoFilters) == ["?page=" + IntToString(page), "per_page=20"];
  }

  /** Every query starts with the page and the page size. */
  lemma QueryPrefix(page: int, f: Filters)
    ensures var q := Text.Join(QueryPairs(page, f), "&");
      var head := "?page=" + IntToString(page) + "&per_page=20";
      |head| <= |q| && q[..|head|] == head
  {
    var pairs := QueryPairs(page, f);
    var first := pairs[..2];
    assert Text.Join(first, "&") == "?page=" + IntToString(page) + "&per_page=20" by {
      assert first[1..] == ["per_page=20"];
    }
    if |pairs| > 2 {
      assert pairs == first + pairs[2..];
      Text.JoinAppend(first, pairs[2..], "&");
    } else {
      assert pairs == first;
    }
  }

  /** The page number never holds an `&`. */
  lemma NumberHasNoAmpersand(page: int)
    ensures '&' !in IntToString(page)
  {
    if page < 0 {
      assert IntToString(page) == "-" + NatToString(-page);
    }
  }

  /** When no chosen filter value holds an `&`, splitting the query at `&`
      gives back exactly its pieces, so each filter reaches the server under
      its own key. */
  lemma QuerySplits(page: int, f: Filters)
    requires |f.categoryId| > 0 ==> '&' !in ToStr(f.categoryId[0])
    requires |f.subcategoryId| > 0 ==> '&' !in ToStr(f.subcategoryId[0])
    requires |f.vendorId| > 0 ==> '&' !in ToStr(f.vendorId[0])
    ensures Text.Split(Text.Join(QueryPairs(page, f), "&"), '&') == QueryPairs(page, f)
  {
    NumberHasNoAmpersand(page);
    Text.SplitJoin(QueryPairs(page, f), '&');
  }

  /** What one `query += `&key=${values[0]}`` step appends: the lead and
      the first value when the filter is chosen, nothing otherwise. */
  function Piece(lead: string, values: seq<JsVal>): string
  {
    if |values| > 0 then lead + ToStr(values[0]) else ""
  }

  /** One `+=` step of the builder appends one piece to the joined query. */
  lemma AppendPiece(query: string, pairs: seq<string>, lead: string, key: string, values: seq<JsVal>)
    requires |pairs| > 0 && query == Text.Join(pairs, "&")
    requires lead == "&" + key + "="
    ensures query + Piece(lead, values) == Text.Join(pairs + Param(key, values), "&")
  {
    if |values| > 0 {
      var v := ToStr(values[0]);
      var piece := key + "=" + v;
      assert Param(key, values) == [piece];
      calc {
        Text.Join(pairs + [piece], "&");
        { Text.JoinAppend(pairs, [piece], "&"); }
        query + "&" + Text.Join([piece], "&");
        query + "&" + piece;
        { Assoc(query, "&", piece); }
        query + ("&" + ((key + "=") + v));
        { Assoc("&", key + "=", v); }
        query + (("&" + (key + "=")) + v);
        { Assoc("&", key, "="); }
        query + ((("&" + key) + "=") + v);
      }
    } else {
      assert pairs + Param(key, values) == pairs;
    }
  }

  lemma Assoc(a: string, b: string, c: string)
    ensures (a + b) + c == a + (b + c)
  {
  }

  /** The leads of the three `+=` steps are `&`, the key and `=`. */
  lemma LeadsSpelled()
    ensures "&category_id=" == "&" + "category_id" + "="
    ensures "&sub_category_id=" == "&" + "sub_category_id" + "="
    ensures "&vendor_id=" == "&" + "vendor_id" + "="
  {
  }

  /** The query before any filter joins the page and the page size. */
  lemma BaseQuery(head: string)
    ensures Text.Join([head, "per_page=20"], "&") == head + "&per_page=20"
  {
    assert [head, "per_page=20"][1..] == ["per_page=20"];
    Assoc(head, "&", "per_page=20");
  }

  /** The three `+=` steps after the page and page size give the joined
      query pieces. */
  lemma AppendedQuery(page: int, f: Filters)
    ensures "?page=" + IntToString(page) + "&per_page=20"
      + Piece("&category_id=", f.categoryId) + Piece("&sub_category_id=", f.subcategoryId)
      + Piece("&vendor_id=", f.vendorId)
      == Text.Join(QueryPairs(page, f), "&")
  {
    var head := "?page=" + IntToString(page);
    var p0 := [head, "per_page=20"];
    var p1 := p0 + Param("category_id", f.categoryId);
    var p2 := p1 + Param("sub_category_id", f.subcategoryId);
    var p3 := p2 + Param("vendor_id", f.vendorId);
    var c := Piece("&category_id=", f.categoryId);
    var sc := Piece("&sub_category_id=", f.subcategoryId);
    var vd := Piece("&vendor_id=", f.vendorId);
    LeadsSpelled();
    calc {
      head + "&per_page=20" + c + sc + vd;
      { BaseQuery(head); }
      Text.Join(p0, "&") + c + sc + vd;
      { AppendPiece(Text.Join(p0, "&"), p0, "&category_id=", "category_id", f.categoryId); }
      Text.Join(p1, "&") + sc + vd;
      { AppendPiece(Text.Join(p1, "&"), p1, "&sub_category_id=", "sub_category_id", f.subcategoryId); }
      Text.Join(p2, "&") + vd;
      { AppendPiece(Text.Join(p2, "&"), p2, "&vendor_id=", "vendor_id", f.vendorId); }
      Text.Join(p3, "&");
      { assert p3 == QueryPairs(page, f); }
      Text.Join(QueryPairs(page, f), "&");
    }
  }

  /** A product card's price fields. */
  datatype Card = Card(discountPrice: JsVal, actualPrice: JsVal)

  /** The price shown: `discount_price || actual_price`. */
  function ShownPrice(c: Card): (p: JsVal)
    ensures Truthy(c.discountPrice) ==> p == c.discountPrice
    ensures !Truthy(c.discountPrice) ==> p == c.actualPrice
  {
    Or(c.discountPrice, c.actualPrice)
  }

  /** The struck-through original price, shown only with a discount. */
  function StruckPrice(c: Card): (p: Option<JsVal>)
    ensures p.Some? <==> Truthy(c.discountPrice)
    ensures p.Some? ==> p.value == c.actualPrice
  {
    if Truthy(c.discountPrice) then Some(c.actualPrice) else None
  }

  /** The two price fields of a card are never both the actual price when
      discounted: a discounted card shows the discount and strikes the
      original, an undiscounted one shows the original alone. */
  lemma PriceDisplay(c: Card)
    ensures StruckPrice(c).Some? ==> ShownPrice(c) == c.discountPrice && StruckPrice(c).value == c.actualPrice
    ensures StruckPrice(c).None? ==> ShownPrice(c) == c.actualPrice
  {
  }

  class Feed {
    var page: int
    var totalPages: int
    var activeFilters: Filters
    var cards: seq<Card>

    /** The page lies between the first and the last. */
    predicate InRange()
      reads this
    {
      1 <= page <= totalPages
    }

    constructor()
      ensures page == 1 && totalPages == 1 && activeFilters == NoFilters && cards == []
      ensures InRange()
    {
      page := 1;
      totalPages := 1;
      activeFilters := NoFilters;
      cards := [];
    }

    /** The query of `fetchProducts`, accumulated with `+=`. */
    method BuildQuery() returns (query: string)
      ensures query == Text.Join(QueryPairs(page, activeFilters), "&")
    {
      var f := activeFilters;
      query := "?page=" + IntToString(page) + "&per_page=20";
      ghost var built := query;
      if |f.categoryId| > 0 {
        query := query + "&category_id=" + ToStr(f.categoryId[0]);
      }
      built := built + Piece("&category_id=", f.categoryId);
      assert query == built;
      if |f.subcategoryId| > 0 {
        query := query + "&sub_category_id=" + ToStr(f.subcategoryId[0]);
      }
      built := built + Piece("&sub_category_id=", f.subcategoryId);
      assert query == built;
      if |f.vendorId| > 0 {
        query := query + "&vendor_id=" + ToStr(f.vendorId[0]);
      }
      built := built + Piece("&vendor_id=", f.vendorId);
      assert query == built;
      AppendedQuery(page, f);
    }

    /** A successful fetch: the cards and `last_page`. */
    method Loaded(status: bool, rows: seq<Card>, lastPage: int)
      modifies this
      ensures status ==> cards == rows && totalPages == lastPage
      ensures !status ==> cards == old(cards) && totalPages == old(totalPages)
      ensures page == old(page) && activeFilters == old(activeFilters)
    {
      if status {
        cards := rows;
        totalPages := lastPage;
      }
    }

    /** `onFilterChange`: the new filters, back on page 1. */
    method FilterChange(filters: Filters)
      modifies this
      ensures activeFilters == filters && page == 1
      ensures totalPages == old(totalPages) && cards == old(cards)
      ensures totalPages >= 1 ==> InRange()
    {
      activeFilters := filters;
      page := 1;
    }

    /** Previous is disabled on page 1. */
    predicate PreviousDisabled()
      reads this
    {
      page == 1
    }

    /** Next is disabled on the last page. */
    predicate NextDisabled()
      reads this
    {
      page == totalPages
    }

    /** The previous button: one page back unless disabled; the page never
        leaves the range. */
    method Previous()
      modifies this
      ensures old(PreviousDisabled()) ==> page == old(page)
      ensures !old(PreviousDisabled()) ==> page == old(page) - 1
      ensures totalPages == old(totalPages) && activeFilters == old(activeFilters) && cards == old(cards)
      ensures old(InRange()) ==> InRange()
    {
      if !PreviousDisabled() {
        page := page - 1;
      }
    }

    /** The next button: one page on unless disabled; the page never leaves
        the range. */
    method Next()
      modifies this
      ensures old(NextDisabled()) ==> page == old(page)
      ensures !old(NextDisabled()) ==> page == old(page) + 1
      ensures totalPages == old(totalPages) && activeFilters == old(activeFilters) && cards == old(cards)
      ensures old(InRange()) ==> InRange()
    {
      if !NextDisabled() {
        page := page + 1;
      }
    }
  }
}
