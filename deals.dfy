/** What the two deal screens share: the type → vendor → product cascade,
    the vendor display name stored with a deal, and the reverse lookup that
    recovers the vendor from that name when a deal is edited
    (src/components/pages/SuperSaveDeals.jsx; CurrentDeals.jsx repeats the
    cascade with a strict comparison, see `CurrentDeals`). */
module Deals {
  import opened Js
  import Lists

  /** A vendor of the dropdown data; `vendor_type` may arrive as `1`, `"1"`,
      `2` or `"2"`. */
  datatype Vendor = Vendor(id: JsVal, vendorType: JsVal, username: JsVal, shopName: JsVal)

  datatype Product = Product(id: JsVal, vendorId: JsVal, productName: JsVal)

  /** The vendor type a deal type asks for: 2 for "Designer", 1 for anything else. */
  function TargetType(dealType: JsVal): (t: int)
    ensures t == 2 <==> dealType == Str("Designer")
    ensures t == 1 || t == 2
  {
    if dealType == Str("Designer") then 2 else 1
  }

  /** The type → vendor filter: nothing without a type, else the vendors
      with `Number(vendor_type) === target`. */
  function FilteredVendors(vendors: seq<Vendor>, dealType: JsVal): (r: seq<Vendor>)
    ensures Lists.Subsequence(r, vendors)
    ensures !Truthy(dealType) ==> r == []
    ensures Truthy(dealType) ==>
      forall v :: v in r <==> v in vendors && NumberIs(v.vendorType, TargetType(dealType))
    ensures Truthy(dealType) ==>
      forall v :: multiset(r)[v] ==
        (if NumberIs(v.vendorType, TargetType(dealType)) then multiset(vendors)[v] else 0)
  {
    if !Truthy(dealType) then []
    else
      var p := (v: Vendor) => NumberIs(v.vendorType, TargetType(dealType));
      Lists.FilterCounts(vendors, p);
      Lists.Filter(vendors, p)
  }

  /** The vendor → product filter: nothing without a vendor id, else the
      products whose `vendor_id` string-equals it. */
  function FilteredProducts(products: seq<Product>, vendorId: JsVal): (r: seq<Product>)
    ensures Lists.Subsequence(r, products)
    ensures !Truthy(vendorId) ==> r == []
    ensures Truthy(vendorId) ==> forall p :: p in r <==> p in products && SameId(p.vendorId, vendorId)
    ensures Truthy(vendorId) ==>
      forall p :: multiset(r)[p] ==
        (if SameId(p.vendorId, vendorId) then multiset(products)[p] else 0)
  {
    if !Truthy(vendorId) then []
    else
      var matches := (p: Product) => SameId(p.vendorId, vendorId);
      Lists.FilterCounts(products, matches);
      Lists.Filter(products, matches)
  }

  /** `vendors.find(v => String(v.id) === String(id))` */
  function FindVendor(vendors: seq<Vendor>, id: JsVal): (r: Option<Vendor>)
    ensures r.Some? ==> r.value in vendors && SameId(r.value.id, id)
    ensures r.None? ==> forall i :: 0 <= i < |vendors| ==> !SameId(vendors[i].id, id)
    ensures r.Some? ==> exists j :: 0 <= j < |vendors| && r.value == vendors[j]
                          && forall k :: 0 <= k < j ==> !SameId(vendors[k].id, id)
  {
    Lists.Find(vendors, (v: Vendor) => SameId(v.id, id))
  }

  /** The name stored with a deal: the username of a designer
      (`Number(vendor_type) === 2`), the shop name of anyone else. */
  function DisplayName(v: Vendor): (name: JsVal)
    ensures NumberIs(v.vendorType, 2) ==> name == v.username
    ensures !NumberIs(v.vendorType, 2) ==> name == v.shopName
  {
    if NumberIs(v.vendorType, 2) then v.username else v.shopName
  }

  /** The edit-time test: a designer whose username is the stored name or a
      shop whose shop name is. */
  predicate NameMatches(v: Vendor, name: JsVal)
  {
    (NumberIs(v.vendorType, 2) && v.username == name)
    || (NumberIs(v.vendorType, 1) && v.shopName == name)
  }

  /** The edit-time reverse lookup: the id of the first vendor whose display
      name is the stored name, or `""`. */
  function ReverseLookup(vendors: seq<Vendor>, name: JsVal): (id: JsVal)
    ensures id != Str("") ==> exists i :: 0 <= i < |vendors| && NameMatches(vendors[i], name) && vendors[i].id == id
    ensures (forall i :: 0 <= i < |vendors| ==> !NameMatches(vendors[i], name)) ==> id == Str("")
    ensures (exists i :: 0 <= i < |vendors| && NameMatches(vendors[i], name)) ==>
      exists j :: 0 <= j < |vendors| && NameMatches(vendors[j], name) && id == vendors[j].id
                  && forall k :: 0 <= k < j ==> !NameMatches(vendors[k], name)
  {
    var found := Lists.Find(vendors, (v: Vendor) => NameMatches(v, name));
    if found.Some? then found.value.id else Str("")
  }

  /** `getProductName`: the name of the product whose id string-equals `id`, else "N/A". */
  function ProductName(products: seq<Product>, id: JsVal): (name: JsVal)
    ensures (forall i :: 0 <= i < |products| ==> !SameId(products[i].id, id)) ==> name == Str("N/A")
    ensures name != Str("N/A") ==> exists i :: 0 <= i < |products| && SameId(products[i].id, id) && products[i].productName == name
    ensures (exists i :: 0 <= i < |products| && SameId(products[i].id, id)) ==>
      exists j :: 0 <= j < |products| && SameId(products[j].id, id) && name == products[j].productName
                  && forall k :: 0 <= k < j ==> !SameId(products[k].id, id)
  {
    var found := Lists.Find(products, (p: Product) => SameId(p.id, id));
    if found.Some? then found.value.productName else Str("N/A")
  }

  /** Every vendor the type filter can offer is a shop or a designer. */
  lemma OfferedVendorIsShopOrDesigner(vendors: seq<Vendor>, dealType: JsVal, v: Vendor)
    requires v in FilteredVendors(vendors, dealType)
    ensures NumberIs(v.vendorType, 1) || NumberIs(v.vendorType, 2)
  {
  }

  /** Round trip: the stored display name of an offered vendor leads the
      edit back to that vendor, provided no other vendor has the same
      display name. */
  lemma ReverseLookupRecoversVendor(vendors: seq<Vendor>, k: int)
    requires 0 <= k < |vendors|
    requires NumberIs(vendors[k].vendorType, 1) || NumberIs(vendors[k].vendorType, 2)
    requires forall j :: 0 <= j < |vendors| && j != k ==> !NameMatches(vendors[j], DisplayName(vendors[k]))
    ensures ReverseLookup(vendors, DisplayName(vendors[k])) == vendors[k].id
  {
    var name := DisplayName(vendors[k]);
    var p := (v: Vendor) => NameMatches(v, name);
    assert p(vendors[k]);
    var i := Lists.FindIndex(vendors, p);
    assert i == k;
  }

  /** A vendor the edit test matches has the tested name as its display name. */
  lemma MatchedNameIsDisplayName(v: Vendor, name: JsVal)
    ensures NameMatches(v, name) ==> DisplayName(v) == name
  {
    if NumberIs(v.vendorType, 1) {
      assert !NumberIs(v.vendorType, 2);
    }
  }

  /** The whole edit round trip: a vendor chosen by id in the dropdown (so
      offered under the deal's type), saved under its display name, is found
      again by the edit lookup, and its id is string-equal to the chosen one. */
  lemma ChooseSaveEditRoundTrip(vendors: seq<Vendor>, dealType: JsVal, chosenId: JsVal)
    requires FindVendor(vendors, chosenId).Some?
    requires FindVendor(vendors, chosenId).value in FilteredVendors(vendors, dealType)
    requires forall i, j :: 0 <= i < |vendors| && 0 <= j < |vendors| && i != j ==>
      DisplayName(vendors[i]) != DisplayName(vendors[j])
    ensures SameId(ReverseLookup(vendors, DisplayName(FindVendor(vendors, chosenId).value)), chosenId)
  {
    var v := FindVendor(vendors, chosenId).value;
    OfferedVendorIsShopOrDesigner(vendors, dealType, v);
    var k :| 0 <= k < |vendors| && vendors[k] == v;
    forall j | 0 <= j < |vendors| && j != k
      ensures !NameMatches(vendors[j], DisplayName(vendors[k]))
    {
      MatchedNameIsDisplayName(vendors[j], DisplayName(vendors[k]));
    }
    ReverseLookupRecoversVendor(vendors, k);
  }

  // ---------------------------------------------------------------------------
  // The strict comparison of CurrentDeals.jsx

  /** CurrentDeals.jsx picks the display name with `vendor_type === 2`. */
  function DisplayNameStrict(v: Vendor): (name: JsVal)
    ensures v.vendorType == Num(2) ==> name == v.username
    ensures v.vendorType != Num(2) ==> name == v.shopName
  {
    if v.vendorType == Num(2) then v.username else v.shopName
  }

  /** CurrentDeals.jsx's edit test: `vendor_type === 2` / `=== 1`. */
  predicate NameMatchesStrict(v: Vendor, name: JsVal)
  {
    (v.vendorType == Num(2) && v.username == name) || (v.vendorType == Num(1) && v.shopName == name)
  }

  function ReverseLookupStrict(vendors: seq<Vendor>, name: JsVal): (id: JsVal)
    ensures id != Str("") ==> exists i :: 0 <= i < |vendors| && NameMatchesStrict(vendors[i], name) && vendors[i].id == id
    ensures (forall i :: 0 <= i < |vendors| ==> !NameMatchesStrict(vendors[i], name)) ==> id == Str("")
    ensures (exists i :: 0 <= i < |vendors| && NameMatchesStrict(vendors[i], name)) ==>
      exists j :: 0 <= j < |vendors| && NameMatchesStrict(vendors[j], name) && id == vendors[j].id
                  && forall k :: 0 <= k < j ==> !NameMatchesStrict(vendors[k], name)
  {
    var found := Lists.Find(vendors, (v: Vendor) => NameMatchesStrict(v, name));
    if found.Some? then found.value.id else Str("")
  }

  /** The strict round trip does hold for vendors whose `vendor_type` is
      the number 1 or 2: the stored name leads back to the vendor, given
      that no other vendor matches that name. */
  lemma StrictLookupRecoversNumberTyped(vendors: seq<Vendor>, k: int)
    requires 0 <= k < |vendors|
    requires vendors[k].vendorType == Num(1) || vendors[k].vendorType == Num(2)
    requires forall j :: 0 <= j < |vendors| && j != k ==> !NameMatchesStrict(vendors[j], DisplayNameStrict(vendors[k]))
    ensures ReverseLookupStrict(vendors, DisplayNameStrict(vendors[k])) == vendors[k].id
  {
    assert NameMatchesStrict(vendors[k], DisplayNameStrict(vendors[k]));
  }

  /** With `vendor_type` sent as the string "2", the strict screen offers the
      vendor under "Designer" (its filter uses `Number`), stores the shop name
      instead of the username, and the edit lookup then finds no vendor, so
      the product list comes up empty. The `Number` version keeps the round trip. */
  lemma StrictLookupLosesStringTypedDesigner()
    ensures var v := Vendor(Num(7), Str("2"), Str("ann"), Str("Ann Studio"));
      v in FilteredVendors([v], Str("Designer"))
      && DisplayNameStrict(v) == Str("Ann Studio")
      && ReverseLookupStrict([v], DisplayNameStrict(v)) == Str("")
      && DisplayName(v) == Str("ann")
      && ReverseLookup([v], DisplayName(v)) == Num(7)
  {
    var v := Vendor(Num(7), Str("2"), Str("ann"), Str("Ann Studio"));
    assert NumberIs(v.vendorType, 2) by {
      assert IntToString(2) == "2";
      NumberOfString(2);
    }
    assert v in FilteredVendors([v], Str("Designer")) by {
      assert TargetType(Str("Designer")) == 2;
      assert v in [v];
    }
    assert ReverseLookupStrict([v], DisplayNameStrict(v)) == Str("") by {
      assert DisplayNameStrict(v) == Str("Ann Studio");
      assert !NameMatchesStrict([v][0], Str("Ann Studio"));
    }
    assert DisplayName(v) == Str("ann");
    ReverseLookupRecoversVendor([v], 0);
  }
}
