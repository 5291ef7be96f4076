/** The current-deals screen (src/components/pages/CurrentDeals.jsx): a
    deal names a vendor by its display name and a product; the form cascades
    type → vendor → product, and the table is maintained locally after each
    save or delete. This screen tests `vendor_type === 2` strictly when it
    picks and looks up the display name. */
module CurrentDeals {
  import opened Js
  import opened Deals
  import opened LocalTable

  /** A deal as the server returns it. */
  datatype Deal = Deal(dealType: JsVal, name: JsVal, productId: JsVal)

  /** The body of the create / update request: `vendor_id` is not sent. */
  datatype DealPayload = DealPayload(dealType: JsVal, name: JsVal, productId: JsVal)

  /** The call `handleSubmit` makes: a PUT to `/current-deals/{id}` while
      editing, else a POST to `/current-deals`. */
  datatype DealRequest = Put(id: JsVal, payload: DealPayload) | Post(payload: DealPayload)

  class CurrentDealsScreen {
    const vendors: seq<Vendor>
    const products: seq<Product>
    const table: Table<Deal>

    var dealType: JsVal
    var name: JsVal
    var vendorId: JsVal
    var productId: JsVal
    var editingId: JsVal

    predicate FormEmpty()
      reads this
    {
      dealType == Str("") && name == Str("") && vendorId == Str("") && productId == Str("")
      && editingId == Null
    }

    constructor(vendors: seq<Vendor>, products: seq<Product>, rows: seq<Row<Deal>>, total: int)
      ensures this.vendors == vendors && this.products == products
      ensures fresh(table) && table.rows == rows && table.total == total
      ensures FormEmpty()
    {
      this.vendors := vendors;
      this.products := products;
      table := new Table(rows, total);
      dealType := Str("");
      name := Str("");
      vendorId := Str("");
      productId := Str("");
      editingId := Null;
    }

    /** The vendor dropdown (`filteredVendors`). */
    function OfferedVendors(): seq<Vendor>
      reads this
    {
      FilteredVendors(vendors, dealType)
    }

    /** The product dropdown (`filteredProducts`). */
    function OfferedProducts(): seq<Product>
      reads this
    {
      FilteredProducts(products, vendorId)
    }

    /** `handleInputChange` for `type`: the dependent fields are cleared. */
    method ChangeType(value: string)
      modifies this
      ensures dealType == Str(value)
      ensures name == Str("") && vendorId == Str("") && productId == Str("")
      ensures editingId == old(editingId)
      ensures OfferedProducts() == []
    {
      dealType := Str(value);
      name := Str("");
      vendorId := Str("");
      productId := Str("");
    }

    /** `handleInputChange` for `name` (the option value is the vendor id):
        a known vendor sets the id and the strict display name and clears the
        product; an unknown id changes nothing. */
    method ChooseVendor(value: string)
      modifies this
      ensures FindVendor(vendors, Str(value)).Some? ==>
        vendorId == Str(value) && name == DisplayNameStrict(FindVendor(vendors, Str(value)).value)
        && productId == Str("") && dealType == old(dealType)
      ensures FindVendor(vendors, Str(value)).None? ==>
        vendorId == old(vendorId) && name == old(name) && productId == old(productId)
        && dealType == old(dealType)
      ensures editingId == old(editingId)
    {
      var found := FindVendor(vendors, Str(value));
      if found.Some? {
        vendorId := Str(value);
        name := DisplayNameStrict(found.value);
        productId := Str("");
      }
    }

    /** `handleInputChange` for `product_id`: only that field changes. */
    method ChooseProduct(value: string)
      modifies this
      ensures productId == Str(value)
      ensures dealType == old(dealType) && name == old(name) && vendorId == old(vendorId)
      ensures editingId == old(editingId)
    {
      productId := Str(value);
    }

    /** The request of `handleSubmit`: the type, the stored name and the
        product id (never the vendor id), sent as an update of the edited id
        when there is one and as a create otherwise. */
    function Request(): (r: DealRequest)
      reads this
      ensures r.Put? <==> Truthy(editingId)
      ensures r.Put? ==> r.id == editingId
      ensures r.payload.dealType == dealType && r.payload.name == name && r.payload.productId == productId
    {
      var payload := DealPayload(dealType, name, productId);
      if Truthy(editingId) then Put(editingId, payload) else Post(payload)
    }

    /** `resetForm` */
    method ResetForm()
      modifies this
      ensures FormEmpty()
    {
      editingId := Null;
      dealType := Str("");
      name := Str("");
      vendorId := Str("");
      productId := Str("");
    }

    /** A successful `handleSubmit`: the returned record replaces the edited
        rows, or is prepended with the total raised by one; then the form is
        reset. */
    method Saved(record: Row<Deal>)
      modifies this, table
      ensures Truthy(old(editingId)) ==>
        table.rows == ReplaceById(old(table.rows), old(editingId), record) && table.total == old(table.total)
      ensures !Truthy(old(editingId)) ==>
        table.rows == [record] + old(table.rows) && table.total == old(table.total) + 1
      ensures FormEmpty()
    {
      table.Saved(editingId, record);
      ResetForm();
    }

    /** `handleEdit`: the stored values come back as they are, the vendor id
        through the strict reverse lookup, the product id as a string. */
    method Edit(item: Row<Deal>)
      modifies this
      ensures editingId == item.id && dealType == item.data.dealType && name == item.data.name
      ensures vendorId == ReverseLookupStrict(vendors, item.data.name)
      ensures productId == Str(ToStr(item.data.productId))
      ensures Truthy(item.id) ==>
        Request() == Put(item.id, DealPayload(item.data.dealType, item.data.name, Str(ToStr(item.data.productId))))
    {
      editingId := item.id;
      dealType := item.data.dealType;
      name := item.data.name;
      vendorId := ReverseLookupStrict(vendors, item.data.name);
      productId := Str(ToStr(item.data.productId));
    }
  }
}
