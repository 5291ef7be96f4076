/** The super-saver-deals screen (src/components/pages/SuperSaveDeals.jsx):
    the cascade of the current-deals screen with `Number(vendor_type)`
    comparisons, plus a title, a price and a brand logo checked against a
    1118×629 image rule. */
module SuperSaveDeals {
  import opened Js
  import opened Deals
  import opened LocalTable
  import opened Upload

  /** A deal as the server returns it. */
  datatype SuperDeal = SuperDeal(dealType: JsVal, name: JsVal, productId: JsVal,
                                 title: JsVal, price: JsVal, brandLogo: JsVal)

  /** The brand logo: JPEG, PNG or SVG, at most 2 MiB, exactly 1118×629. */
  const LogoRule := ImageRule(
    Some([Jpeg, Png, Jpg, Svg]), "Format must be JPEG, PNG or SVG",
    TwoMiB, "File size must be under 2MB",
    Some((1118, 629)), "Dimensions must be exactly 1118x629")

  /** The logo rule accepts exactly the JPEG / PNG / SVG files of at most
      2 MiB that are 1118 pixels wide and 629 high. */
  lemma LogoRuleAccepts(f: FileMeta)
    ensures Validate(LogoRule, f) == None <==>
      f.mime in ["image/jpeg", "image/png", "image/jpg", "image/svg+xml"]
      && f.size <= 2097152 && f.width == 1118 && f.height == 629
    ensures f.mime !in ["image/jpeg", "image/png", "image/jpg", "image/svg+xml"] ==>
      Validate(LogoRule, f) == Some("Format must be JPEG, PNG or SVG")
  {
  }

  class SuperSaveScreen {
    const vendors: seq<Vendor>
    const products: seq<Product>
    const imgBase: string
    const table: Table<SuperDeal>
    const logo: ImageField

    var dealType: JsVal
    var name: JsVal
    var vendorId: JsVal
    var productId: JsVal
    var title: JsVal
    var price: JsVal
    var editingId: JsVal

    predicate FormEmpty()
      reads this, logo
    {
      dealType == Str("") && name == Str("") && vendorId == Str("") && productId == Str("")
      && title == Str("") && price == Str("") && editingId == Null
      && logo.file == None && logo.preview == "" && logo.error == ""
    }

    constructor(vendors: seq<Vendor>, products: seq<Product>, imgBase: string,
                rows: seq<Row<SuperDeal>>, total: int)
      ensures this.vendors == vendors && this.products == products && this.imgBase == imgBase
      ensures fresh(table) && fresh(logo) && table.rows == rows && table.total == total
      ensures FormEmpty()
    {
      this.vendors := vendors;
      this.products := products;
      this.imgBase := imgBase;
      table := new Table(rows, total);
      logo := new ImageField();
      dealType := Str("");
      name := Str("");
      vendorId := Str("");
      productId := Str("");
      title := Str("");
      price := Str("");
      editingId := Null;
    }

    function OfferedVendors(): seq<Vendor>
      reads this
    {
      FilteredVendors(vendors, dealType)
    }

    function OfferedProducts(): seq<Product>
      reads this
    {
      FilteredProducts(products, vendorId)
    }

    /** `handleInputChange` for `type`: name, vendor and product are cleared;
        title and price stay. */
    method ChangeType(value: string)
      modifies this
      ensures dealType == Str(value)
      ensures name == Str("") && vendorId == Str("") && productId == Str("")
      ensures title == old(title) && price == old(price)
      ensures editingId == old(editingId)
      ensures OfferedProducts() == []
    {
      dealType := Str(value);
      name := Str("");
      vendorId := Str("");
      productId := Str("");
    }

    /** `handleInputChange` for `name`: a known vendor sets the id and its
        display name (`Number(vendor_type) === 2` → username) and clears the
        product; an unknown id changes nothing. */
    method ChooseVendor(value: string)
      modifies this
      ensures FindVendor(vendors, Str(value)).Some? ==>
        vendorId == Str(value) && name == DisplayName(FindVendor(vendors, Str(value)).value)
        && productId == Str("")
      ensures FindVendor(vendors, Str(value)).None? ==>
        vendorId == old(vendorId) && name == old(name) && productId == old(productId)
      ensures dealType == old(dealType) && title == old(title) && price == old(price)
      ensures editingId == old(editingId)
    {
      var found := FindVendor(vendors, Str(value));
      if found.Some? {
        vendorId := Str(value);
        name := DisplayName(found.value);
        productId := Str("");
      }
    }

    /** The remaining inputs each change only their own field. */
    method ChooseProduct(value: string)
      modifies this
      ensures productId == Str(value)
      ensures dealType == old(dealType) && name == old(name) && vendorId == old(vendorId)
      ensures title == old(title) && price == old(price)
      ensures editingId == old(editingId)
    {
      productId := Str(value);
    }

    method SetTitle(value: string)
      modifies this
      ensures title == Str(value)
      ensures dealType == old(dealType) && name == old(name) && vendorId == old(vendorId)
      ensures productId == old(productId) && price == old(price)
      ensures editingId == old(editingId)
    {
      title := Str(value);
    }

    method SetPrice(value: string)
      modifies this
      ensures price == Str(value)
      ensures dealType == old(dealType) && name == old(name) && vendorId == old(vendorId)
      ensures productId == old(productId) && title == old(title)
      ensures editingId == old(editingId)
    {
      price := Str(value);
    }

    /** `handleImageChange` with the logo rule. */
    method ChooseLogo(picked: Option<FileMeta>, dataUrl: string)
      modifies logo
      ensures picked == None ==> logo.file == None && logo.preview == "" && logo.error == ""
      ensures picked != None && Validate(LogoRule, picked.value) == None ==>
        logo.file == picked && logo.preview == dataUrl && logo.error == ""
      ensures picked != None && Validate(LogoRule, picked.value) != None ==>
        logo.file == None && logo.preview == "" && logo.error == Validate(LogoRule, picked.value).value
    {
      logo.Choose(LogoRule, picked, dataUrl);
    }

    /** The multipart body of `handleSubmit`: the five text fields, the logo
        when one was accepted, and the PUT override when editing. */
    function FormBody(): (parts: seq<FormPart>)
      reads this, logo
      ensures Keys(parts) == ["type", "name", "product_id", "title", "price"]
        + (if logo.file.Some? then ["brand_logo"] else []) + (if Truthy(editingId) then ["_method"] else [])
      ensures parts[..5] == [Field("type", dealType), Field("name", name), Field("product_id", productId),
        Field("title", title), Field("price", price)]
      ensures logo.file.Some? ==> parts[5] == FilePart("brand_logo", logo.file.value)
      ensures Truthy(editingId) ==> parts[|parts| - 1] == Field("_method", Str("PUT"))
    {
      var fields := [Field("type", dealType), Field("name", name), Field("product_id", productId),
                     Field("title", title), Field("price", price)];
      var file := FileIfChosen("brand_logo", logo.file);
      var put := MethodOverride(editingId);
      KeysAppend(fields, file);
      KeysAppend(fields + file, put);
      assert Keys(fields) == ["type", "name", "product_id", "title", "price"];
      fields + file + put
    }

    /** `resetForm` */
    method ResetForm()
      modifies this, logo
      ensures FormEmpty()
    {
      editingId := Null;
      dealType := Str("");
      name := Str("");
      vendorId := Str("");
      productId := Str("");
      title := Str("");
      price := Str("");
      logo.Clear();
    }

    /** A successful `handleSubmit`: replace or prepend, then reset. */
    method Saved(record: Row<SuperDeal>)
      modifies this, table, logo
      ensures Truthy(old(editingId)) ==>
        table.rows == ReplaceById(old(table.rows), old(editingId), record) && table.total == old(table.total)
      ensures !Truthy(old(editingId)) ==>
        table.rows == [record] + old(table.rows) && table.total == old(table.total) + 1
      ensures FormEmpty()
    {
      table.Saved(editingId, record);
      ResetForm();
    }

    /** `handleEdit`: the vendor comes back through the `Number` reverse
        lookup; the preview shows the stored logo, or nothing. */
    method Edit(item: Row<SuperDeal>)
      modifies this, logo
      ensures editingId == item.id && dealType == item.data.dealType && name == item.data.name
      ensures vendorId == ReverseLookup(vendors, item.data.name)
      ensures productId == Str(ToStr(item.data.productId))
      ensures title == item.data.title && price == item.data.price
      ensures logo.preview == (if Truthy(item.data.brandLogo) then imgBase + ToStr(item.data.brandLogo) else "")
      ensures logo.file == old(logo.file) && logo.error == old(logo.error)
    {
      editingId := item.id;
      dealType := item.data.dealType;
      name := item.data.name;
      vendorId := ReverseLookup(vendors, item.data.name);
      productId := Str(ToStr(item.data.productId));
      title := item.data.title;
      price := item.data.price;
      if Truthy(item.data.brandLogo) {
        logo.ShowStored(imgBase + ToStr(item.data.brandLogo));
      } else {
        logo.ShowStored("");
      }
    }
  }
}
