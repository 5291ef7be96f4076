/** The spotlight screen (src/components/pages/Spotlight.jsx): a spotlight
    names a shop, whose name is filled in from the vendor list, and carries a
    background image and a brand logo, each with its own file, preview and
    error. */
module Spotlight {
  import opened Js
  import Lists
  import opened LocalTable
  import opened Upload

  /** A vendor of the dropdown data. */
  datatype Shop = Shop(id: JsVal, shopName: JsVal)

  datatype SpotlightRecord = SpotlightRecord(shopId: JsVal, shopName: JsVal, price: JsVal, title: JsVal,
                                             backgroundImage: JsVal, brandLogo: JsVal)

  /** `handleFileChange`: JPEG, PNG or SVG, at most 2 MiB; the width and
      height it is handed (1600×1600, 1118×629) are not compared. */
  const FileRule := ImageRule(
    Some([Jpeg, Png, Jpg, Svg]), "Invalid format (JPEG, PNG, SVG only)",
    TwoMiB, "File size must be under 2MB",
    None, "")

  lemma FileRuleAccepts(f: FileMeta)
    ensures Validate(FileRule, f) == None <==>
      f.mime in ["image/jpeg", "image/png", "image/jpg", "image/svg+xml"] && f.size <= 2097152
    ensures f.mime !in ["image/jpeg", "image/png", "image/jpg", "image/svg+xml"] ==>
      Validate(FileRule, f) == Some("Invalid format (JPEG, PNG, SVG only)")
  {
  }

  /** The shop name filled in for a chosen `shop_id`: the `shop_name` of the
      first vendor whose id string-equals it, or "" when none does. */
  function ShopNameFor(vendors: seq<Shop>, value: JsVal): (name: JsVal)
    ensures (forall i :: 0 <= i < |vendors| ==> !SameId(vendors[i].id, value)) ==> name == Str("")
    ensures (exists i :: 0 <= i < |vendors| && SameId(vendors[i].id, value)) ==>
      exists i :: 0 <= i < |vendors| && SameId(vendors[i].id, value) && name == vendors[i].shopName
                  && forall k :: 0 <= k < i ==> !SameId(vendors[k].id, value)
  {
    var found := Lists.Find(vendors, (v: Shop) => SameId(v.id, value));
    if found.Some? then found.value.shopName else Str("")
  }

  /** Choosing a vendor from the dropdown fills in that vendor's own name
      when no other vendor shares its id. */
  lemma ChosenShopNamed(vendors: seq<Shop>, k: int)
    requires 0 <= k < |vendors|
    requires forall j :: 0 <= j < |vendors| && j != k ==> !SameId(vendors[j].id, vendors[k].id)
    ensures ShopNameFor(vendors, vendors[k].id) == vendors[k].shopName
  {
    var p := (v: Shop) => SameId(v.id, vendors[k].id);
    assert p(vendors[k]);
    var i := Lists.FindIndex(vendors, p);
    assert i == k;
  }

  /** The multipart body of `handleSubmit`: the four text fields, then
      `img_path` for a background file, `brand_logo` for a logo file, and
      the PUT override when editing. */
  function Body(shopId: JsVal, shopName: JsVal, price: JsVal, title: JsVal,
                background: Option<FileMeta>, logo: Option<FileMeta>, editingId: JsVal): (parts: seq<FormPart>)
    ensures Keys(parts) == ["shop_id", "shop_name", "price", "title"]
      + (if background.Some? then ["img_path"] else []) + (if logo.Some? then ["brand_logo"] else [])
      + (if Truthy(editingId) then ["_method"] else [])
    ensures parts[..4] == [Field("shop_id", shopId), Field("shop_name", shopName), Field("price", price), Field("title", title)]
    ensures background.Some? ==> parts[4] == FilePart("img_path", background.value)
    ensures logo.Some? ==> parts[if background.Some? then 5 else 4] == FilePart("brand_logo", logo.value)
    ensures Truthy(editingId) ==> parts[|parts| - 1] == Field("_method", Str("PUT"))
  {
    var fields := [Field("shop_id", shopId), Field("shop_name", shopName),
                   Field("price", price), Field("title", title)];
    var bg := FileIfChosen("img_path", background);
    var lg := FileIfChosen("brand_logo", logo);
    var put := MethodOverride(editingId);
    assert Keys(fields) == ["shop_id", "shop_name", "price", "title"];
    assert Keys(bg) == (if background.Some? then ["img_path"] else []);
    assert Keys(lg) == (if logo.Some? then ["brand_logo"] else []);
    assert Keys(put) == (if Truthy(editingId) then ["_method"] else []);
    KeysAppend(fields, bg);
    KeysAppend(fields + bg, lg);
    KeysAppend(fields + bg + lg, put);
    fields + bg + lg + put
  }

  class SpotlightScreen {
    const vendors: seq<Shop>
    const imgBase: string
    const table: Table<SpotlightRecord>
    const background: ImageField
    const logo: ImageField

    var shopId: JsVal
    var shopName: JsVal
    var price: JsVal
    var title: JsVal
    var editingId: JsVal

    predicate FormEmpty()
      reads this, background, logo
    {
      shopId == Str("") && shopName == Str("") && price == Str("") && title == Str("")
      && editingId == Null
      && background.file == None && background.preview == "" && background.error == ""
      && logo.file == None && logo.preview == "" && logo.error == ""
    }

    constructor(vendors: seq<Shop>, imgBase: string, rows: seq<Row<SpotlightRecord>>, total: int)
      ensures this.vendors == vendors && this.imgBase == imgBase
      ensures fresh(table) && fresh(background) && fresh(logo) && background != logo
      ensures table.rows == rows && table.total == total && table.deleteId == Null
      ensures FormEmpty()
    {
      this.vendors := vendors;
      this.imgBase := imgBase;
      table := new Table(rows, total);
      background := new ImageField();
      logo := new ImageField();
      shopId := Str("");
      shopName := Str("");
      price := Str("");
      title := Str("");
      editingId := Null;
    }

    /** `handleInputChange` for `shop_id`: the id and the vendor's name. */
    method ChooseShop(value: string)
      modifies this
      ensures shopId == Str(value) && shopName == ShopNameFor(vendors, Str(value))
      ensures price == old(price) && title == old(title) && editingId == old(editingId)
    {
      shopId := Str(value);
      shopName := ShopNameFor(vendors, Str(value));
    }

    /** `handleInputChange` for `price`: only that field changes. */
    method SetPrice(value: string)
      modifies this
      ensures price == Str(value)
      ensures shopId == old(shopId) && shopName == old(shopName) && title == old(title)
      ensures editingId == old(editingId)
    {
      price := Str(value);
    }

    /** `handleInputChange` for `title`: only that field changes. */
    method SetTitle(value: string)
      modifies this
      ensures title == Str(value)
      ensures shopId == old(shopId) && shopName == old(shopName) && price == old(price)
      ensures editingId == old(editingId)
    {
      title := Str(value);
    }

    /** `handleFileChange` on the background input; the logo is untouched. */
    method ChooseBackground(picked: Option<FileMeta>, dataUrl: string)
      requires background != logo
      modifies background
      ensures picked == None ==> background.file == None && background.preview == "" && background.error == ""
      ensures picked != None && Validate(FileRule, picked.value) == None ==>
        background.file == picked && background.preview == dataUrl && background.error == ""
      ensures picked != None && Validate(FileRule, picked.value) != None ==>
        background.file == None && background.preview == ""
        && background.error == Validate(FileRule, picked.value).value
      ensures logo.file == old(logo.file) && logo.preview == old(logo.preview) && logo.error == old(logo.error)
    {
      background.Choose(FileRule, picked, dataUrl);
    }

    /** `handleFileChange` on the logo input; the background is untouched. */
    method ChooseLogo(picked: Option<FileMeta>, dataUrl: string)
      requires background != logo
      modifies logo
      ensures picked == None ==> logo.file == None && logo.preview == "" && logo.error == ""
      ensures picked != None && Validate(FileRule, picked.value) == None ==>
        logo.file == picked && logo.preview == dataUrl && logo.error == ""
      ensures picked != None && Validate(FileRule, picked.value) != None ==>
        logo.file == None && logo.preview == "" && logo.error == Validate(FileRule, picked.value).value
      ensures background.file == old(background.file) && background.preview == old(background.preview)
      ensures background.error == old(background.error)
    {
      logo.Choose(FileRule, picked, dataUrl);
    }

    /** The multipart body of `handleSubmit`. */
    function FormBody(): (parts: seq<FormPart>)
      reads this, background, logo
      ensures Keys(parts) == ["shop_id", "shop_name", "price", "title"]
        + (if background.file.Some? then ["img_path"] else []) + (if logo.file.Some? then ["brand_logo"] else [])
        + (if Truthy(editingId) then ["_method"] else [])
      ensures parts[..4] == [Field("shop_id", shopId), Field("shop_name", shopName), Field("price", price), Field("title", title)]
      ensures background.file.Some? ==> parts[4] == FilePart("img_path", background.file.value)
      ensures logo.file.Some? ==> parts[if background.file.Some? then 5 else 4] == FilePart("brand_logo", logo.file.value)
      ensures Truthy(editingId) ==> parts[|parts| - 1] == Field("_method", Str("PUT"))
    {
      Body(shopId, shopName, price, title, background.file, logo.file, editingId)
    }

    /** `resetForm`: the form, both files, both previews, both errors and
        the edited id. */
    method ResetForm()
      modifies this, background, logo
      ensures FormEmpty()
    {
      editingId := Null;
      shopId := Str("");
      shopName := Str("");
      price := Str("");
      title := Str("");
      background.Clear();
      logo.Clear();
    }

    /** A successful `handleSubmit`. */
    method Saved(record: Row<SpotlightRecord>)
      modifies this, table, background, logo
      ensures Truthy(old(editingId)) ==>
        table.rows == ReplaceById(old(table.rows), old(editingId), record) && table.total == old(table.total)
      ensures !Truthy(old(editingId)) ==>
        table.rows == [record] + old(table.rows) && table.total == old(table.total) + 1
      ensures FormEmpty()
    {
      table.Saved(editingId, record);
      ResetForm();
    }

    /** `handleEdit`: the shop id stringified; each stored image, when set,
        becomes its preview; the chosen files stay. */
    method Edit(item: Row<SpotlightRecord>)
      requires background != logo
      modifies this, background, logo
      ensures editingId == item.id && shopId == Str(ToStr(item.data.shopId))
      ensures shopName == item.data.shopName && price == item.data.price && title == item.data.title
      ensures background.preview ==
        (if Truthy(item.data.backgroundImage) then imgBase + ToStr(item.data.backgroundImage) else "")
      ensures logo.preview == (if Truthy(item.data.brandLogo) then imgBase + ToStr(item.data.brandLogo) else "")
      ensures background.file == old(background.file) && logo.file == old(logo.file)
      ensures background.error == old(background.error) && logo.error == old(logo.error)
    {
      editingId := item.id;
      shopId := Str(ToStr(item.data.shopId));
      shopName := item.data.shopName;
      price := item.data.price;
      title := item.data.title;
      if Truthy(item.data.backgroundImage) {
        background.ShowStored(imgBase + ToStr(item.data.backgroundImage));
      } else {
        background.ShowStored("");
      }
      if Truthy(item.data.brandLogo) {
        logo.ShowStored(imgBase + ToStr(item.data.brandLogo));
      } else {
        logo.ShowStored("");
      }
    }
  }
}
