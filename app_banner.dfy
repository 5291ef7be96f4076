/** The app-banner screen (src/components/pages/AppBanner.jsx): a banner
    navigates to a product ('1') or a shop/designer ('2'), the chosen target's
    name is filled in from the fetched lists, at most five banners can be
    created from the client, and the image must be 960×576. */
module AppBanner {
  import opened Js
  import Lists
  import Text
  import opened LocalTable
  import opened Upload

  /** A product or a vendor of the dropdown data; products carry
      `product_name`, vendors `shop_name`. */
  datatype Target = Target(id: JsVal, productName: JsVal, shopName: JsVal)

  datatype Banner = Banner(kind: JsVal, navigate: JsVal, searchfieldId: JsVal,
                           searchfieldText: JsVal, imgPath: JsVal)

  /** The client-side banner limit. */
  const MaxBanners := 5

  /** The upload rule: no type check, at most 5 MiB, exactly 960×576. */
  const BannerRule := ImageRule(
    None, "",
    FiveMiB, "File size must be under 5MB",
    Some((960, 576)), "Dimensions must be exactly 960x576")

  lemma BannerRuleAccepts(f: FileMeta)
    ensures Validate(BannerRule, f) == None <==>
      f.size <= 5242880 && f.width == 960 && f.height == 576
    ensures f.size > 5242880 ==> Validate(BannerRule, f) == Some("File size must be under 5MB")
  {
  }

  /** `searchFieldOptions`: products for '1', vendors for '2', none otherwise. */
  function SearchFieldOptions(navigate: JsVal, products: seq<Target>, vendors: seq<Target>): (r: seq<Target>)
    ensures navigate == Str("1") ==> r == products
    ensures navigate == Str("2") ==> r == vendors
    ensures navigate != Str("1") && navigate != Str("2") ==> r == []
  {
    if navigate == Str("1") then products else if navigate == Str("2") then vendors else []
  }

  /** The text filled in for a chosen target: the first item of the list
      (products for '1', vendors for anything else) whose id string-equals
      the value, named by `product_name || shop_name`; "" when none matches. */
  function TargetText(navigate: JsVal, products: seq<Target>, vendors: seq<Target>, value: JsVal): (text: JsVal)
    ensures var list := if navigate == Str("1") then products else vendors;
      ((forall i :: 0 <= i < |list| ==> !SameId(list[i].id, value)) ==> text == Str(""))
      && ((exists i :: 0 <= i < |list| && SameId(list[i].id, value)) ==>
          exists i :: 0 <= i < |list| && SameId(list[i].id, value)
                      && text == Or(list[i].productName, list[i].shopName)
                      && forall k :: 0 <= k < i ==> !SameId(list[k].id, value))
  {
    var list := if navigate == Str("1") then products else vendors;
    var found := Lists.Find(list, (t: Target) => SameId(t.id, value));
    if found.Some? then Or(found.value.productName, found.value.shopName) else Str("")
  }

  /** A product chosen from the options gets its own name. */
  lemma ProductTargetNamed(products: seq<Target>, vendors: seq<Target>, k: int)
    requires 0 <= k < |products|
    requires forall j :: 0 <= j < |products| && j != k ==> !SameId(products[j].id, products[k].id)
    ensures TargetText(Str("1"), products, vendors, products[k].id)
            == Or(products[k].productName, products[k].shopName)
  {
    var p := (t: Target) => SameId(t.id, products[k].id);
    assert p(products[k]);
    var i := Lists.FindIndex(products, p);
    assert i == k;
  }

  /** `getNavigateLabel` (a strict comparison on the string value). */
  function NavigateLabel(v: JsVal): (text: string)
    ensures v == Str("1") ==> text == "Product"
    ensures v == Str("2") ==> text == "Shop/Designer"
    ensures v != Str("1") && v != Str("2") ==> text == "N/A"
  {
    if v == Str("1") then "Product" else if v == Str("2") then "Shop/Designer" else "N/A"
  }

  /** `getTypeLabel`: the first character upper-cased, the rest kept. */
  function TypeLabel(v: string): (text: string)
    ensures |text| == |v|
    ensures |v| > 0 ==> text[0] == Text.UpperAscii(v[0]) && text[1..] == v[1..]
  {
    Text.CapitaliseFirst(v)
  }

  /** The create guard of `handleSubmit` and of the submit button: refused
      when not editing and five or more banners are loaded. */
  predicate CreateBlocked(editingId: JsVal, loaded: nat)
  {
    !Truthy(editingId) && loaded >= MaxBanners
  }

  class BannerScreen {
    const products: seq<Target>
    const vendors: seq<Target>
    const imgBase: string
    const table: Table<Banner>
    const image: ImageField

    var kind: JsVal
    var navigate: JsVal
    var searchfieldId: JsVal
    var searchfieldText: JsVal
    var editingId: JsVal

    predicate FormEmpty()
      reads this, image
    {
      kind == Str("homepage") && navigate == Str("") && searchfieldId == Str("")
      && searchfieldText == Str("") && editingId == Null
      && image.file == None && image.preview == "" && image.error == ""
    }

    constructor(products: seq<Target>, vendors: seq<Target>, imgBase: string,
                rows: seq<Row<Banner>>, total: int)
      ensures this.products == products && this.vendors == vendors && this.imgBase == imgBase
      ensures fresh(table) && fresh(image) && table.rows == rows && table.total == total
      ensures table.deleteId == Null
      ensures FormEmpty()
    {
      this.products := products;
      this.vendors := vendors;
      this.imgBase := imgBase;
      table := new Table(rows, total);
      image := new ImageField();
      kind := Str("homepage");
      navigate := Str("");
      searchfieldId := Str("");
      searchfieldText := Str("");
      editingId := Null;
    }

    function Options(): seq<Target>
      reads this
    {
      SearchFieldOptions(navigate, products, vendors)
    }

    /** `handleInputChange` for `type`: only that field changes. */
    method SetType(value: string)
      modifies this
      ensures kind == Str(value)
      ensures navigate == old(navigate) && searchfieldId == old(searchfieldId)
      ensures searchfieldText == old(searchfieldText) && editingId == old(editingId)
    {
      kind := Str(value);
    }

    /** `handleInputChange` for `navigate`: the target is cleared. */
    method ChangeNavigate(value: string)
      modifies this
      ensures navigate == Str(value) && searchfieldId == Str("") && searchfieldText == Str("")
      ensures kind == old(kind) && editingId == old(editingId)
    {
      navigate := Str(value);
      searchfieldId := Str("");
      searchfieldText := Str("");
    }

    /** `handleInputChange` for `searchfield_id`: the id and its name. */
    method ChooseTarget(value: string)
      modifies this
      ensures searchfieldId == Str(value)
      ensures searchfieldText == TargetText(navigate, products, vendors, Str(value))
      ensures navigate == old(navigate) && kind == old(kind) && editingId == old(editingId)
    {
      searchfieldId := Str(value);
      searchfieldText := TargetText(navigate, products, vendors, Str(value));
    }

    /** `handleImageChange` */
    method ChooseImage(picked: Option<FileMeta>, dataUrl: string)
      modifies image
      ensures picked == None ==> image.file == None && image.preview == "" && image.error == ""
      ensures picked != None && Validate(BannerRule, picked.value) == None ==>
        image.file == picked && image.preview == dataUrl && image.error == ""
      ensures picked != None && Validate(BannerRule, picked.value) != None ==>
        image.file == None && image.preview == "" && image.error == Validate(BannerRule, picked.value).value
    {
      image.Choose(BannerRule, picked, dataUrl);
    }

    /** `handleSubmit` up to the request: `None` when the five-banner limit
        refuses a create (editing is never refused), else the multipart body. */
    function Submit(): (body: Option<seq<FormPart>>)
      reads this, table, image
      ensures body.None? <==> CreateBlocked(editingId, |table.rows|)
      ensures Truthy(editingId) ==> body.Some?
      ensures body.Some? ==>
        Keys(body.value) == ["type", "navigate", "searchfield_id", "searchfield_text"]
          + (if image.file.Some? then ["img_path"] else []) + (if Truthy(editingId) then ["_method"] else [])
      ensures body.Some? ==> body.value[..4] == [Field("type", kind), Field("navigate", navigate),
        Field("searchfield_id", searchfieldId), Field("searchfield_text", searchfieldText)]
      ensures body.Some? && image.file.Some? ==> body.value[4] == FilePart("img_path", image.file.value)
      ensures body.Some? && Truthy(editingId) ==> body.value[|body.value| - 1] == Field("_method", Str("PUT"))
    {
      if CreateBlocked(editingId, |table.rows|) then None
      else
        var fields := [Field("type", kind), Field("navigate", navigate),
                       Field("searchfield_id", searchfieldId), Field("searchfield_text", searchfieldText)];
        var file := FileIfChosen("img_path", image.file);
        var put := MethodOverride(editingId);
        KeysAppend(fields, file);
        KeysAppend(fields + file, put);
        assert Keys(fields) == ["type", "navigate", "searchfield_id", "searchfield_text"];
        Some(fields + file + put)
    }

    /** `resetForm`: the type goes back to "homepage". */
    method ResetForm()
      modifies this, image
      ensures FormEmpty()
    {
      editingId := Null;
      kind := Str("homepage");
      navigate := Str("");
      searchfieldId := Str("");
      searchfieldText := Str("");
      image.Clear();
    }

    /** A successful `handleSubmit`. */
    method Saved(record: Row<Banner>)
      modifies this, table, image
      ensures Truthy(old(editingId)) ==>
        table.rows == ReplaceById(old(table.rows), old(editingId), record) && table.total == old(table.total)
      ensures !Truthy(old(editingId)) ==>
        table.rows == [record] + old(table.rows) && table.total == old(table.total) + 1
      ensures FormEmpty()
    {
      table.Saved(editingId, record);
      ResetForm();
    }

    /** `handleEdit`: navigate and target id stringified. */
    method Edit(item: Row<Banner>)
      modifies this, image
      ensures editingId == item.id && kind == item.data.kind
      ensures navigate == Str(ToStr(item.data.navigate))
      ensures searchfieldId == Str(ToStr(item.data.searchfieldId))
      ensures searchfieldText == item.data.searchfieldText
      ensures image.preview == (if Truthy(item.data.imgPath) then imgBase + ToStr(item.data.imgPath) else "")
      ensures image.file == old(image.file) && image.error == old(image.error)
    {
      editingId := item.id;
      kind := item.data.kind;
      navigate := Str(ToStr(item.data.navigate));
      searchfieldId := Str(ToStr(item.data.searchfieldId));
      searchfieldText := item.data.searchfieldText;
      if Truthy(item.data.imgPath) {
        image.ShowStored(imgBase + ToStr(item.data.imgPath));
      } else {
        image.ShowStored("");
      }
    }
  }

  /** Creating from four loaded banners succeeds once, and the fifth row
      then blocks the next create; an edit goes through at any count. */
  lemma FifthCreateBlocksSixth(rows: seq<Row<Banner>>, record: Row<Banner>, editingId: JsVal)
    requires |rows| == 4
    ensures !CreateBlocked(Null, |rows|)
    ensures CreateBlocked(Null, |[record] + rows|)
    ensures Truthy(editingId) ==> !CreateBlocked(editingId, |[record] + rows|)
  {
  }
}
