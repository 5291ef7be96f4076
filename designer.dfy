/** The designer screen (src/components/pages/Designer.jsx): a featured
    designer names a vendor, whose username is filled in from the vendor
    list, with a title, a rating and a square 449×449 image. */
module Designer {
  import opened Js
  import Lists
  import opened LocalTable
  import opened Upload

  /** A vendor of the dropdown data. */
  datatype Account = Account(id: JsVal, username: JsVal)

  datatype DesignerRecord = DesignerRecord(designerId: JsVal, designerName: JsVal, designerTitle: JsVal,
                                           designerRating: JsVal, designerImage: JsVal)

  /** JPEG, PNG or SVG, at most 2 MiB, exactly 449×449. */
  const DesignerRule := ImageRule(
    Some([Jpeg, Png, Jpg, Svg]), "Format must be JPEG, PNG or SVG",
    TwoMiB, "File size must be under 2MB",
    Some((449, 449)), "Dimensions must be exactly 449x449")

  lemma DesignerRuleAccepts(f: FileMeta)
    ensures Validate(DesignerRule, f) == None <==>
      f.mime in ["image/jpeg", "image/png", "image/jpg", "image/svg+xml"]
      && f.size <= 2097152 && f.width == 449 && f.height == 449
    ensures f.mime in ["image/jpeg", "image/png", "image/jpg", "image/svg+xml"] && f.size <= 2097152 && f.width != 449
      ==> Validate(DesignerRule, f) == Some("Dimensions must be exactly 449x449")
  {
  }

  /** The name filled in for a chosen `designer_id`: the `username` of the
      first vendor whose id string-equals it, or "" when none does. */
  function UsernameFor(vendors: seq<Account>, value: JsVal): (name: JsVal)
    ensures (forall i :: 0 <= i < |vendors| ==> !SameId(vendors[i].id, value)) ==> name == Str("")
    ensures (exists i :: 0 <= i < |vendors| && SameId(vendors[i].id, value)) ==>
      exists i :: 0 <= i < |vendors| && SameId(vendors[i].id, value) && name == vendors[i].username
                  && forall k :: 0 <= k < i ==> !SameId(vendors[k].id, value)
  {
    var found := Lists.Find(vendors, (v: Account) => SameId(v.id, value));
    if found.Some? then found.value.username else Str("")
  }

  /** Choosing a vendor fills in its own username when its id is unique. */
  lemma ChosenDesignerNamed(vendors: seq<Account>, k: int)
    requires 0 <= k < |vendors|
    requires forall j :: 0 <= j < |vendors| && j != k ==> !SameId(vendors[j].id, vendors[k].id)
    ensures UsernameFor(vendors, vendors[k].id) == vendors[k].username
  {
    var p := (v: Account) => SameId(v.id, vendors[k].id);
    assert p(vendors[k]);
    var i := Lists.FindIndex(vendors, p);
    assert i == k;
  }

  class DesignerScreen {
    const vendors: seq<Account>
    const imgBase: string
    const table: Table<DesignerRecord>
    const image: ImageField

    var designerId: JsVal
    var designerName: JsVal
    var designerTitle: JsVal
    var designerRating: JsVal
    var editingId: JsVal

    predicate FormEmpty()
      reads this, image
    {
      designerId == Str("") && designerName == Str("") && designerTitle == Str("")
      && designerRating == Str("") && editingId == Null
      && image.file == None && image.preview == "" && image.error == ""
    }

    constructor(vendors: seq<Account>, imgBase: string, rows: seq<Row<DesignerRecord>>, total: int)
      ensures this.vendors == vendors && this.imgBase == imgBase
      ensures fresh(table) && fresh(image) && table.rows == rows && table.total == total
      ensures table.deleteId == Null
      ensures FormEmpty()
    {
      this.vendors := vendors;
      this.imgBase := imgBase;
      table := new Table(rows, total);
      image := new ImageField();
      designerId := Str("");
      designerName := Str("");
      designerTitle := Str("");
      designerRating := Str("");
      editingId := Null;
    }

    /** `handleInputChange` for `designer_id`: the id and the username. */
    method ChooseDesigner(value: string)
      modifies this
      ensures designerId == Str(value) && designerName == UsernameFor(vendors, Str(value))
      ensures designerTitle == old(designerTitle) && designerRating == old(designerRating)
      ensures editingId == old(editingId)
    {
      designerId := Str(value);
      designerName := UsernameFor(vendors, Str(value));
    }

    /** `handleInputChange` for `designer_title`: only that field changes. */
    method SetTitle(value: string)
      modifies this
      ensures designerTitle == Str(value)
      ensures designerId == old(designerId) && designerName == old(designerName)
      ensures designerRating == old(designerRating) && editingId == old(editingId)
    {
      designerTitle := Str(value);
    }

    /** `handleInputChange` for `designer_rating`: only that field changes. */
    method SetRating(value: string)
      modifies this
      ensures designerRating == Str(value)
      ensures designerId == old(designerId) && designerName == old(designerName)
      ensures designerTitle == old(designerTitle) && editingId == old(editingId)
    {
      designerRating := Str(value);
    }

    /** `handleImageChange` with the 449×449 rule. */
    method ChooseImage(picked: Option<FileMeta>, dataUrl: string)
      modifies image
      ensures picked == None ==> image.file == None && image.preview == "" && image.error == ""
      ensures picked != None && Validate(DesignerRule, picked.value) == None ==>
        image.file == picked && image.preview == dataUrl && image.error == ""
      ensures picked != None && Validate(DesignerRule, picked.value) != None ==>
        image.file == None && image.preview == "" && image.error == Validate(DesignerRule, picked.value).value
    {
      image.Choose(DesignerRule, picked, dataUrl);
    }

    /** The multipart body of `handleSubmit`. */
    function FormBody(): (parts: seq<FormPart>)
      reads this, image
      ensures Keys(parts) == ["designer_id", "designer_name", "designer_title", "designer_rating"]
        + (if image.file.Some? then ["img_path"] else []) + (if Truthy(editingId) then ["_method"] else [])
      ensures parts[..4] == [Field("designer_id", designerId), Field("designer_name", designerName),
        Field("designer_title", designerTitle), Field("designer_rating", designerRating)]
      ensures image.file.Some? ==> parts[4] == FilePart("img_path", image.file.value)
      ensures Truthy(editingId) ==> parts[|parts| - 1] == Field("_method", Str("PUT"))
    {
      var fields := [Field("designer_id", designerId), Field("designer_name", designerName),
                     Field("designer_title", designerTitle), Field("designer_rating", designerRating)];
      var file := FileIfChosen("img_path", image.file);
      var put := MethodOverride(editingId);
      KeysAppend(fields, file);
      KeysAppend(fields + file, put);
      assert Keys(fields) == ["designer_id", "designer_name", "designer_title", "designer_rating"];
      fields + file + put
    }

    /** `resetForm` */
    method ResetForm()
      modifies this, image
      ensures FormEmpty()
    {
      editingId := Null;
      designerId := Str("");
      designerName := Str("");
      designerTitle := Str("");
      designerRating := Str("");
      image.Clear();
    }

    /** A successful `handleSubmit`. */
    method Saved(record: Row<DesignerRecord>)
      modifies this, table, image
      ensures Truthy(old(editingId)) ==>
        table.rows == ReplaceById(old(table.rows), old(editingId), record) && table.total == old(table.total)
      ensures !Truthy(old(editingId)) ==>
        table.rows == [record] + old(table.rows) && table.total == old(table.total) + 1
      ensures FormEmpty()
    {
      table.Saved(editingId, record);
      ResetForm();
    }

    /** `handleEdit`: the designer id stringified, the stored image shown. */
    method Edit(item: Row<DesignerRecord>)
      modifies this, image
      ensures editingId == item.id && designerId == Str(ToStr(item.data.designerId))
      ensures designerName == item.data.designerName && designerTitle == item.data.designerTitle
      ensures designerRating == item.data.designerRating
      ensures image.preview ==
        (if Truthy(item.data.designerImage) then imgBase + ToStr(item.data.designerImage) else "")
      ensures image.file == old(image.file) && image.error == old(image.error)
    {
      editingId := item.id;
      designerId := Str(ToStr(item.data.designerId));
      designerName := item.data.designerName;
      designerTitle := item.data.designerTitle;
      designerRating := item.data.designerRating;
      if Truthy(item.data.designerImage) {
        image.ShowStored(imgBase + ToStr(item.data.designerImage));
      } else {
        image.ShowStored("");
      }
    }
  }
}
