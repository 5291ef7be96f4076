/** The subcategory screen (src/components/pages/Subcategory.jsx): a
    category type narrows the categories offered, a subcategory is saved with
    an optional image, and the table row shown after a save is assembled
    locally from the form and the server's reply. */
module Subcategory {
  import opened Js
  import Lists
  import opened LocalTable
  import opened Upload

  /** A category of the dropdown data; its type sits in `type` or, on older
      records, in `category_type`. */
  datatype Category = Category(id: JsVal, kind: JsVal, categoryType: JsVal)

  /** A subcategory row; `category` is the related category, `None` when
      the reply leaves it out. */
  datatype SubRecord = SubRecord(name: JsVal, categoryType: JsVal, categoryId: JsVal,
                                 category: Option<Category>, imgPath: JsVal)

  /** `CATEGORY_TYPES` */
  const CategoryTypeValues: seq<string> := ["1", "2", "3", "4"]

  /** `getTypeLabel` */
  function TypeLabel(v: JsVal): (text: string)
    ensures ToStr(v) == "1" ==> text == "Mens Wear"
    ensures ToStr(v) == "2" ==> text == "Women Wear"
    ensures ToStr(v) == "3" ==> text == "Kids Wear"
    ensures ToStr(v) == "4" ==> text == "Unisex Wear"
    ensures ToStr(v) !in CategoryTypeValues ==> text == "N/A"
  {
    match ToStr(v)
    case "1" => "Mens Wear"
    case "2" => "Women Wear"
    case "3" => "Kids Wear"
    case "4" => "Unisex Wear"
    case _ => "N/A"
  }

  /** `c.type || c.category_type` */
  function Kind(c: Category): JsVal
  {
    Or(c.kind, c.categoryType)
  }

  /** The type → category filter: nothing without a type, else the
      categories whose `type || category_type` string-equals it. */
  function FilteredCategories(all: seq<Category>, categoryType: JsVal): (r: seq<Category>)
    ensures Lists.Subsequence(r, all)
    ensures !Truthy(categoryType) ==> r == []
    ensures Truthy(categoryType) ==> forall c :: c in r <==> c in all && SameId(Kind(c), categoryType)
    ensures Truthy(categoryType) ==>
      forall c :: multiset(r)[c] ==
        (if SameId(Kind(c), categoryType) then multiset(all)[c] else 0)
  {
    if !Truthy(categoryType) then []
    else
      var p := (c: Category) => SameId(Kind(c), categoryType);
      Lists.FilterCounts(all, p);
      Lists.Filter(all, p)
  }

  /** `allCategories.find(c => String(c.id) === String(id))` */
  function FindCategory(all: seq<Category>, id: JsVal): (r: Option<Category>)
    ensures r.Some? ==> r.value in all && SameId(r.value.id, id)
    ensures r.None? ==> forall i :: 0 <= i < |all| ==> !SameId(all[i].id, id)
    ensures r.Some? ==> exists j :: 0 <= j < |all| && r.value == all[j]
                          && forall k :: 0 <= k < j ==> !SameId(all[k].id, id)
  {
    Lists.Find(all, (c: Category) => SameId(c.id, id))
  }

  /** The upload rule: JPEG or PNG, at most 2 MiB, any dimensions. */
  const ImageRuleOfSubcategory := ImageRule(
    Some([Jpeg, Png, Jpg]), "Format must be JPEG or PNG",
    TwoMiB, "File size must be under 2MB",
    None, "")

  lemma ImageRuleAccepts(f: FileMeta)
    ensures Validate(ImageRuleOfSubcategory, f) == None <==>
      f.mime in ["image/jpeg", "image/png", "image/jpg"] && f.size <= 2097152
    ensures f.mime in ["image/jpeg", "image/png", "image/jpg"] && f.size > 2097152 ==>
      Validate(ImageRuleOfSubcategory, f) == Some("File size must be under 2MB")
  {
  }

  /** `newTableRecord`: the reply's fields (`{}` when there is no reply),
      overridden by the form's name, type and category id; the category
      relation is the reply's, else the local lookup by the form's category id. */
  function NewTableRecord(reply: Option<Row<SubRecord>>, all: seq<Category>,
                          name: JsVal, categoryType: JsVal, categoryId: JsVal): (r: Row<SubRecord>)
    ensures r.data.name == name && r.data.categoryType == categoryType && r.data.categoryId == categoryId
    ensures reply.Some? ==> r.id == reply.value.id && r.data.imgPath == reply.value.data.imgPath
    ensures reply.None? ==> r.id == Undefined && r.data.imgPath == Undefined
    ensures reply.Some? && reply.value.data.category.Some? ==> r.data.category == reply.value.data.category
    ensures (reply.None? || reply.value.data.category.None?) ==> r.data.category == FindCategory(all, categoryId)
  {
    var id := if reply.Some? then reply.value.id else Undefined;
    var returned := if reply.Some? then reply.value.data.category else None;
    var img := if reply.Some? then reply.value.data.imgPath else Undefined;
    var category := if returned.Some? then returned else FindCategory(all, categoryId);
    Row(id, SubRecord(name, categoryType, categoryId, category, img))
  }

  /** What `handleEdit` puts in the type field:
      `String(item.category?.type || item.category_type)`. */
  function EditedType(item: SubRecord): string
  {
    ToStr(Or(if item.category.Some? then item.category.value.kind else Undefined, item.categoryType))
  }

  /** Saving and then editing gives the form back: the row built from the
      form holds the form's type, category id and name, and the edit reads
      them back. The type read back comes from the row's category relation
      when that has a `type`, so the lemma asks that this relation agrees
      with the form: the one the reply carries has the form's type (when it
      has one), and without one in the reply, the category found for the
      chosen id is one the type filter offers. */
  lemma EditAfterSaveRestoresForm(reply: Option<Row<SubRecord>>, all: seq<Category>,
                                   name: JsVal, categoryType: string, categoryId: string)
    requires reply.Some? && reply.value.data.category.Some? && Truthy(reply.value.data.category.value.kind) ==>
      ToStr(reply.value.data.category.value.kind) == categoryType
    requires (reply.None? || reply.value.data.category.None?) && FindCategory(all, Str(categoryId)).Some? ==>
      SameId(Kind(FindCategory(all, Str(categoryId)).value), Str(categoryType))
    ensures var row := NewTableRecord(reply, all, name, Str(categoryType), Str(categoryId));
      EditedType(row.data) == categoryType
      && ToStr(row.data.categoryId) == categoryId
      && row.data.name == name
  {
    var row := NewTableRecord(reply, all, name, Str(categoryType), Str(categoryId));
    if reply.None? || reply.value.data.category.None? {
      var found := FindCategory(all, Str(categoryId));
      if found.Some? && Truthy(found.value.kind) {
        assert Kind(found.value) == found.value.kind;
      }
    }
  }

  class SubcategoryScreen {
    const all: seq<Category>
    const imgBase: string
    const table: Table<SubRecord>
    const image: ImageField

    var categoryType: JsVal
    var categoryId: JsVal
    var name: JsVal
    var editingId: JsVal

    predicate FormEmpty()
      reads this, image
    {
      categoryType == Str("") && categoryId == Str("") && name == Str("") && editingId == Null
      && image.file == None && image.preview == "" && image.error == ""
    }

    constructor(all: seq<Category>, imgBase: string, rows: seq<Row<SubRecord>>, total: int)
      ensures this.all == all && this.imgBase == imgBase
      ensures fresh(table) && fresh(image) && table.rows == rows && table.total == total
      ensures table.deleteId == Null
      ensures FormEmpty()
    {
      this.all := all;
      this.imgBase := imgBase;
      table := new Table(rows, total);
      image := new ImageField();
      categoryType := Str("");
      categoryId := Str("");
      name := Str("");
      editingId := Null;
    }

    /** The category dropdown (`filteredCategories`). */
    function OfferedCategories(): seq<Category>
      reads this
    {
      FilteredCategories(all, categoryType)
    }

    /** `handleInputChange` for `category_type`: the category id is cleared. */
    method ChangeCategoryType(value: string)
      modifies this
      ensures categoryType == Str(value) && categoryId == Str("")
      ensures name == old(name) && editingId == old(editingId)
    {
      categoryType := Str(value);
      categoryId := Str("");
    }

    /** `handleInputChange` for `category_id`: only that field changes. */
    method ChangeCategory(value: string)
      modifies this
      ensures categoryId == Str(value)
      ensures categoryType == old(categoryType) && name == old(name) && editingId == old(editingId)
    {
      categoryId := Str(value);
    }

    /** `handleInputChange` for `name`: only that field changes. */
    method ChangeName(value: string)
      modifies this
      ensures name == Str(value)
      ensures categoryType == old(categoryType) && categoryId == old(categoryId)
      ensures editingId == old(editingId)
    {
      name := Str(value);
    }

    /** `handleImageChange` */
    method ChooseImage(picked: Option<FileMeta>, dataUrl: string)
      modifies image
      ensures picked == None ==> image.file == None && image.preview == "" && image.error == ""
      ensures picked != None && Validate(ImageRuleOfSubcategory, picked.value) == None ==>
        image.file == picked && image.preview == dataUrl && image.error == ""
      ensures picked != None && Validate(ImageRuleOfSubcategory, picked.value) != None ==>
        image.file == None && image.preview == ""
        && image.error == Validate(ImageRuleOfSubcategory, picked.value).value
    {
      image.Choose(ImageRuleOfSubcategory, picked, dataUrl);
    }

    /** The multipart body of `handleSubmit`. */
    function FormBody(): (parts: seq<FormPart>)
      reads this, image
      ensures Keys(parts) == ["category_type", "category_id", "name"]
        + (if image.file.Some? then ["img_path"] else []) + (if Truthy(editingId) then ["_method"] else [])
      ensures parts[..3] == [Field("category_type", categoryType), Field("category_id", categoryId), Field("name", name)]
      ensures image.file.Some? ==> parts[3] == FilePart("img_path", image.file.value)
      ensures Truthy(editingId) ==> parts[|parts| - 1] == Field("_method", Str("PUT"))
    {
      var fields := [Field("category_type", categoryType), Field("category_id", categoryId),
                     Field("name", name)];
      var file := FileIfChosen("img_path", image.file);
      var put := MethodOverride(editingId);
      KeysAppend(fields, file);
      KeysAppend(fields + file, put);
      assert Keys(fields) == ["category_type", "category_id", "name"];
      fields + file + put
    }

    /** `resetForm` */
    method ResetForm()
      modifies this, image
      ensures FormEmpty()
    {
      editingId := Null;
      categoryType := Str("");
      categoryId := Str("");
      name := Str("");
      image.Clear();
    }

    /** A successful `handleSubmit`: the locally assembled row replaces the
        edited rows or is prepended; then the form is reset. */
    method Saved(reply: Option<Row<SubRecord>>)
      modifies this, table, image
      ensures var row := NewTableRecord(reply, all, old(name), old(categoryType), old(categoryId));
        (Truthy(old(editingId)) ==>
          table.rows == ReplaceById(old(table.rows), old(editingId), row) && table.total == old(table.total))
        && (!Truthy(old(editingId)) ==>
          table.rows == [row] + old(table.rows) && table.total == old(table.total) + 1)
      ensures FormEmpty()
    {
      var row := NewTableRecord(reply, all, name, categoryType, categoryId);
      table.Saved(editingId, row);
      ResetForm();
    }

    /** `handleEdit` */
    method Edit(item: Row<SubRecord>)
      modifies this, image
      ensures editingId == item.id && name == item.data.name
      ensures categoryType == Str(EditedType(item.data))
      ensures categoryId == Str(ToStr(item.data.categoryId))
      ensures image.preview == (if Truthy(item.data.imgPath) then imgBase + ToStr(item.data.imgPath) else "")
      ensures image.file == old(image.file) && image.error == old(image.error)
    {
      editingId := item.id;
      categoryType := Str(EditedType(item.data));
      categoryId := Str(ToStr(item.data.categoryId));
      name := item.data.name;
      if Truthy(item.data.imgPath) {
        image.ShowStored(imgBase + ToStr(item.data.imgPath));
      } else {
        image.ShowStored("");
      }
    }
  }
}
