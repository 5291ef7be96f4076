/** The category screen (src/components/pages/Category.jsx): a category has
    a type, a name and a 720×851 image; saving and deleting go through the
    data layer, which refetches the list, so the screen keeps only its form. */
module Category {
  import opened Js
  import opened Upload

  /** `CATEGORY_TYPES` */
  const CategoryTypes: seq<(string, string)> :=
    [("1", "Mens Wear"), ("2", "Women Wear"), ("3", "Kids Wear"), ("4", "Unisex Wear"), ("5", "Others")]

  /** The label of the first entry of `types` whose value is `key`. */
  function LabelOf(types: seq<(string, string)>, key: string): (text: Option<string>)
    ensures text.None? <==> forall i :: 0 <= i < |types| ==> types[i].0 != key
    ensures text.Some? ==> exists i :: 0 <= i < |types| && types[i].0 == key && types[i].1 == text.value
  {
    if types == [] then None
    else if types[0].0 == key then Some(types[0].1)
    else LabelOf(types[1..], key)
  }

  /** `getTypeLabel`: `CATEGORY_TYPES.find(t => t.value === String(value))?.label || "Unknown"`. */
  function TypeLabel(v: JsVal): (text: string)
  {
    var found := LabelOf(CategoryTypes, ToStr(v));
    if found.Some? && found.value != "" then found.value else "Unknown"
  }

  /** Each of the five values, as a number or a string, gets its label, and
      every other value is "Unknown". */
  lemma TypeLabels(v: JsVal)
    ensures ToStr(v) == "1" ==> TypeLabel(v) == "Mens Wear"
    ensures ToStr(v) == "2" ==> TypeLabel(v) == "Women Wear"
    ensures ToStr(v) == "3" ==> TypeLabel(v) == "Kids Wear"
    ensures ToStr(v) == "4" ==> TypeLabel(v) == "Unisex Wear"
    ensures ToStr(v) == "5" ==> TypeLabel(v) == "Others"
    ensures ToStr(v) !in ["1", "2", "3", "4", "5"] ==> TypeLabel(v) == "Unknown"
  {
    var k := ToStr(v);
    if k !in ["1", "2", "3", "4", "5"] {
      assert forall i :: 0 <= i < |CategoryTypes| ==> CategoryTypes[i].0 != k;
    } else if k == "1" {
      assert CategoryTypes[0] == ("1", "Mens Wear");
    } else {
      assert CategoryTypes[0].0 != k;
      assert CategoryTypes[1..] == [("2", "Women Wear"), ("3", "Kids Wear"), ("4", "Unisex Wear"), ("5", "Others")];
    }
  }

  /** The upload rule: JPEG or PNG, at most 2 MiB, exactly 720×851. */
  const CategoryRule := ImageRule(
    Some([Jpeg, Png, Jpg]), "Format must be JPEG or PNG",
    TwoMiB, "File size must be under 2MB",
    Some((720, 851)), "Dimensions must be 720x851 px")

  /** The checks run type, then size, then dimensions. */
  lemma CategoryRuleAccepts(f: FileMeta)
    ensures Validate(CategoryRule, f) == None <==>
      f.mime in ["image/jpeg", "image/png", "image/jpg"] && f.size <= 2097152
      && f.width == 720 && f.height == 851
    ensures f.mime !in ["image/jpeg", "image/png", "image/jpg"] ==>
      Validate(CategoryRule, f) == Some("Format must be JPEG or PNG")
    ensures f.mime in ["image/jpeg", "image/png", "image/jpg"] && f.size > 2097152 ==>
      Validate(CategoryRule, f) == Some("File size must be under 2MB")
    ensures f.mime in ["image/jpeg", "image/png", "image/jpg"] && f.size <= 2097152 && f.width != 720 ==>
      Validate(CategoryRule, f) == Some("Dimensions must be 720x851 px")
  {
  }

  /** A category row as the list returns it; older rows carry `type` and
      `name` instead of `category_type` and `category_name`. */
  datatype CategoryRecord = CategoryRecord(id: JsVal, categoryType: JsVal, kind: JsVal,
                                           categoryName: JsVal, name: JsVal, imgPath: JsVal)

  /** The type put in the form on edit: `String(category_type || type || "")`. */
  function EditedType(cat: CategoryRecord): (t: string)
    ensures Truthy(cat.categoryType) ==> t == ToStr(cat.categoryType)
    ensures !Truthy(cat.categoryType) && Truthy(cat.kind) ==> t == ToStr(cat.kind)
    ensures !Truthy(cat.categoryType) && !Truthy(cat.kind) ==> t == ""
  {
    ToStr(Or(Or(cat.categoryType, cat.kind), Str("")))
  }

  /** The name put in the form on edit: `category_name || name`. */
  function EditedName(cat: CategoryRecord): (n: JsVal)
    ensures Truthy(cat.categoryName) ==> n == cat.categoryName
    ensures !Truthy(cat.categoryName) ==> n == cat.name
  {
    Or(cat.categoryName, cat.name)
  }

  /** The mutation a submit runs, with its multipart body. */
  datatype CategoryRequest = UpdateCategory(id: JsVal, body: seq<FormPart>) | CreateCategory(body: seq<FormPart>)

  class CategoryScreen {
    const imgBase: string
    const image: ImageField

    var categoryType: string
    var categoryName: JsVal
    var editingId: JsVal
    /** The id awaiting confirmation in the delete dialog. */
    var toDelete: JsVal

    predicate FormEmpty()
      reads this, image
    {
      categoryType == "" && categoryName == Str("") && editingId == Null
      && image.file == None && image.preview == "" && image.error == ""
    }

    constructor(imgBase: string)
      ensures this.imgBase == imgBase && fresh(image) && toDelete == Null
      ensures FormEmpty()
    {
      this.imgBase := imgBase;
      image := new ImageField();
      categoryType := "";
      categoryName := Str("");
      editingId := Null;
      toDelete := Null;
    }

    /** `resetForm` */
    method ResetForm()
      modifies this, image
      ensures FormEmpty() && toDelete == old(toDelete)
    {
      categoryType := "";
      categoryName := Str("");
      editingId := Null;
      image.Clear();
    }

    /** `handleImageChange` with the 720×851 rule. */
    method ChooseImage(picked: Option<FileMeta>, dataUrl: string)
      modifies image
      ensures picked == None ==> image.file == None && image.preview == "" && image.error == ""
      ensures picked != None && Validate(CategoryRule, picked.value) == None ==>
        image.file == picked && image.preview == dataUrl && image.error == ""
      ensures picked != None && Validate(CategoryRule, picked.value) != None ==>
        image.file == None && image.preview == "" && image.error == Validate(CategoryRule, picked.value).value
    {
      image.Choose(CategoryRule, picked, dataUrl);
    }

    /** The multipart body of `handleSubmit`: type, name, and the image only
        when a validated file is held. The edited id selects the update call
        instead of a `_method` field. */
    function FormBody(): (parts: seq<FormPart>)
      reads this, image
      ensures Keys(parts) == ["category_type", "category_name"] + (if image.file.Some? then ["img_path"] else [])
      ensures parts[0] == Field("category_type", Str(categoryType)) && parts[1] == Field("category_name", categoryName)
      ensures image.file.Some? ==> parts[2] == FilePart("img_path", image.file.value)
    {
      var fields := [Field("category_type", Str(categoryType)), Field("category_name", categoryName)];
      var file := FileIfChosen("img_path", image.file);
      KeysAppend(fields, file);
      fields + file
    }

    /** The call `handleSubmit` makes: the update mutation of the edited id
        when there is one, else the create mutation, both with `FormBody`. */
    function Submit(): (req: CategoryRequest)
      reads this, image
      ensures req.UpdateCategory? <==> Truthy(editingId)
      ensures req.UpdateCategory? ==> req.id == editingId
      ensures req.body == FormBody()
    {
      if Truthy(editingId) then UpdateCategory(editingId, FormBody()) else CreateCategory(FormBody())
    }

    /** A save whose reply reports success resets the form; otherwise the
        form stays as it is. */
    method SaveReplied(status: bool)
      modifies this, image
      ensures status ==> FormEmpty()
      ensures !status ==>
        categoryType == old(categoryType) && categoryName == old(categoryName)
        && editingId == old(editingId) && image.file == old(image.file)
        && image.preview == old(image.preview) && image.error == old(image.error)
      ensures toDelete == old(toDelete)
    {
      if status {
        ResetForm();
      }
    }

    /** `handleEditClick`: the type and name with their fallbacks; the stored
        image, when there is one, becomes the preview, and otherwise the
        preview is left as it was. */
    method Edit(cat: CategoryRecord)
      modifies this, image
      ensures editingId == cat.id && categoryType == EditedType(cat) && categoryName == EditedName(cat)
      ensures Truthy(cat.imgPath) ==> image.preview == imgBase + ToStr(cat.imgPath)
      ensures !Truthy(cat.imgPath) ==> image.preview == old(image.preview)
      ensures image.file == old(image.file) && image.error == old(image.error)
      ensures toDelete == old(toDelete)
      ensures Truthy(cat.id) ==> Submit().UpdateCategory? && Submit().id == cat.id
    {
      editingId := cat.id;
      categoryType := EditedType(cat);
      categoryName := EditedName(cat);
      if Truthy(cat.imgPath) {
        image.ShowStored(imgBase + ToStr(cat.imgPath));
      }
    }

    /** `initiateDelete` */
    method AskDelete(id: JsVal)
      modifies this
      ensures toDelete == id
      ensures categoryType == old(categoryType) && categoryName == old(categoryName) && editingId == old(editingId)
    {
      toDelete := id;
    }

    /** `confirmDelete`: nothing without a pending id; otherwise the pending
        id is the one deleted, and the dialog clears it once the call settles. */
    method ConfirmDelete() returns (deleted: Option<JsVal>)
      modifies this
      ensures !Truthy(old(toDelete)) ==> deleted == None && toDelete == old(toDelete)
      ensures Truthy(old(toDelete)) ==> deleted == Some(old(toDelete)) && toDelete == Null
      ensures categoryType == old(categoryType) && categoryName == old(categoryName) && editingId == old(editingId)
    {
      if !Truthy(toDelete) {
        return None;
      }
      deleted := Some(toDelete);
      toDelete := Null;
    }
  }
}
