/** The measurement-mapping form: a gender picks the categories and the
    measurements offered, a category picks the subcategories offered, and the
    subcategory and measurement selections are id lists toggled one id at a
    time (src/components/pages/MeasurementMapping.jsx). */
module MeasurementMapping {
  import opened Js
  import Lists

  /** The fetched lists, reduced to the fields the form reads. */
  datatype Category = Category(id: JsVal, kind: JsVal)
  datatype Subcategory = Subcategory(id: JsVal, categoryId: JsVal)
  datatype Measurement = Measurement(id: JsVal, kind: JsVal)

  /** A stored mapping as the table row hands it to `handleEdit`;
      `None` is a missing `subcategories` / `measurements` array. */
  datatype MappingRow = MappingRow(id: JsVal, name: JsVal, categoryId: JsVal, gender: JsVal,
                                   subcategoryIds: Option<seq<JsVal>>,
                                   measurementIds: Option<seq<JsVal>>)

  /** The body of the create / update request. */
  datatype Payload = Payload(name: JsVal, categoryId: JsVal, subcategoryIds: seq<JsVal>,
                             gender: JsVal, measurementIds: seq<JsVal>)

  /** What a submit does: refuse with a warning, create, or update `id`. */
  datatype Submission = Refused | Create(payload: Payload) | Update(id: JsVal, payload: Payload)

  /** `GENDER_TYPES` */
  const GenderValues: seq<string> := ["1", "2", "3", "4", "5"]

  /** `getGenderLabel`: the label of the gender whose value is `String(v)`. */
  function GenderLabel(v: JsVal): (text: string)
    ensures ToStr(v) == "1" ==> text == "Men"
    ensures ToStr(v) == "2" ==> text == "Women"
    ensures ToStr(v) == "3" ==> text == "Kids"
    ensures ToStr(v) == "4" ==> text == "Unisex"
    ensures ToStr(v) == "5" ==> text == "Others"
    ensures ToStr(v) !in GenderValues ==> text == "Unknown"
  {
    match ToStr(v)
    case "1" => "Men"
    case "2" => "Women"
    case "3" => "Kids"
    case "4" => "Unisex"
    case "5" => "Others"
    case _ => "Unknown"
  }

  /** `filteredCategories`: nothing without a gender, else the categories
      whose `String(type)` is the gender's, in fetched order. */
  function FilteredCategories(categories: seq<Category>, gender: JsVal): (r: seq<Category>)
    ensures Lists.Subsequence(r, categories)
    ensures Truthy(gender) ==> forall c :: multiset(r)[c] == (if SameId(c.kind, gender) then multiset(categories)[c] else 0)
    ensures !Truthy(gender) ==> r == []
    ensures Truthy(gender) ==> forall c :: c in r <==> c in categories && SameId(c.kind, gender)
  {
    if !Truthy(gender) then []
    else
      var p := (c: Category) => SameId(c.kind, gender);
      Lists.FilterCounts(categories, p);
      Lists.Filter(categories, p)
  }

  /** `filteredSubcategories`: nothing without a category, else the
      subcategories whose `category_id` string-equals it. */
  function FilteredSubcategories(subcategories: seq<Subcategory>, category: JsVal): (r: seq<Subcategory>)
    ensures Lists.Subsequence(r, subcategories)
    ensures !Truthy(category) ==> r == []
    ensures Truthy(category) ==> forall s :: s in r <==> s in subcategories && SameId(s.categoryId, category)
    ensures Truthy(category) ==>
      forall s :: multiset(r)[s] ==
        (if SameId(s.categoryId, category) then multiset(subcategories)[s] else 0)
  {
    if !Truthy(category) then []
    else
      var p := (s: Subcategory) => SameId(s.categoryId, category);
      Lists.FilterCounts(subcategories, p);
      Lists.Filter(subcategories, p)
  }

  /** `filteredMeasurements`: it reads the gender and never the category. */
  function FilteredMeasurements(measurements: seq<Measurement>, gender: JsVal): (r: seq<Measurement>)
    ensures Lists.Subsequence(r, measurements)
    ensures !Truthy(gender) ==> r == []
    ensures Truthy(gender) ==> forall m :: m in r <==> m in measurements && SameId(m.kind, gender)
    ensures Truthy(gender) ==>
      forall m :: multiset(r)[m] ==
        (if SameId(m.kind, gender) then multiset(measurements)[m] else 0)
  {
    if !Truthy(gender) then []
    else
      var p := (m: Measurement) => SameId(m.kind, gender);
      Lists.FilterCounts(measurements, p);
      Lists.Filter(measurements, p)
  }

  predicate SubOffered(subs: seq<Subcategory>, id: JsVal)
  {
    exists i :: 0 <= i < |subs| && subs[i].id == id
  }

  predicate MeasurementOffered(ms: seq<Measurement>, id: JsVal)
  {
    exists i :: 0 <= i < |ms| && ms[i].id == id
  }

  /** `row.subcategories?.map(s => s.id) || []` (an array, even an empty one,
      is truthy, so only a missing array gives `[]`). */
  function IdsOrEmpty(ids: Option<seq<JsVal>>): (r: seq<JsVal>)
    ensures ids.Some? ==> r == ids.value
    ensures ids.None? ==> r == []
  {
    if ids.Some? then ids.value else []
  }

  class MappingForm {
    const categories: seq<Category>
    const subcategories: seq<Subcategory>
    const measurements: seq<Measurement>

    var name: JsVal
    var category: JsVal
    var selectedSubs: seq<JsVal>
    var gender: JsVal
    var selectedMeasurements: seq<JsVal>
    var editingId: JsVal

    /** The form state every reset returns to. */
    predicate IsEmpty()
      reads this
    {
      name == Str("") && category == Str("") && selectedSubs == [] && gender == Str("")
      && selectedMeasurements == [] && editingId == Null
    }

    /** The cascade invariant the form keeps while the user picks: every
        selected subcategory is offered under the chosen category and every
        selected measurement under the chosen gender. The category tier
        (the chosen category offered under the chosen gender) is not part of
        it: `SelectCategory` takes any value, as the handler does, and the
        dropdown that offers only `FilteredCategories` is not modelled. */
    predicate Consistent()
      reads this
    {
      (forall i :: 0 <= i < |selectedSubs| ==>
        SubOffered(FilteredSubcategories(subcategories, category), selectedSubs[i]))
      && (forall i :: 0 <= i < |selectedMeasurements| ==>
        MeasurementOffered(FilteredMeasurements(measurements, gender), selectedMeasurements[i]))
    }

    constructor(categories: seq<Category>, subcategories: seq<Subcategory>, measurements: seq<Measurement>)
      ensures this.categories == categories && this.subcategories == subcategories
      ensures this.measurements == measurements
      ensures IsEmpty() && Consistent()
    {
      this.categories := categories;
      this.subcategories := subcategories;
      this.measurements := measurements;
      name := Str("");
      category := Str("");
      selectedSubs := [];
      gender := Str("");
      selectedMeasurements := [];
      editingId := Null;
    }

    /** `resetForm` */
    method ResetForm()
      modifies this
      ensures IsEmpty() && Consistent()
    {
      name := Str("");
      category := Str("");
      selectedSubs := [];
      gender := Str("");
      selectedMeasurements := [];
      editingId := Null;
    }

    /** The mapping-name input. */
    method SetName(value: string)
      modifies this
      ensures name == Str(value)
      ensures category == old(category) && gender == old(gender) && editingId == old(editingId)
      ensures selectedSubs == old(selectedSubs) && selectedMeasurements == old(selectedMeasurements)
    {
      name := Str(value);
    }

    /** A gender button: the gender is set and the category and both
        selections are cleared. */
    method SelectGender(value: string)
      modifies this
      ensures gender == Str(value) && category == Str("")
      ensures selectedSubs == [] && selectedMeasurements == []
      ensures name == old(name) && editingId == old(editingId)
      ensures Consistent()
    {
      gender := Str(value);
      category := Str("");
      selectedSubs := [];
      selectedMeasurements := [];
    }

    /** The category select: the category is set and only the subcategory
        selection is cleared; the offered measurements do not change. */
    method SelectCategory(value: string)
      modifies this
      ensures category == Str(value) && selectedSubs == []
      ensures gender == old(gender) && selectedMeasurements == old(selectedMeasurements)
      ensures name == old(name) && editingId == old(editingId)
      ensures FilteredMeasurements(measurements, gender) == old(FilteredMeasurements(measurements, gender))
      ensures old(Consistent()) ==> Consistent()
    {
      category := Str(value);
      selectedSubs := [];
    }

    /** `toggleSubcategory`; the measurement selection is untouched. */
    method ToggleSubcategory(id: JsVal)
      modifies this
      ensures selectedSubs == Lists.Toggle(old(selectedSubs), id)
      ensures selectedMeasurements == old(selectedMeasurements)
      ensures name == old(name) && category == old(category) && gender == old(gender)
      ensures editingId == old(editingId)
      ensures old(Consistent()) && SubOffered(FilteredSubcategories(subcategories, category), id) ==> Consistent()
    {
      selectedSubs := Lists.Toggle(selectedSubs, id);
    }

    /** `toggleMeasurement`; the subcategory selection is untouched. */
    method ToggleMeasurement(id: JsVal)
      modifies this
      ensures selectedMeasurements == Lists.Toggle(old(selectedMeasurements), id)
      ensures selectedSubs == old(selectedSubs)
      ensures name == old(name) && category == old(category) && gender == old(gender)
      ensures editingId == old(editingId)
      ensures old(Consistent()) && MeasurementOffered(FilteredMeasurements(measurements, gender), id) ==> Consistent()
    {
      selectedMeasurements := Lists.Toggle(selectedMeasurements, id);
    }

    /** `handleSubmit`: refused while either selection is empty; otherwise
        the payload carries exactly the form state, sent as an update when an
        id is being edited and as a create otherwise. */
    function Submit(): (s: Submission)
      reads this
      ensures s == Refused <==> selectedSubs == [] || selectedMeasurements == []
      ensures s != Refused ==>
        s.payload == Payload(name, category, selectedSubs, gender, selectedMeasurements)
      ensures s.Update? <==> s != Refused && Truthy(editingId)
      ensures s.Update? ==> s.id == editingId
    {
      if |selectedSubs| == 0 || |selectedMeasurements| == 0 then Refused
      else
        var p := Payload(name, category, selectedSubs, gender, selectedMeasurements);
        if Truthy(editingId) then Update(editingId, p) else Create(p)
    }

    /** `handleEdit`: the form takes the row's values as they are, the id
        lists defaulting to empty. */
    method Edit(row: MappingRow)
      modifies this
      ensures editingId == row.id && name == row.name && category == row.categoryId
      ensures gender == row.gender
      ensures selectedSubs == IdsOrEmpty(row.subcategoryIds)
      ensures selectedMeasurements == IdsOrEmpty(row.measurementIds)
    {
      editingId := row.id;
      name := row.name;
      category := row.categoryId;
      selectedSubs := IdsOrEmpty(row.subcategoryIds);
      gender := row.gender;
      selectedMeasurements := IdsOrEmpty(row.measurementIds);
    }
  }
}
