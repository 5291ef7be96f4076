/** The measurement screen (src/components/pages/MeasurementMaster.jsx): a
    measurement part has a name, a type, an image and one value per active
    size; a submit is refused while some active size has no value, and a new
    part also needs an image. */
module MeasurementMaster {
  import opened Js
  import Lists

  /** The value typed for a size counts when `value?.toString()?.trim()` is
      a non-empty string. */
  predicate Provided(v: JsVal)
  {
    !v.Undefined? && !v.Null? && Trim(ToStr(v)) != ""
  }

  /** The active size names without a provided value, in the order of the
      active sizes; keys of `values` that are not active sizes are ignored. */
  function MissingSizes(active: seq<string>, values: map<string, JsVal>): (missing: seq<string>)
    ensures Lists.Subsequence(missing, active)
    ensures forall x :: multiset(missing)[x] == (if x !in values || !Provided(values[x]) then multiset(active)[x] else 0)
    ensures forall i :: 0 <= i < |missing| ==> missing[i] in active
    ensures forall i :: 0 <= i < |missing| ==> missing[i] !in values || !Provided(values[missing[i]])
    ensures forall i :: 0 <= i < |active| && (active[i] !in values || !Provided(values[active[i]])) ==>
      active[i] in missing
  {
    var p := (name: string) => name !in values || !Provided(values[name]);
    Lists.FilterCounts(active, p);
    Lists.Filter(active, p)
  }

  /** Nothing is missing exactly when every active size has a value. */
  lemma NothingMissing(active: seq<string>, values: map<string, JsVal>)
    ensures MissingSizes(active, values) == [] <==>
      forall i :: 0 <= i < |active| ==> active[i] in values && Provided(values[active[i]])
  {
    var missing := MissingSizes(active, values);
    if missing != [] {
      assert missing[0] in active;
    }
  }

  /** Extra keys do not matter: adding a value under a name that is not an
      active size leaves the missing list as it was. */
  lemma ExtraKeysIgnored(active: seq<string>, values: map<string, JsVal>, extra: string, v: JsVal)
    requires extra !in active
    ensures MissingSizes(active, values[extra := v]) == MissingSizes(active, values)
  {
    var p := (name: string) => name !in values || !Provided(values[name]);
    var q := (name: string) => name !in values[extra := v] || !Provided(values[extra := v][name]);
    SameFilter(active, p, q);
  }

  lemma {:induction false} SameFilter(s: seq<string>, p: string -> bool, q: string -> bool)
    requires forall i :: 0 <= i < |s| ==> p(s[i]) == q(s[i])
    ensures Lists.Filter(s, p) == Lists.Filter(s, q)
    decreases |s|
  {
    if s != [] {
      SameFilter(s[1..], p, q);
    }
  }

  /** The parsed result of `JSON.parse` on a stored `size_values` string. */
  datatype Json = JsonArray | JsonObject(fields: map<string, JsVal>) | JsonScalar

  /** `item.size_values` / `item.size_details` as the list returns them. */
  datatype SizesField = Missing | TextField(s: string) | ArrayField | ObjectField(fields: map<string, JsVal>)

  /** JavaScript truthiness of such a field (an array or object is truthy
      even when empty). */
  predicate SizesTruthy(f: SizesField)
  {
    match f
    case Missing => false
    case TextField(s) => s != ""
    case ArrayField => true
    case ObjectField(_) => true
  }

  /** The size map shown on edit and in the view dialog:
      `size_values || size_details || {}`, a string parsed (with `{}` when
      the parse fails), and an array replaced by `{}`. `parse` is
      `JSON.parse`, `None` when it throws. */
  function NormalisedSizes(sizeValues: SizesField, sizeDetails: SizesField, parse: string -> Option<Json>): (m: map<string, JsVal>)
  {
    var raw := if SizesTruthy(sizeValues) then sizeValues
               else if SizesTruthy(sizeDetails) then sizeDetails
               else ObjectField(map[]);
    match raw
    case TextField(s) =>
      (match parse(s)
       case Some(JsonObject(fields)) => fields
       case _ => map[])
    case ObjectField(fields) => fields
    case _ => map[]
  }

  /** An object is kept as it is; an array, an unparsable string and two
      missing fields all give the empty map; a string is read as the object
      it encodes. */
  lemma NormalisedSizesCases(sizeValues: SizesField, sizeDetails: SizesField, parse: string -> Option<Json>)
    ensures sizeValues.ObjectField? ==> NormalisedSizes(sizeValues, sizeDetails, parse) == sizeValues.fields
    ensures sizeValues.ArrayField? ==> NormalisedSizes(sizeValues, sizeDetails, parse) == map[]
    ensures sizeValues.TextField? && sizeValues.s != "" && parse(sizeValues.s) == None ==>
      NormalisedSizes(sizeValues, sizeDetails, parse) == map[]
    ensures sizeValues.TextField? && sizeValues.s != "" && parse(sizeValues.s).Some? && parse(sizeValues.s).value.JsonObject?
      ==> NormalisedSizes(sizeValues, sizeDetails, parse) == parse(sizeValues.s).value.fields
    ensures !SizesTruthy(sizeValues) && !SizesTruthy(sizeDetails) ==>
      NormalisedSizes(sizeValues, sizeDetails, parse) == map[]
    ensures !SizesTruthy(sizeValues) ==>
      NormalisedSizes(sizeValues, sizeDetails, parse) == NormalisedSizes(sizeDetails, Missing, parse)
  {
  }

  /** The type badge of a row: `type_name`, else the label of `type` 1 to 4,
      else "N/A". */
  function TypeBadge(kind: JsVal, typeName: JsVal): (text: JsVal)
    ensures Truthy(typeName) ==> text == typeName
    ensures !Truthy(typeName) && ToStr(kind) == "1" ==> text == Str("Men")
    ensures !Truthy(typeName) && ToStr(kind) == "2" ==> text == Str("Women")
    ensures !Truthy(typeName) && ToStr(kind) == "3" ==> text == Str("Kids")
    ensures !Truthy(typeName) && ToStr(kind) == "4" ==> text == Str("Unisex")
    ensures !Truthy(typeName) && ToStr(kind) !in ["1", "2", "3", "4"] ==> text == Str("N/A")
  {
    var shown := match ToStr(kind)
      case "1" => "Men"
      case "2" => "Women"
      case "3" => "Kids"
      case "4" => "Unisex"
      case _ => "N/A";
    Or(typeName, Str(shown))
  }

  /** The request `handleSubmit` sends (the size map goes as
      `JSON.stringify(sizeValues)`). */
  datatype MeasurementPayload = MeasurementPayload(name: JsVal, kind: string,
                                                   sizeValues: map<string, JsVal>, image: Option<string>)

  datatype SubmitOutcome =
    | MissingValues(names: seq<string>)
    | ImageRequired
    | Create(payload: MeasurementPayload)
    | Update(id: JsVal, payload: MeasurementPayload)

  /** A measurement row as the list returns it. */
  datatype MeasurementRecord = MeasurementRecord(id: JsVal, name: JsVal, kind: JsVal, image: JsVal,
                                                 sizeValues: SizesField, sizeDetails: SizesField)

  class MeasurementForm {
    const activeSizes: seq<string>
    const parse: string -> Option<Json>

    var name: JsVal
    var kind: string
    var sizeValues: map<string, JsVal>
    /** The chosen file, named by its data. */
    var image: Option<string>
    var preview: JsVal
    var editingId: JsVal

    predicate IsReset()
      reads this
    {
      name == Str("") && kind == "1" && sizeValues == map[] && image == None && preview == Null
      && editingId == Null
    }

    constructor(activeSizes: seq<string>, parse: string -> Option<Json>)
      ensures this.activeSizes == activeSizes && this.parse == parse
      ensures IsReset()
    {
      this.activeSizes := activeSizes;
      this.parse := parse;
      name := Str("");
      kind := "1";
      sizeValues := map[];
      image := None;
      preview := Null;
      editingId := Null;
    }

    /** `resetForm` */
    method ResetForm()
      modifies this
      ensures IsReset()
    {
      name := Str("");
      kind := "1";
      sizeValues := map[];
      image := None;
      preview := Null;
      editingId := Null;
    }

    /** `handleSizeValueChange`: exactly one key is set. */
    method SetSizeValue(sizeName: string, value: JsVal)
      modifies this
      ensures sizeValues == old(sizeValues)[sizeName := value]
      ensures sizeName in sizeValues && sizeValues[sizeName] == value
      ensures forall k :: k in old(sizeValues) && k != sizeName ==> k in sizeValues && sizeValues[k] == old(sizeValues)[k]
      ensures sizeValues.Keys == old(sizeValues).Keys + {sizeName}
      ensures name == old(name) && kind == old(kind) && image == old(image) && editingId == old(editingId)
      ensures preview == old(preview)
    {
      sizeValues := sizeValues[sizeName := value];
    }

    /** `handleImageChange`: a chosen file and its data URL; no file, no change. */
    method ChooseImage(picked: Option<string>, dataUrl: string)
      modifies this
      ensures picked.Some? ==> image == picked && preview == Str(dataUrl)
      ensures picked.None? ==> image == old(image) && preview == old(preview)
      ensures name == old(name) && kind == old(kind) && sizeValues == old(sizeValues)
      ensures editingId == old(editingId)
    {
      if picked.Some? {
        image := picked;
        preview := Str(dataUrl);
      }
    }

    /** `handleSubmit`: the size check first, then (creating only) the image
        check, then the create or update request. */
    function Submit(): (out: SubmitOutcome)
      reads this
      ensures MissingSizes(activeSizes, sizeValues) != [] <==> out.MissingValues?
      ensures out.MissingValues? ==> out.names == MissingSizes(activeSizes, sizeValues)
      ensures out.ImageRequired? <==>
        MissingSizes(activeSizes, sizeValues) == [] && !Truthy(editingId) && image.None?
      ensures out.Update? ==> Truthy(editingId) && out.id == editingId
      ensures out.Update? <==> MissingSizes(activeSizes, sizeValues) == [] && Truthy(editingId)
      ensures out.Create? <==> MissingSizes(activeSizes, sizeValues) == [] && !Truthy(editingId) && image.Some?
      ensures out.Create? || out.Update? ==>
        out.payload == MeasurementPayload(name, kind, sizeValues, image)
        && forall i :: 0 <= i < |activeSizes| ==>
             activeSizes[i] in sizeValues && Provided(sizeValues[activeSizes[i]])
      ensures out.Create? ==> image.Some?
    {
      var missing := MissingSizes(activeSizes, sizeValues);
      NothingMissing(activeSizes, sizeValues);
      var payload := MeasurementPayload(name, kind, sizeValues, image);
      if missing != [] then MissingValues(missing)
      else if Truthy(editingId) then Update(editingId, payload)
      else if image.None? then ImageRequired
      else Create(payload)
    }

    /** A save whose reply reports success resets the form. */
    method SaveReplied(status: bool)
      modifies this
      ensures status ==> IsReset()
      ensures !status ==>
        name == old(name) && kind == old(kind) && sizeValues == old(sizeValues)
        && image == old(image) && preview == old(preview) && editingId == old(editingId)
    {
      if status {
        ResetForm();
      }
    }

    /** `handleEditClick`: the name (or ""), the type as a string (or "1"),
        the stored image as the preview, the normalised size map, no file. */
    method Edit(item: MeasurementRecord)
      modifies this
      ensures editingId == item.id
      ensures name == Or(item.name, Str(""))
      ensures kind == (if item.kind.Undefined? || item.kind.Null? || ToStr(item.kind) == "" then "1"
                       else ToStr(item.kind))
      ensures preview == item.image && image == None
      ensures sizeValues == NormalisedSizes(item.sizeValues, item.sizeDetails, parse)
      ensures sizeValues == ViewedSizes(item)
    {
      editingId := item.id;
      name := Or(item.name, Str(""));
      kind := if item.kind.Undefined? || item.kind.Null? || ToStr(item.kind) == "" then "1"
              else ToStr(item.kind);
      preview := item.image;
      sizeValues := NormalisedSizes(item.sizeValues, item.sizeDetails, parse);
      image := None;
    }

    /** `handleViewClick`: the size map the view dialog shows. A stored
        object is shown as it is; an array, an unparsable string and two
        missing fields show no sizes; a string shows the object it encodes;
        a falsy `size_values` falls back to `size_details`. The contract states
        the object case of that fallback; every case of it is proved about
        `NormalisedSizes` in `NormalisedSizesCases`. */
    function ViewedSizes(item: MeasurementRecord): (m: map<string, JsVal>)
      reads this
      ensures item.sizeValues.ObjectField? ==> m == item.sizeValues.fields
      ensures item.sizeValues.ArrayField? ==> m == map[]
      ensures item.sizeValues.TextField? && item.sizeValues.s != "" && parse(item.sizeValues.s) == None ==> m == map[]
      ensures (item.sizeValues.TextField? && item.sizeValues.s != "" && parse(item.sizeValues.s).Some?
               && parse(item.sizeValues.s).value.JsonObject?) ==> m == parse(item.sizeValues.s).value.fields
      ensures !SizesTruthy(item.sizeValues) && !SizesTruthy(item.sizeDetails) ==> m == map[]
      ensures !SizesTruthy(item.sizeValues) && item.sizeDetails.ObjectField? ==> m == item.sizeDetails.fields
    {
      NormalisedSizes(item.sizeValues, item.sizeDetails, parse)
    }
  }
}
