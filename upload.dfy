/** The image-upload checks every CRUD screen runs in its `handleImageChange`:
    the MIME type, the byte size and the exact pixel size of the picked file,
    in that order, the first failure setting the screen's error message.
    The file reading and image decoding are the browser's; the model receives
    their results (`FileMeta` and the data URL). */
module Upload {
  import opened Js

  /** `file.type`, `file.size`, and the width and height of the decoded image. */
  datatype FileMeta = FileMeta(mime: string, size: int, width: int, height: int)

  /** One screen's rule: the accepted types (`None` when the screen does not
      look at the type), the byte limit, the exact dimensions (`None` when the
      screen does not compare them), and the message for each failure. */
  datatype ImageRule = ImageRule(
    types: Option<seq<string>>, typeError: string,
    maxBytes: int, sizeError: string,
    dims: Option<(int, int)>, dimsError: string)

  const Jpeg := "image/jpeg"
  const Png := "image/png"
  const Jpg := "image/jpg"
  const Svg := "image/svg+xml"

  /** 2 MiB and 5 MiB, as `2 * 1024 * 1024` and `5 * 1024 * 1024`. */
  const TwoMiB := 2 * 1024 * 1024
  const FiveMiB := 5 * 1024 * 1024

  predicate TypeOk(rule: ImageRule, f: FileMeta)
  {
    rule.types.None? || f.mime in rule.types.value
  }

  /** The rejection is `file.size > limit`, so a file of exactly the limit passes. */
  predicate SizeOk(rule: ImageRule, f: FileMeta)
  {
    f.size <= rule.maxBytes
  }

  predicate DimsOk(rule: ImageRule, f: FileMeta)
  {
    rule.dims.None? || (f.width == rule.dims.value.0 && f.height == rule.dims.value.1)
  }

  /** The message of the first failing check, or `None` when the file is accepted. */
  function Validate(rule: ImageRule, f: FileMeta): (r: Option<string>)
    ensures r.None? <==> TypeOk(rule, f) && SizeOk(rule, f) && DimsOk(rule, f)
    ensures !TypeOk(rule, f) ==> r == Some(rule.typeError)
    ensures TypeOk(rule, f) && !SizeOk(rule, f) ==> r == Some(rule.sizeError)
    ensures TypeOk(rule, f) && SizeOk(rule, f) && !DimsOk(rule, f) ==> r == Some(rule.dimsError)
  {
    if !TypeOk(rule, f) then Some(rule.typeError)
    else if !SizeOk(rule, f) then Some(rule.sizeError)
    else if !DimsOk(rule, f) then Some(rule.dimsError)
    else None
  }

  /** One entry of a multipart `FormData` body: a text field or a file. */
  datatype FormPart = Field(key: string, value: JsVal) | FilePart(key: string, file: FileMeta)

  function Keys(parts: seq<FormPart>): (keys: seq<string>)
    ensures |keys| == |parts|
    ensures forall i :: 0 <= i < |parts| ==> keys[i] == parts[i].key
  {
    if parts == [] then [] else [parts[0].key] + Keys(parts[1..])
  }

  lemma {:induction false} KeysAppend(a: seq<FormPart>, b: seq<FormPart>)
    ensures Keys(a + b) == Keys(a) + Keys(b)
    decreases |a|
  {
    if a != [] {
      calc {
        Keys(a + b);
        [(a + b)[0].key] + Keys((a + b)[1..]);
        { assert (a + b)[1..] == a[1..] + b; }
        [a[0].key] + Keys(a[1..] + b);
        { KeysAppend(a[1..], b); }
        [a[0].key] + (Keys(a[1..]) + Keys(b));
        ([a[0].key] + Keys(a[1..])) + Keys(b);
        Keys(a) + Keys(b);
      }
    } else {
      assert a + b == b;
    }
  }

  /** `if (file) data.append(key, file)` */
  function FileIfChosen(key: string, file: Option<FileMeta>): (parts: seq<FormPart>)
    ensures file.None? ==> parts == []
    ensures file.Some? ==> parts == [FilePart(key, file.value)]
  {
    if file.Some? then [FilePart(key, file.value)] else []
  }

  /** `if (editingId) data.append('_method', 'PUT')`: the update goes as a
      POST that the server reads as a PUT. */
  function MethodOverride(editingId: JsVal): (parts: seq<FormPart>)
    ensures Truthy(editingId) ==> parts == [Field("_method", Str("PUT"))]
    ensures !Truthy(editingId) ==> parts == []
  {
    if Truthy(editingId) then [Field("_method", Str("PUT"))] else []
  }

  /** The `imageFile` / `imagePreview` / `imageError` triple of a screen. */
  class ImageField {
    var file: Option<FileMeta>
    var preview: string
    var error: string

    constructor()
      ensures file == None && preview == "" && error == ""
    {
      file := None;
      preview := "";
      error := "";
    }

    /** `handleImageChange`: the previous error, file and preview are cleared
        first; with no file picked nothing else happens; otherwise the first
        failing check sets the error, and an accepted file becomes the file and
        its data URL the preview. */
    method Choose(rule: ImageRule, picked: Option<FileMeta>, dataUrl: string)
      modifies this
      ensures picked == None ==> file == None && preview == "" && error == ""
      ensures picked != None && Validate(rule, picked.value) == None ==>
        file == picked && preview == dataUrl && error == ""
      ensures picked != None && Validate(rule, picked.value) != None ==>
        file == None && preview == "" && error == Validate(rule, picked.value).value
    {
      error := "";
      file := None;
      preview := "";
      if picked == None {
        return;
      }
      var verdict := Validate(rule, picked.value);
      if verdict != None {
        error := verdict.value;
        return;
      }
      file := picked;
      preview := dataUrl;
    }

    /** Shows a stored image while editing (`setImagePreview(url)`). */
    method ShowStored(url: string)
      modifies this
      ensures preview == url && file == old(file) && error == old(error)
    {
      preview := url;
    }

    /** The reset part of `resetForm`. */
    method Clear()
      modifies this
      ensures file == None && preview == "" && error == ""
    {
      file := None;
      preview := "";
      error := "";
    }
  }
}
