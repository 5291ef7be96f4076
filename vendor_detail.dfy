/** The vendor profile (src/components/pages/vendor/VendorDetail.jsx): image
    paths resolved against the image base, the vendor-type label and the
    verified and customization badges. */
module VendorDetail {
  import opened Js
  import Text

  /** `getImageUrl`: `null` for an empty path, an absolute `http…` path as
      it is, any other path behind the image base. The source calls
      `startsWith` on it, so a present path is a string. */
  function ImageUrl(imgBase: string, path: JsVal): (url: JsVal)
    requires Truthy(path) ==> path.Str?
    ensures !Truthy(path) ==> url == Null
    ensures Truthy(path) && Text.StartsWith(path.s, "http") ==> url == path
    ensures Truthy(path) && !Text.StartsWith(path.s, "http") ==> url == Str(imgBase + path.s)
  {
    if !Truthy(path) then Null
    else if Text.StartsWith(path.s, "http") then path
    else Str(imgBase + path.s)
  }

  /** With an absolute image base, resolving a resolved URL changes nothing:
      the prefix is never applied twice. */
  lemma ImageUrlIdempotent(imgBase: string, path: JsVal)
    requires Truthy(path) ==> path.Str?
    requires Text.StartsWith(imgBase, "http")
    ensures ImageUrl(imgBase, ImageUrl(imgBase, path)) == ImageUrl(imgBase, path)
  {
    if Truthy(path) && !Text.StartsWith(path.s, "http") {
      var s := imgBase + path.s;
      assert s[..4] == imgBase[..4];
    }
  }

  /** `getVendorTypeLabel`, a strict comparison with the strings "1" and "2". */
  function VendorTypeLabel(kind: JsVal): (text: string)
    ensures kind == Str("1") ==> text == "Shop"
    ensures kind == Str("2") ==> text == "Designer"
    ensures kind != Str("1") && kind != Str("2") ==> text == "Vendor"
  {
    if kind == Str("1") then "Shop" else if kind == Str("2") then "Designer" else "Vendor"
  }

  /** A numeric vendor type, even 1 or 2, is labelled "Vendor". */
  lemma NumericTypeIsVendor(n: int)
    ensures VendorTypeLabel(Num(n)) == "Vendor"
  {
  }

  /** The verified badge: `approval_status === "1"`. */
  predicate Verified(approvalStatus: JsVal)
  {
    approvalStatus == Str("1")
  }

  /** The customization tag: `is_customization === "1"`. */
  predicate CustomizationTag(isCustomization: JsVal)
  {
    isCustomization == Str("1")
  }

  /** Both badges read the string "1" only: the number 1 shows neither. */
  lemma BadgesNeedStringOne(v: JsVal)
    ensures Verified(v) <==> v == Str("1")
    ensures CustomizationTag(v) <==> v == Str("1")
    ensures !Verified(Num(1)) && !CustomizationTag(Num(1))
  {
  }
}
