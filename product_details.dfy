/** The product page (src/components/pages/Product/ProductDetails.jsx): the
    first image and material are selected on load, and once a size,
    a material and the product are all known the price of that combination
    is fetched and turned into the displayed price and stock state. */
module ProductDetails {
  import opened Js

  datatype Material = Material(id: JsVal)

  /** The fields of a fetched product the page uses; `materials` is `None`
      when the product has no `product_materials`. */
  datatype Product = Product(id: JsVal, allImages: seq<JsVal>, materials: Option<seq<Material>>)

  /** The `/get-product-price` reply. */
  datatype PriceReply = PriceReply(isOutStock: JsVal, qty: JsVal, discountPrice: JsVal, actualPrice: JsVal)

  /** `priceDetails` */
  datatype PriceDetails = PriceDetails(price: JsVal, oldPrice: JsVal, qty: JsVal, outOfStock: bool, isLoaded: bool)

  const NoPrice := PriceDetails(Num(0), Num(0), Num(0), false, false)

  /** The parameters of the price request. */
  datatype PriceQuery = PriceQuery(productId: JsVal, materialId: JsVal, size: JsVal)

  /** `Number(x) <= 0`, false for NaN. */
  predicate NotPositive(x: JsVal)
  {
    ToNumber(x).Some? && ToNumber(x).value <= 0
  }

  /** `isOutOfStock`: flagged out of stock, or a quantity of at most 0. */
  predicate OutOfStock(reply: PriceReply)
  {
    ToStr(reply.isOutStock) == "1" || NotPositive(reply.qty)
  }

  /** The price details set from a successful reply. */
  function Derive(reply: PriceReply): (d: PriceDetails)
    ensures d.isLoaded && d.qty == reply.qty
    ensures d.outOfStock <==> OutOfStock(reply)
    ensures Truthy(reply.discountPrice) ==> d.price == reply.discountPrice && d.oldPrice == reply.actualPrice
    ensures !Truthy(reply.discountPrice) ==> d.price == reply.actualPrice && d.oldPrice == Null
  {
    PriceDetails(Or(reply.discountPrice, reply.actualPrice),
                 if Truthy(reply.discountPrice) then reply.actualPrice else Null,
                 reply.qty, OutOfStock(reply), true)
  }

  /** The stock flag reads the flag as a string and the quantity as a
      number: "1" or 1 marks out of stock, as do a quantity of 0, "0", a
      negative one and `null` (which is 0 as a number); a missing quantity
      (NaN) does not. */
  lemma StockCases(flag: JsVal, qty: JsVal, discount: JsVal, actual: JsVal)
    ensures OutOfStock(PriceReply(Num(1), qty, discount, actual))
    ensures OutOfStock(PriceReply(Str("1"), qty, discount, actual))
    ensures OutOfStock(PriceReply(flag, Null, discount, actual))
    ensures OutOfStock(PriceReply(flag, Str("0"), discount, actual))
    ensures ToStr(flag) != "1" ==> !OutOfStock(PriceReply(flag, Undefined, discount, actual))
    ensures ToStr(flag) != "1" ==> !OutOfStock(PriceReply(flag, Num(5), discount, actual))
  {
    assert ToStr(Num(1)) == "1" by { assert IntToString(1) == "1"; }
    assert NotPositive(Null);
    assert NotPositive(Str("0")) by {
      NumberOfString(0);
      assert IntToString(0) == "0";
    }
    assert !NotPositive(Undefined);
    assert !NotPositive(Num(5));
  }

  class ProductPage {
    var product: Option<Product>
    var loading: bool
    var selectedImage: JsVal
    var selectedMaterial: Option<Material>
    var selectedSize: JsVal
    var priceDetails: PriceDetails

    constructor()
      ensures product == None && loading && selectedImage == Str("") && selectedMaterial == None
      ensures selectedSize == Null && priceDetails == NoPrice
    {
      product := None;
      loading := true;
      selectedImage := Str("");
      selectedMaterial := None;
      selectedSize := Null;
      priceDetails := NoPrice;
    }

    /** `fetchDetails` settled: on a successful reply the product, its first
        image (`undefined` when there is none) and, when it has materials,
        the first material; loading ends either way. */
    method Loaded(status: bool, data: Product)
      modifies this
      ensures !loading
      ensures status ==> product == Some(data)
      ensures status ==> selectedImage == (if |data.allImages| > 0 then data.allImages[0] else Undefined)
      ensures status && data.materials.Some? && |data.materials.value| > 0 ==>
        selectedMaterial == Some(data.materials.value[0])
      ensures !(status && data.materials.Some? && |data.materials.value| > 0) ==>
        selectedMaterial == old(selectedMaterial)
      ensures !status ==> product == old(product) && selectedImage == old(selectedImage)
      ensures selectedSize == old(selectedSize) && priceDetails == old(priceDetails)
    {
      if status {
        product := Some(data);
        selectedImage := if |data.allImages| > 0 then data.allImages[0] else Undefined;
        if data.materials.Some? && |data.materials.value| > 0 {
          selectedMaterial := Some(data.materials.value[0]);
        }
      }
      loading := false;
    }

    /** Choosing a size. */
    method SelectSize(size: JsVal)
      modifies this
      ensures selectedSize == size
      ensures product == old(product) && selectedMaterial == old(selectedMaterial) && priceDetails == old(priceDetails)
      ensures loading == old(loading) && selectedImage == old(selectedImage)
    {
      selectedSize := size;
    }

    /** Choosing a material. */
    method SelectMaterial(m: Material)
      modifies this
      ensures selectedMaterial == Some(m)
      ensures product == old(product) && selectedSize == old(selectedSize) && priceDetails == old(priceDetails)
      ensures loading == old(loading) && selectedImage == old(selectedImage)
    {
      selectedMaterial := Some(m);
    }

    /** The guard of `getPrice`: a request only when size, material and
        product are all set. */
    function PriceRequest(): (q: Option<PriceQuery>)
      reads this
      ensures q.Some? <==> Truthy(selectedSize) && selectedMaterial.Some? && product.Some?
      ensures q.Some? ==> q.value == PriceQuery(product.value.id, selectedMaterial.value.id, selectedSize)
    {
      if Truthy(selectedSize) && selectedMaterial.Some? && product.Some? then
        Some(PriceQuery(product.value.id, selectedMaterial.value.id, selectedSize))
      else None
    }

    /** The price reply: a successful one replaces the price details. */
    method PriceReplied(status: bool, reply: PriceReply)
      modifies this
      ensures status ==> priceDetails == Derive(reply)
      ensures !status ==> priceDetails == old(priceDetails)
      ensures product == old(product) && selectedSize == old(selectedSize) && selectedMaterial == old(selectedMaterial)
      ensures loading == old(loading) && selectedImage == old(selectedImage)
    {
      if status {
        priceDetails := Derive(reply);
      }
    }
  }
}
