/** The order detail page (src/components/pages/order/OrderDetails.jsx):
    the status timeline over five fixed steps, the status badge, and the
    totals, all derived from the fetched order. */
module OrderDetails {
  import opened Js
  import Lists

  /** A step of the timeline: its status id and its caption. */
  datatype Step = Step(id: string, caption: string)

  /** `STEPS` */
  const Steps: seq<Step> :=
    [Step("0", "Placed"), Step("1", "Confirmed"), Step("2", "Processing"),
     Step("3", "Shipped"), Step("4", "Delivered")]

  /** The fields of `orderdetails` the page computes with;
      `extraCharges` is `None` when the order has no `extra_charges`. */
  datatype OrderRecord = OrderRecord(orderStatus: JsVal, subtotal: JsVal, extraCharges: Option<JsVal>)

  /** The step matched by `step.id === order.orderStatus` (a strict
      comparison, so only a string status can match). */
  predicate Matches(step: Step, status: JsVal)
  {
    status == Str(step.id)
  }

  /** `currentStepIndex`: the position of the status among the step ids, or
      -1 when it is none of them. */
  function StepIndex(status: JsVal): (r: int)
    ensures -1 <= r < |Steps|
    ensures r >= 0 ==> status == Str(Steps[r].id)
    ensures r == -1 <==> forall k :: 0 <= k < |Steps| ==> status != Str(Steps[k].id)
  {
    Lists.FindIndex(Steps, (step: Step) => Matches(step, status))
  }

  /** The step ids are distinct, so the status "k" is found at position k,
      and a number (even 2) or any other string matches no step. */
  lemma StepIndexOfStatus(status: JsVal)
    ensures forall k :: 0 <= k < |Steps| && status == Str(Steps[k].id) ==> StepIndex(status) == k
    ensures status.Num? ==> StepIndex(status) == -1
    ensures status !in [Str("0"), Str("1"), Str("2"), Str("3"), Str("4")] ==> StepIndex(status) == -1
  {
    var r := StepIndex(status);
    if r >= 0 {
      assert status == Str(Steps[r].id);
      assert forall k :: 0 <= k < |Steps| && k != r ==> Steps[k].id != Steps[r].id;
    }
  }

  /** `isCompleted` for the step at `index`. */
  predicate Completed(index: int, status: JsVal)
  {
    index <= StepIndex(status)
  }

  /** `isCurrent` for the step at `index`. */
  predicate Current(index: int, status: JsVal)
  {
    index == StepIndex(status)
  }

  /** The steps up to the current one are completed, the rest are not; an
      unknown status completes none. */
  lemma CompletedSteps(status: JsVal)
    ensures forall i :: 0 <= i < |Steps| ==> (Completed(i, status) <==> exists k :: i <= k < |Steps| && Matches(Steps[k], status))
    ensures StepIndex(status) == -1 ==> forall i :: 0 <= i < |Steps| ==> !Completed(i, status)
  {
    var r := StepIndex(status);
    forall i | 0 <= i < |Steps|
      ensures Completed(i, status) <==> exists k :: i <= k < |Steps| && Matches(Steps[k], status)
    {
      if Completed(i, status) {
        assert Matches(Steps[r], status);
      }
      if exists k :: i <= k < |Steps| && Matches(Steps[k], status) {
        var k :| i <= k < |Steps| && Matches(Steps[k], status);
        assert r != -1;
        StepIndexOfStatus(status);
      }
    }
  }

  /** At most one step is current, and exactly one when the status is one
      of the step ids. */
  lemma OneCurrentStep(status: JsVal)
    ensures forall i, j :: 0 <= i < |Steps| && 0 <= j < |Steps| && Current(i, status) && Current(j, status) ==> i == j
    ensures (exists k :: 0 <= k < |Steps| && Matches(Steps[k], status)) <==>
      exists i :: 0 <= i < |Steps| && Current(i, status)
  {
    var r := StepIndex(status);
    if exists k :: 0 <= k < |Steps| && Matches(Steps[k], status) {
      assert Current(r, status);
    }
  }

  /** The status badge: the matched step's caption, or "Unknown". */
  function StatusLabel(status: JsVal): (text: string)
    ensures StepIndex(status) >= 0 ==> text == Steps[StepIndex(status)].caption
    ensures StepIndex(status) == -1 ==> text == "Unknown"
  {
    var found := Lists.Find(Steps, (step: Step) => Matches(step, status));
    if found.Some? && found.value.caption != "" then found.value.caption else "Unknown"
  }

  /** The badge and the timeline agree: the status "2" reads "Processing"
      with the first three steps completed, and a numeric 2 reads
      "Unknown". */
  lemma ProcessingStatus()
    ensures StatusLabel(Str("2")) == "Processing"
    ensures Completed(2, Str("2")) && !Completed(3, Str("2")) && Current(2, Str("2"))
    ensures StatusLabel(Num(2)) == "Unknown"
  {
    StepIndexOfStatus(Str("2"));
    assert Str("2") == Str(Steps[2].id);
    StepIndexOfStatus(Num(2));
  }

  /** `Number(x || 0)`; `None` is NaN. */
  function AmountOf(v: JsVal): (n: Option<int>)
    ensures !Truthy(v) ==> n == Some(0)
    ensures Truthy(v) ==> n == ToNumber(v)
  {
    ToNumber(Or(v, Num(0)))
  }

  /** The delivery charge, `extra_charges?.delivery`. */
  function Delivery(order: OrderRecord): JsVal
  {
    if order.extraCharges.Some? then order.extraCharges.value else Undefined
  }

  /** The tax line, fixed at 0. */
  const Tax := 0

  /** `total = subtotal + deliveryCharges + tax`, NaN when either amount is. */
  function Total(order: OrderRecord): (t: Option<int>)
    ensures AmountOf(order.subtotal).Some? && AmountOf(Delivery(order)).Some? <==> t.Some?
    ensures t.Some? ==> t.value == AmountOf(order.subtotal).value + AmountOf(Delivery(order)).value
  {
    var sub := AmountOf(order.subtotal);
    var del := AmountOf(Delivery(order));
    if sub.Some? && del.Some? then Some(sub.value + del.value + Tax) else None
  }

  /** A missing subtotal or delivery counts as 0. */
  lemma MissingAmountsCountZero(order: OrderRecord)
    ensures !Truthy(order.subtotal) && order.extraCharges.None? ==> Total(order) == Some(0)
    ensures order.extraCharges.None? && order.subtotal.Num? ==> Total(order) == Some(order.subtotal.n)
  {
  }
}
