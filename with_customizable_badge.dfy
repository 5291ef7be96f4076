/** The badge wrapper of product cards
    (src/components/pages/Product/WithCustomizableBadge.jsx): two loosely
    typed flags decide which of the "Customizable" and "Alter" badges are
    drawn over the wrapped card, which receives the remaining props. */
module WithCustomizableBadge {
  import opened Js

  datatype Badge = Customizable | Alter

  /** `Number(x) === 1 || x === true` */
  predicate Flag(x: JsVal)
  {
    NumberIs(x, 1) || x == Bool(true)
  }

  /** The number 1, the string "1" and true count as set. */
  lemma FlagSet()
    ensures Flag(Num(1)) && Flag(Str("1")) && Flag(Bool(true))
  {
    assert IntToString(1) == "1";
    NumberOfString(1);
  }

  /** 0, false, null and a missing flag do not count as set. */
  lemma FlagUnset()
    ensures !Flag(Num(0)) && !Flag(Bool(false)) && !Flag(Null) && !Flag(Undefined)
  {
  }

  /** Nor do the strings "0" and "". */
  lemma FlagUnsetStrings()
    ensures !Flag(Str("0")) && !Flag(Str(""))
  {
    assert ToNumber(Str("")) == Some(0) by {
      assert Trim("") == "";
    }
    assert ToNumber(Str("0")) == Some(0) by {
      assert IntToString(0) == "0";
      NumberOfString(0);
    }
  }

  /** The badges drawn, top to bottom. */
  function Badges(isCustomizable: JsVal, isAlter: JsVal): (b: seq<Badge>)
    ensures Customizable in b <==> Flag(isCustomizable)
    ensures Alter in b <==> Flag(isAlter)
    ensures |b| == 2 ==> b == [Customizable, Alter]
    ensures |b| <= 2
  {
    var custom := Flag(isCustomizable);
    var alter := Flag(isAlter);
    if custom && alter then [Customizable, Alter]
    else if custom && !alter then [Customizable]
    else if !custom && alter then [Alter]
    else []
  }

  /** Both flags draw both badges, Customizable first; one flag draws only
      its badge; neither draws none. */
  lemma BadgeChoice(isCustomizable: JsVal, isAlter: JsVal)
    ensures Flag(isCustomizable) && Flag(isAlter) ==> Badges(isCustomizable, isAlter) == [Customizable, Alter]
    ensures Flag(isCustomizable) && !Flag(isAlter) ==> Badges(isCustomizable, isAlter) == [Customizable]
    ensures !Flag(isCustomizable) && Flag(isAlter) ==> Badges(isCustomizable, isAlter) == [Alter]
    ensures !Flag(isCustomizable) && !Flag(isAlter) ==> Badges(isCustomizable, isAlter) == []
  {
  }

  /** The props the wrapped card receives: all but the two flags. */
  function PassedProps(props: map<string, JsVal>): (rest: map<string, JsVal>)
    ensures rest.Keys == props.Keys - {"is_customizable", "is_alter"}
    ensures forall k :: k in rest ==> rest[k] == props[k]
  {
    props - {"is_customizable", "is_alter"}
  }
}
