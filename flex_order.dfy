/**
 * The `fxFlexOrder` directive: how a responsive "flex order" input becomes the CSS
 * `order` style (`FlexOrderStyleBuilder.buildStyles`), which input value is applied
 * (`FlexOrderDirective._updateWithValue`), and when an input change triggers that
 * update (`FlexOrderDirective.ngOnChanges`).
 */
module FlexOrder {
  import opened Wrappers
  import opened JsParseInt

  /** The style object `{order: n}`: it has exactly the one key `order`. */
  datatype Styles = Styles(order: int)

  /** `buildStyles(value)`: `parseInt(value, 10)`, with NaN replaced by 0. */
  function BuildStyles(value: string): Styles {
    match ParseInt10(value)
    case None => Styles(0)
    case Some(n) => Styles(n)
  }

  // ---------------------------------------------------------------------------
  // buildStyles

  /**
   * A value that starts (after white space and an optional sign) with a digit run gives
   * the signed value of that run as `order`; what follows the run ("px", ".5", ...) is ignored.
   */
  lemma BuildStylesOfNumeric(w: string, sign: string, d: string, tail: string)
    requires AllWhiteSpace(w) && IsSignPrefix(sign)
    requires d != [] && AllDigits(d)
    requires tail == [] || !IsDecimalDigit(tail[0])
    ensures BuildStyles(w + sign + d + tail) == Styles(Signed(sign, DigitsValue(d)))
  {
    ParseIntOfNumeric(w, sign, d, tail);
  }

  /** A value with no digit after the white space and the optional sign gives `order` 0. */
  lemma BuildStylesOfNonNumeric(w: string, sign: string, tail: string)
    requires AllWhiteSpace(w) && IsSignPrefix(sign)
    requires tail == [] || !IsDecimalDigit(tail[0])
    requires sign == "" && tail != [] ==> !IsStrWhiteSpace(tail[0]) && tail[0] != '+' && tail[0] != '-'
    ensures BuildStyles(w + sign + tail) == Styles(0)
  {
    ParseIntOfNonNumeric(w, sign, tail);
  }

  /**
   * Every value falls in one of the two cases above: either it has the numeric shape and
   * `order` is the signed digit run, or `order` is 0 (never NaN).
   */
  lemma BuildStylesCases(value: string)
    ensures || BuildStyles(value) == Styles(0)
            || exists w, sign, d, tail ::
                 && value == w + sign + d + tail
                 && AllWhiteSpace(w) && IsSignPrefix(sign) && d != [] && AllDigits(d)
                 && (tail == [] || !IsDecimalDigit(tail[0]))
                 && BuildStyles(value) == Styles(Signed(sign, DigitsValue(d)))
  {
    if ParseInt10(value).Some? {
      var w, sign, d, tail := ParseIntSomeShape(value);
    }
  }

  /** `buildStyles(String(n))` gives back `order` n for every integer n. */
  lemma BuildStylesRoundTrip(n: int)
    ensures BuildStyles(IntToDecimal(n)).order == n
  {
    ParseIntRoundTrip(n);
  }

  /** A CSS unit after the number is ignored. */
  lemma UnitSuffixExample()
    ensures BuildStyles("2px").order == 2
  {
    var value := "2px";
    assert value == "" + "" + "2" + "px";
    BuildStylesOfNumeric("", "", "2", "px");
  }

  /** Leading spaces and a minus sign. */
  lemma NegativeExample()
    ensures BuildStyles("  -3").order == -3
  {
    var value := "  -3";
    assert value == "  " + "-" + "3" + "";
    BuildStylesOfNumeric("  ", "-", "3", "");
  }

  /** The fraction is cut off: parseInt reads no decimal point. */
  lemma FractionExample()
    ensures BuildStyles("3.7").order == 3
  {
    var value := "3.7";
    assert value == "" + "" + "3" + ".7";
    BuildStylesOfNumeric("", "", "3", ".7");
  }

  /** With radix 10 a `0x` prefix is not a hex prefix: the digit run is `0`. */
  lemma HexPrefixExample()
    ensures BuildStyles("0x10").order == 0
  {
    var value := "0x10";
    assert value == "" + "" + "0" + "x10";
    BuildStylesOfNumeric("", "", "0", "x10");
  }

  /** Leading zeros and any StrWhiteSpaceChar before an explicit plus sign. */
  lemma LeadingZerosExample()
    ensures BuildStyles("\t\n\U{00A0}+007").order == 7
  {
    var value := "\t\n\U{00A0}+007";
    assert DigitsValue("007") == 7 by {
      assert "007"[..2] == "00" && "00"[..1] == "0" && "0"[..0] == "";
    }
    assert "\t\n\U{00A0}" + "+" + "007" + "" == "\t\n\U{00A0}+007";
    BuildStylesOfNumeric("\t\n\U{00A0}", "+", "007", "");
  }

  /** The empty string is NaN, so `order` is 0. */
  lemma EmptyExample()
    ensures BuildStyles("").order == 0
  {
    var value := "";
    assert value == "" + "" + "";
    BuildStylesOfNonNumeric("", "", "");
  }

  /** A word is NaN, so `order` is 0. */
  lemma WordExample()
    ensures BuildStyles("abc").order == 0
  {
    var value := "abc";
    assert value == "" + "" + "abc";
    BuildStylesOfNonNumeric("", "", "abc");
  }

  /** A sign alone is NaN, so `order` is 0. */
  lemma BareSignExample()
    ensures BuildStyles("-").order == 0
  {
    var value := "-";
    assert value == "" + "-" + "";
    BuildStylesOfNonNumeric("", "-", "");
  }

  /** No white space is allowed between the sign and the digits. */
  lemma SignThenSpaceExample()
    ensures BuildStyles("- 3").order == 0
  {
    var value := "- 3";
    assert value == "" + "-" + " 3";
    BuildStylesOfNonNumeric("", "-", " 3");
  }

  // ---------------------------------------------------------------------------
  // _updateWithValue and ngOnChanges

  /** JavaScript truthiness of a `string | undefined`: defined and not empty. */
  predicate Truthy(v: Option<string>) {
    v.Some? && v.value != ""
  }

  /** JavaScript `a || b` on `string | undefined` operands. */
  function JsOr(a: Option<string>, b: Option<string>): Option<string> {
    if Truthy(a) then a else b
  }

  /** The media-query activation object; its `activatedInput` may be undefined. */
  datatype MediaQueryActivation = MediaQueryActivation(activatedInput: Option<string>)

  /**
   * The string that `_updateWithValue(explicit)` passes to `addStyles`, given the cached
   * base input `order` and the activation object (`None` while `_mqActivation` is unset).
   * Empty strings count as absent at every step.
   */
  function AddStylesArgument(explicit: Option<string>, cachedOrder: Option<string>,
                             activation: Option<MediaQueryActivation>): (value: string)
    // an activation overrides the explicit value and the cached input
    ensures activation.Some? ==>
      value == (if Truthy(activation.value.activatedInput) then activation.value.activatedInput.value else "")
    // otherwise: the explicit value, then the cached input, then "0"
    ensures activation.None? ==>
      value == (if Truthy(explicit) then explicit.value
                else if Truthy(cachedOrder) then cachedOrder.value
                else "0")
    ensures activation.None? ==> value != ""
  {
    var fromInputs := JsOr(explicit, JsOr(cachedOrder, Some("0")));
    var chosen := if activation.Some? then activation.value.activatedInput else fromInputs;
    JsOr(chosen, Some("")).value
  }

  /** The names of the thirteen breakpoint-suffixed inputs, as they appear in `SimpleChanges`. */
  const SuffixedInputs: set<string> := {
    "orderXs", "orderSm", "orderMd", "orderLg", "orderXl",
    "orderGtXs", "orderGtSm", "orderGtMd", "orderGtLg",
    "orderLtSm", "orderLtMd", "orderLtLg", "orderLtXl"
  }

  /**
   * The guard of `ngOnChanges`: `changes` holds the names of the inputs whose entry in
   * `SimpleChanges` is not null.
   */
  predicate ShouldUpdate(changes: set<string>, activation: Option<MediaQueryActivation>) {
    "order" in changes || activation.Some?
  }

  // ---------------------------------------------------------------------------
  // Properties of the resolution

  /** A one-digit value is applied as that digit. */
  lemma SingleDigitValue(value: string)
    requires |value| == 1 && IsDecimalDigit(value[0])
    ensures BuildStyles(value).order == DigitValue(value[0])
  {
    assert DigitsValue(value) == DigitValue(value[0]) by {
      assert value[..0] == "";
    }
    assert value == "" + "" + value + "";
    BuildStylesOfNumeric("", "", value, "");
  }

  /** With an activation, the explicit value and the cached input make no difference. */
  lemma ActivationOverridesInputs(explicit1: Option<string>, cachedOrder1: Option<string>,
                                  explicit2: Option<string>, cachedOrder2: Option<string>,
                                  activation: MediaQueryActivation)
    ensures AddStylesArgument(explicit1, cachedOrder1, Some(activation))
         == AddStylesArgument(explicit2, cachedOrder2, Some(activation))
  {
  }

  /** An activation whose `activatedInput` is empty or undefined yields `''` and so `order` 0. */
  lemma EmptyActivationGivesZero(explicit: Option<string>, cachedOrder: Option<string>,
                                 activation: MediaQueryActivation)
    requires !Truthy(activation.activatedInput)
    ensures AddStylesArgument(explicit, cachedOrder, Some(activation)) == ""
    ensures BuildStyles(AddStylesArgument(explicit, cachedOrder, Some(activation))).order == 0
  {
    EmptyExample();
  }

  /** Without an activation, an explicit rendering of n is applied as `order` n. */
  lemma ExplicitValueApplied(n: int, cachedOrder: Option<string>)
    ensures BuildStyles(AddStylesArgument(Some(IntToDecimal(n)), cachedOrder, None)).order == n
  {
    BuildStylesRoundTrip(n);
  }

  /** Without an activation or an explicit value, the cached rendering of n is applied. */
  lemma CachedValueApplied(explicit: Option<string>, n: int)
    requires !Truthy(explicit)
    ensures BuildStyles(AddStylesArgument(explicit, Some(IntToDecimal(n)), None)).order == n
  {
    BuildStylesRoundTrip(n);
  }

  /** Without an activation, an explicit value or a cached input, `order` is 0. */
  lemma DefaultOrderApplied(explicit: Option<string>, cachedOrder: Option<string>)
    requires !Truthy(explicit) && !Truthy(cachedOrder)
    ensures BuildStyles(AddStylesArgument(explicit, cachedOrder, None)).order == 0
  {
    var value := AddStylesArgument(explicit, cachedOrder, None);
    assert value == "0";
    SingleDigitValue(value);
  }

  /** The activated value 3 wins over the explicit 1 and the cached 2. */
  lemma ActivationPrecedenceExample()
    ensures BuildStyles(AddStylesArgument(Some("1"), Some("2"),
                                          Some(MediaQueryActivation(Some("3"))))).order == 3
  {
    var value := AddStylesArgument(Some("1"), Some("2"), Some(MediaQueryActivation(Some("3"))));
    assert value == "3";
    SingleDigitValue(value);
  }

  /** `ngOnChanges` updates exactly when `order` changed or an activation exists. */
  lemma OnlySuffixedChangesDoNotUpdate(changes: set<string>, activation: Option<MediaQueryActivation>)
    requires changes <= SuffixedInputs
    ensures ShouldUpdate(changes, activation) <==> activation.Some?
    ensures ShouldUpdate(changes + {"order"}, activation)
  {
  }

  // ---------------------------------------------------------------------------
  // The directive

  /**
   * The state of a `FlexOrderDirective` that the update reads, and the `addStyles` calls
   * it makes. The style application itself (the style cache and the DOM write) happens in
   * the base class and is represented only by the argument each call receives.
   */
  class FlexOrderDirective {
    /** The cached base input `fxFlexOrder`: what `_queryInput('order')` returns. */
    var cachedOrder: Option<string>
    /** `_mqActivation`, present once media-query listening has started. */
    var mqActivation: Option<MediaQueryActivation>
    /** The argument of every `addStyles` call so far, oldest first. */
    var addStylesCalls: seq<string>

    constructor (cachedOrder: Option<string>, mqActivation: Option<MediaQueryActivation>)
      ensures this.cachedOrder == cachedOrder && this.mqActivation == mqActivation
      ensures addStylesCalls == []
    {
      this.cachedOrder := cachedOrder;
      this.mqActivation := mqActivation;
      addStylesCalls := [];
    }

    /** `_updateWithValue(value?)`: resolve the value and apply it with `addStyles`. */
    method UpdateWithValue(value: Option<string>)
      modifies this`addStylesCalls
      ensures addStylesCalls == old(addStylesCalls) + [AddStylesArgument(value, cachedOrder, mqActivation)]
    {
      var v := JsOr(value, JsOr(cachedOrder, Some("0")));
      if mqActivation.Some? {
        v := mqActivation.value.activatedInput;
      }
      addStylesCalls := addStylesCalls + [JsOr(v, Some("")).value];
    }

    /** `ngOnChanges(changes)`: update when `order` changed or an activation exists. */
    method NgOnChanges(changes: set<string>)
      modifies this`addStylesCalls
      ensures ShouldUpdate(changes, mqActivation) ==>
        addStylesCalls == old(addStylesCalls) + [AddStylesArgument(None, cachedOrder, mqActivation)]
      ensures !ShouldUpdate(changes, mqActivation) ==> addStylesCalls == old(addStylesCalls)
    {
      if "order" in changes || mqActivation.Some? {
        UpdateWithValue(None);
      }
    }
  }
}
