/** The order-entry dialog (`OrderForm`): the raw text of the price and the
    quantity, the side and the price type are form state; validation fills
    an error record field by field; a submit that passes validation hands
    the parsed order to the caller, whose success or failure is a
    parameter; closing the dialog resets part of the form. */
module OrderForm {
  import opened JsStrings
  import opened JsNumbers

  datatype Side = Buy | Sell
  datatype PriceType = Market | Limit
  datatype ConnectionStatus = Connecting | Connected | Disconnected

  /** The `errors` object: a key is either absent or holds its message. */
  datatype FormErrors = FormErrors(price: Option<string>, quantity: Option<string>, general: Option<string>)

  const NoErrors := FormErrors(None, None, None)

  const PriceMessage := "Please enter a valid price greater than 0"
  const QuantityMessage := "Please enter a valid quantity greater than 0"
  const NotConnectedMessage := "Cannot place order: Not connected to trading server"
  const FailedMessage := "Failed to place order. Please try again."

  /** `Object.keys(errors).length === 0`. */
  predicate NoErrorKeys(e: FormErrors) {
    e.price.None? && e.quantity.None? && e.general.None?
  }

  /** The order handed to `onPlaceOrder`; `price` is `null` for MARKET. */
  datatype PlacedOrder = PlacedOrder(side: Side, orderType: PriceType, price: Option<Number>, quantity: int)

  /** The price text fails a LIMIT order: empty, or its `parseFloat` is
      not greater than 0 (NaN included). */
  predicate BadPrice(orderPrice: string, price: Number) {
    orderPrice == "" || !IsPositive(price)
  }

  /** The quantity text fails: empty, NaN under `parseInt`, or at most 0. */
  predicate BadQuantity(orderQuantity: string, quantity: Option<int>) {
    orderQuantity == "" || quantity.None? || quantity.value <= 0
  }

  /** The errors `validateForm` collects, from the texts and their parses. */
  function ValidateParsed(priceType: PriceType, orderPrice: string, price: Number,
                          orderQuantity: string, quantity: Option<int>, status: ConnectionStatus): (e: FormErrors)
    ensures e.price.Some? ==> e.price.value == PriceMessage
    ensures e.quantity.Some? ==> e.quantity.value == QuantityMessage
    ensures e.general.Some? ==> e.general.value == NotConnectedMessage
  {
    FormErrors(
      if priceType == Limit && BadPrice(orderPrice, price) then Some(PriceMessage) else None,
      if BadQuantity(orderQuantity, quantity) then Some(QuantityMessage) else None,
      if status != Connected then Some(NotConnectedMessage) else None)
  }

  function Validate(priceType: PriceType, orderPrice: string, orderQuantity: string, status: ConnectionStatus): FormErrors {
    ValidateParsed(priceType, orderPrice, ParseFloat(orderPrice), orderQuantity, ParseInt(orderQuantity), status)
  }

  lemma EmptyTextIsNaN()
    ensures ParseFloat("") == NaN && ParseInt("") == None
  {
    assert TrimStart("") == "" && Unsigned("") == "";
    assert DigitRun("") == 0;
    assert ParseIntDigits("") == None;
    assert UnsignedDecimal("") == NaN;
  }

  lemma ValidParsedMeaning(priceType: PriceType, orderPrice: string, price: Number,
                           orderQuantity: string, quantity: Option<int>, status: ConnectionStatus)
    requires orderPrice == "" ==> price == NaN
    requires orderQuantity == "" ==> quantity == None
    ensures NoErrorKeys(ValidateParsed(priceType, orderPrice, price, orderQuantity, quantity, status)) <==>
      status == Connected && quantity.Some? && quantity.value > 0 && (priceType == Limit ==> IsPositive(price))
  {
  }

  /** A form passes exactly when the status is "connected", the quantity
      parses to a positive integer and, for LIMIT, the price parses to a
      positive number; a MARKET order never fails on its price. */
  lemma ValidFormMeaning(priceType: PriceType, orderPrice: string, orderQuantity: string, status: ConnectionStatus)
    ensures NoErrorKeys(Validate(priceType, orderPrice, orderQuantity, status)) <==>
      && status == Connected
      && ParseInt(orderQuantity).Some? && ParseInt(orderQuantity).value > 0
      && (priceType == Limit ==> IsPositive(ParseFloat(orderPrice)))
    ensures priceType == Market ==> Validate(priceType, orderPrice, orderQuantity, status).price == None
  {
    EmptyTextIsNaN();
    ValidParsedMeaning(priceType, orderPrice, ParseFloat(orderPrice), orderQuantity, ParseInt(orderQuantity), status);
  }

  /** `parseInt` truncates at the decimal point: "0.5" fails as 0 and
      "2.7" passes as 2. */
  lemma QuantityTruncates()
    ensures BadQuantity("0.5", ParseInt("0.5"))
    ensures !BadQuantity("2.7", ParseInt("2.7")) && ParseInt("2.7") == Some(2)
  {
    assert NatToString(0) == "0" && NatToString(2) == "2";
    assert "0.5" == NatToString(0) + ".5";
    assert "2.7" == NatToString(2) + ".7";
    ParseIntStopsAtNonDigit(0, ".5");
    ParseIntStopsAtNonDigit(2, ".7");
  }

  /** Every positive whole number, typed as its decimal digits, is a valid
      quantity and a valid price, and is read back unchanged. */
  lemma PrintedPositiveIntegersPass(n: int, status: ConnectionStatus, priceType: PriceType)
    requires n > 0 && status == Connected
    ensures NoErrorKeys(Validate(priceType, IntToString(n), IntToString(n), status))
    ensures ParseInt(IntToString(n)) == Some(n) && ParseFloat(IntToString(n)) == Finite(n as real)
  {
    ParseIntOfIntToString(n);
    ParseFloatOfIntToString(n);
    ValidFormMeaning(priceType, IntToString(n), IntToString(n), status);
  }

  /** The total from the parsed texts: 0 for MARKET or when either parse is
      NaN, else the product (NaN for an infinite price times 0). */
  function Total(priceType: PriceType, price: Number, quantity: Option<int>): (t: Number)
    ensures priceType == Market ==> t == Finite(0.0)
    ensures price.NaN? || quantity.None? ==> t == Finite(0.0)
    ensures priceType == Limit && price.Finite? && quantity.Some? ==>
      t == Finite(price.value * (quantity.value as real))
    ensures priceType == Limit && price.Infinity? && quantity.Some? ==>
      t == (if quantity.value == 0 then NaN
            else Infinity(if quantity.value > 0 then price.negative else !price.negative))
  {
    if priceType == Market then Finite(0.0)
    else if price.NaN? || quantity.None? then Finite(0.0)
    else
      MulCases(price, quantity.value);
      Mul(price, quantity.value)
  }

  /** `calculateTotal`. */
  function CalculateTotal(priceType: PriceType, orderPrice: string, orderQuantity: string): Number {
    Total(priceType, ParseFloat(orderPrice), ParseInt(orderQuantity))
  }

  lemma ParseFloatOfInfinity()
    ensures ParseFloat("Infinity") == Infinity(false)
  {
    assert TrimStart("Infinity") == "Infinity";
    assert Unsigned("Infinity") == "Infinity";
    assert "Infinity"[..8] == "Infinity";
  }

  lemma ParseIntOfOneDigit(d: nat)
    requires d < 10
    ensures ParseInt([DigitChar(d)]) == Some(d)
  {
    assert [DigitChar(d)] == NatToString(d) + [];
    ParseIntStopsAtNonDigit(d, []);
  }

  /** "Infinity" is a price validation accepts; with quantity "0" the
      total is NaN, with "3" it is Infinity. */
  lemma InfinitePriceTotal()
    ensures !BadPrice("Infinity", ParseFloat("Infinity"))
    ensures CalculateTotal(Limit, "Infinity", "0") == NaN
    ensures CalculateTotal(Limit, "Infinity", "3") == Infinity(false)
  {
    ParseFloatOfInfinity();
    InfinityTimes(0);
    InfinityTimes(3);
  }

  /** The total of an "Infinity" price and a one-digit quantity. */
  lemma InfinityTimes(d: nat)
    requires d < 10
    ensures CalculateTotal(Limit, "Infinity", [DigitChar(d)]) == Total(Limit, Infinity(false), Some(d))
  {
    ParseFloatOfInfinity();
    ParseIntOfOneDigit(d);
  }

  /** The conditional assignments of `validateForm` to `newErrors`. */
  method CollectErrors(priceType: PriceType, orderPrice: string, price: Number,
                       orderQuantity: string, quantity: Option<int>, status: ConnectionStatus)
    returns (newErrors: FormErrors)
    ensures newErrors == ValidateParsed(priceType, orderPrice, price, orderQuantity, quantity, status)
  {
    newErrors := NoErrors;
    NotPositive(price);
    if priceType == Limit && (orderPrice == "" || price.NaN? || AtMostZero(price)) {
      newErrors := newErrors.(price := Some(PriceMessage));
    }
    if orderQuantity == "" || quantity.None? || quantity.value <= 0 {
      newErrors := newErrors.(quantity := Some(QuantityMessage));
    }
    if status != Connected {
      newErrors := newErrors.(general := Some(NotConnectedMessage));
    }
  }

  class OrderFormState {
    var isOpen: bool
    var orderType: Side
    var priceType: PriceType
    var orderPrice: string
    var orderQuantity: string
    var isSubmitting: bool
    var errors: FormErrors

    constructor()
      ensures !isOpen && orderType == Buy && priceType == Limit
      ensures orderPrice == "" && orderQuantity == "" && !isSubmitting && errors == NoErrors
    {
      isOpen := false;
      orderType := Buy;
      priceType := Limit;
      orderPrice := "";
      orderQuantity := "";
      isSubmitting := false;
      errors := NoErrors;
    }

    /** `validateForm`: stores the collected errors and reports whether
        there are none. */
    method ValidateForm(status: ConnectionStatus) returns (ok: bool)
      modifies this`errors
      ensures errors == Validate(priceType, orderPrice, orderQuantity, status)
      ensures ok <==> NoErrorKeys(errors)
    {
      ok := StoreErrors(status, ParseFloat(orderPrice), ParseInt(orderQuantity));
    }

    /** The body of `validateForm` once the texts are parsed. */
    method StoreErrors(status: ConnectionStatus, price: Number, quantity: Option<int>) returns (ok: bool)
      modifies this`errors
      ensures errors == ValidateParsed(priceType, orderPrice, price, orderQuantity, quantity, status)
      ensures ok <==> NoErrorKeys(errors)
    {
      var newErrors := CollectErrors(priceType, orderPrice, price, orderQuantity, quantity, status);
      errors := newErrors;
      ok := newErrors.price.None? && newErrors.quantity.None? && newErrors.general.None?;
    }

    /** `handleSubmit`, with `placed` the outcome of `onPlaceOrder`;
        returns the order handed to it, if any: a LIMIT order carries its
        parsed price, a MARKET order none, and the quantity is the positive
        integer `parseInt` reads. */
    method HandleSubmit(status: ConnectionStatus, placed: bool) returns (sent: Option<PlacedOrder>)
      modifies this`errors, this`isSubmitting, this`orderPrice, this`orderQuantity, this`isOpen
      ensures var e := Validate(old(priceType), old(orderPrice), old(orderQuantity), status);
        && (!NoErrorKeys(e) ==>
             sent == None && errors == e && isSubmitting == old(isSubmitting)
             && orderPrice == old(orderPrice) && orderQuantity == old(orderQuantity) && isOpen == old(isOpen))
        && (NoErrorKeys(e) ==>
             && sent.Some? && sent.value.side == orderType && sent.value.orderType == priceType
             && sent.value.price == (if priceType == Limit then Some(ParseFloat(old(orderPrice))) else None)
             && ParseInt(old(orderQuantity)) == Some(sent.value.quantity) && sent.value.quantity > 0
             && !isSubmitting)
        && (NoErrorKeys(e) && placed ==>
             orderPrice == "" && orderQuantity == "" && !isOpen && errors == NoErrors)
        && (NoErrorKeys(e) && !placed ==>
             orderPrice == old(orderPrice) && orderQuantity == old(orderQuantity) && isOpen == old(isOpen)
             && errors == FormErrors(None, None, Some(FailedMessage)))
    {
      sent := SubmitParsed(status, placed, ParseFloat(orderPrice), ParseInt(orderQuantity));
    }

    /** `handleSubmit` once the texts are parsed to `price` and `quantity`. */
    method SubmitParsed(status: ConnectionStatus, placed: bool, price: Number, quantity: Option<int>)
      returns (sent: Option<PlacedOrder>)
      modifies this`errors, this`isSubmitting, this`orderPrice, this`orderQuantity, this`isOpen
      ensures var e := ValidateParsed(old(priceType), old(orderPrice), price, old(orderQuantity), quantity, status);
        && (!NoErrorKeys(e) ==>
             sent == None && errors == e && isSubmitting == old(isSubmitting)
             && orderPrice == old(orderPrice) && orderQuantity == old(orderQuantity) && isOpen == old(isOpen))
        && (NoErrorKeys(e) ==>
             && sent.Some? && sent.value.side == orderType && sent.value.orderType == priceType
             && sent.value.price == (if priceType == Limit then Some(price) else None)
             && quantity == Some(sent.value.quantity) && sent.value.quantity > 0
             && !isSubmitting)
        && (NoErrorKeys(e) && placed ==>
             orderPrice == "" && orderQuantity == "" && !isOpen && errors == NoErrors)
        && (NoErrorKeys(e) && !placed ==>
             orderPrice == old(orderPrice) && orderQuantity == old(orderQuantity) && isOpen == old(isOpen)
             && errors == FormErrors(None, None, Some(FailedMessage)))
    {
      var ok := StoreErrors(status, price, quantity);
      if !ok {
        sent := None;
        return;
      }
      assert !BadQuantity(orderQuantity, quantity);
      sent := PlaceOrder(placed, if priceType == Limit then Some(price) else None, quantity.value);
    }

    /** The `try` block of `handleSubmit` on the parsed values. */
    method PlaceOrder(placed: bool, price: Option<Number>, quantity: int) returns (sent: Option<PlacedOrder>)
      modifies this`errors, this`isSubmitting, this`orderPrice, this`orderQuantity, this`isOpen
      ensures sent == Some(PlacedOrder(orderType, priceType, price, quantity)) && !isSubmitting
      ensures placed ==> orderPrice == "" && orderQuantity == "" && !isOpen && errors == NoErrors
      ensures !placed ==>
        orderPrice == old(orderPrice) && orderQuantity == old(orderQuantity) && isOpen == old(isOpen)
        && errors == FormErrors(None, None, Some(FailedMessage))
    {
      isSubmitting := true;
      errors := NoErrors;
      sent := Some(PlacedOrder(orderType, priceType, price, quantity));
      if placed {
        orderPrice := "";
        orderQuantity := "";
        isOpen := false;
      } else {
        errors := FormErrors(None, None, Some(FailedMessage));
      }
      isSubmitting := false;
    }

    /** `handleOpenChange`: closing clears the inputs, the price type and
        the errors, but keeps the side. */
    method HandleOpenChange(open: bool)
      modifies this`isOpen, this`orderPrice, this`orderQuantity, this`priceType, this`errors
      ensures isOpen == open
      ensures open ==> orderPrice == old(orderPrice) && orderQuantity == old(orderQuantity)
                       && priceType == old(priceType) && errors == old(errors)
      ensures !open ==> orderPrice == "" && orderQuantity == "" && priceType == Limit && errors == NoErrors
    {
      isOpen := open;
      if !open {
        orderPrice := "";
        orderQuantity := "";
        priceType := Limit;
        errors := NoErrors;
      }
    }

    /** The dialog's Cancel button: it only closes, with no reset. */
    method CancelButton()
      modifies this`isOpen
      ensures !isOpen
    {
      isOpen := false;
    }
  }

  /** A form just reset by closing cannot be submitted: both the price and
      the quantity are reported, whatever the connection status. */
  lemma ResetFormFailsValidation(status: ConnectionStatus)
    ensures Validate(Limit, "", "", status).price == Some(PriceMessage)
    ensures Validate(Limit, "", "", status).quantity == Some(QuantityMessage)
  {
    EmptyTextIsNaN();
    assert Validate(Limit, "", "", status) == ValidateParsed(Limit, "", NaN, "", None, status);
  }

  /** A status other than "connected" always blocks the submit. */
  lemma NotConnectedBlocks(priceType: PriceType, orderPrice: string, orderQuantity: string, status: ConnectionStatus)
    requires status != Connected
    ensures !NoErrorKeys(Validate(priceType, orderPrice, orderQuantity, status))
    ensures Validate(priceType, orderPrice, orderQuantity, status).general == Some(NotConnectedMessage)
  {
  }
}
