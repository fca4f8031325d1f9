/**
 * The checkout page (`src/pages/Payment.tsx`): a three-step machine
 * (details, payment, success) over the delivery form, the payment form and
 * their error maps, sharing the cart engine. The two-second payment
 * simulation is a pending timer that `CompleteProcessing` fires.
 */
module Checkout {
  import opened Options
  import opened Types
  import opened Validation
  import opened Cart

  datatype Step = Details | Payment | Success

  /** What the page renders. */
  datatype Screen = EmptyCartNotice | DetailsForm | PaymentForm | SuccessScreen

  const EmptyCustomer: CustomerDetails := CustomerDetails("", "", "", "", "", "", "")
  const EmptyPayment: PaymentDetails := PaymentDetails("", "", "", "", "", "")

  /** The value of one delivery field. */
  function CustomerValue(d: CustomerDetails, f: CustomerField): string
  {
    match f
    case Name => d.name
    case Phone => d.phone
    case Email => d.email
    case Address => d.address
    case City => d.city
    case Pincode => d.pincode
    case CookingNote => d.cookingNote
  }

  /** `{ ...prev, [field]: value }` on the delivery form. */
  function WithCustomerValue(d: CustomerDetails, f: CustomerField, value: string): (r: CustomerDetails)
    ensures CustomerValue(r, f) == value
    ensures forall g :: g != f ==> CustomerValue(r, g) == CustomerValue(d, g)
  {
    match f
    case Name => d.(name := value)
    case Phone => d.(phone := value)
    case Email => d.(email := value)
    case Address => d.(address := value)
    case City => d.(city := value)
    case Pincode => d.(pincode := value)
    case CookingNote => d.(cookingNote := value)
  }

  /** The value of one payment field. */
  function PaymentValue(d: PaymentDetails, f: PaymentField): string
  {
    match f
    case UpiId => d.upiId
    case CardNumber => d.cardNumber
    case CardExpiry => d.cardExpiry
    case CardCvv => d.cardCvv
    case CardName => d.cardName
    case SelectedBank => d.selectedBank
  }

  /** `{ ...p, [field]: value }` on the payment form. */
  function WithPaymentValue(d: PaymentDetails, f: PaymentField, value: string): (r: PaymentDetails)
    ensures PaymentValue(r, f) == value
    ensures forall g :: g != f ==> PaymentValue(r, g) == PaymentValue(d, g)
  {
    match f
    case UpiId => d.(upiId := value)
    case CardNumber => d.(cardNumber := value)
    case CardExpiry => d.(cardExpiry := value)
    case CardCvv => d.(cardCvv := value)
    case CardName => d.(cardName := value)
    case SelectedBank => d.(selectedBank := value)
  }

  /** The payment form renders a field's input only under its own method: UPI, card or net banking. */
  predicate InputShown(paymentMethod: string, f: PaymentField)
  {
    match f
    case UpiId => paymentMethod == "upi"
    case SelectedBank => paymentMethod == "netbanking"
    case _ => paymentMethod == "card"
  }

  /** What a payment input stores for what was typed: the card inputs reformat, the others store it as is. */
  function PaymentInput(f: PaymentField, typed: string): string
  {
    match f
    case CardNumber => FormatCardNumber(typed)
    case CardExpiry => FormatExpiry(typed)
    case CardCvv => FormatCvv(typed)
    case _ => typed
  }

  /** A stored CVV is at most four digits; a stored expiry at most five characters. */
  lemma PaymentInputShape(f: PaymentField, typed: string)
    ensures f == CardCvv ==> |PaymentInput(f, typed)| <= 4 && Text.AllDigits(PaymentInput(f, typed))
    ensures f == CardExpiry ==> |PaymentInput(f, typed)| <= 5
    ensures f in {UpiId, CardName, SelectedBank} ==> PaymentInput(f, typed) == typed
  {
    if f == CardCvv {
      FormatCvvProperties(typed);
    } else if f == CardExpiry {
      FormatExpiryLayout(typed);
    }
  }

  class CheckoutPage {
    var step: Step
    var paymentMethod: string
    var isProcessing: bool
    /** Payment simulations started and not yet finished. */
    var pendingTimers: nat
    var formData: CustomerDetails
    var paymentDetails: PaymentDetails
    var errors: map<CustomerField, string>
    var paymentErrors: map<PaymentField, string>
    const cart: CartEngine
    /** zod's e-mail syntax check. */
    const isEmail: string -> bool

    /**
     * The page is processing only while a payment simulation is pending, so a
     * "Processing..." page always has a timer that will end it (the timer's
     * transition needs no more than `isProcessing`); the cooking note is never
     * in error.
     */
    predicate Valid()
      reads this
    {
      (isProcessing ==> pendingTimers > 0) && CookingNote !in errors
    }

    /**
     * The page renders the empty-cart notice whenever the cart is empty, except
     * after an order; otherwise the screen follows the step.
     */
    function CurrentScreen(): (s: Screen)
      reads this, cart
      ensures s == EmptyCartNotice <==> |cart.items| == 0 && step != Success
      ensures s == SuccessScreen <==> step == Success
      ensures s == DetailsForm <==> |cart.items| > 0 && step == Details
      ensures s == PaymentForm <==> |cart.items| > 0 && step == Payment
    {
      if |cart.items| == 0 && step != Success then EmptyCartNotice
      else match step
        case Details => DetailsForm
        case Payment => PaymentForm
        case Success => SuccessScreen
    }

    /** The page's initial state. */
    constructor(cart: CartEngine, isEmail: string -> bool)
      ensures this.cart == cart && this.isEmail == isEmail
      ensures step == Details && paymentMethod == "upi" && !isProcessing && pendingTimers == 0
      ensures formData == EmptyCustomer && paymentDetails == EmptyPayment
      ensures errors == map[] && paymentErrors == map[]
      ensures Valid()
    {
      this.cart := cart;
      this.isEmail := isEmail;
      step, paymentMethod, isProcessing, pendingTimers := Details, "upi", false, 0;
      formData, paymentDetails := EmptyCustomer, EmptyPayment;
      errors, paymentErrors := map[], map[];
    }

    /**
     * `validateForm`: the form passes exactly when no field's rule fails, and
     * the error map then holds an entry for exactly the failing fields. The
     * form itself is not changed, so `old(formData)` is the form as it stands.
     */
    method ValidateForm() returns (ok: bool)
      requires Valid()
      modifies this`errors
      ensures ok <==> FailingCustomerFields(old(formData), isEmail) == {}
      ensures errors == IssueMap(CustomerIssues(old(formData), isEmail))
      ensures errors.Keys == FailingCustomerFields(old(formData), isEmail)
      ensures Valid()
    {
      var issues := CustomerIssues(formData, isEmail);
      CustomerErrorsAreFailingFields(formData, isEmail);
      if issues == [] {
        errors := map[];
        ok := true;
      } else {
        errors := CollectIssues(issues);
        ok := false;
      }
    }

    /**
     * Once the order is placed, the page shows neither form, so no handler but
     * the payment simulation's timer can run.
     */
    lemma SuccessShowsNoForm()
      requires step == Success
      ensures CurrentScreen() != DetailsForm && CurrentScreen() != PaymentForm
      ensures CurrentScreen() == SuccessScreen
    {
    }

    /** `handleInputChange(field, value)`, on the details form: stores the value and clears that field's error. */
    method HandleInputChange(field: CustomerField, value: string)
      requires Valid() && CurrentScreen() == DetailsForm
      modifies this`formData, this`errors
      ensures formData == WithCustomerValue(old(formData), field, value)
      ensures errors == old(errors) - {field}
      ensures Valid()
    {
      formData := WithCustomerValue(formData, field, value);
      if field in errors {
        errors := errors - {field};
      }
    }

    /** `handleContinueToPayment`, on the details form: moves to the payment step exactly when the form passes. */
    method ContinueToPayment() returns (moved: bool)
      requires Valid() && CurrentScreen() == DetailsForm
      modifies this`errors, this`step, this`paymentErrors
      ensures moved <==> FailingCustomerFields(old(formData), isEmail) == {}
      ensures errors.Keys == FailingCustomerFields(old(formData), isEmail)
      ensures step == if moved then Payment else Details
      ensures CurrentScreen() == if moved then PaymentForm else DetailsForm
      ensures paymentErrors == if moved then map[] else old(paymentErrors)
      ensures Valid()
    {
      moved := ValidateForm();
      if moved {
        step := Payment;
        paymentErrors := map[];
      }
    }

    /** The payment form's payment-method radio group. */
    method SelectPaymentMethod(m: string)
      requires Valid() && CurrentScreen() == PaymentForm
      modifies this`paymentMethod
      ensures paymentMethod == m
      ensures Valid()
    {
      paymentMethod := m;
    }

    /**
     * A payment form input's change handler: stores what was typed
     * (reformatted for the card number, expiry and CVV) and clears that
     * field's error.
     */
    method ChangePaymentField(field: PaymentField, typed: string)
      requires Valid() && CurrentScreen() == PaymentForm && InputShown(paymentMethod, field)
      modifies this`paymentDetails, this`paymentErrors
      ensures paymentDetails == WithPaymentValue(old(paymentDetails), field, PaymentInput(field, typed))
      ensures paymentErrors == old(paymentErrors) - {field}
      ensures Valid()
    {
      paymentDetails := WithPaymentValue(paymentDetails, field, PaymentInput(field, typed));
      if field in paymentErrors {
        paymentErrors := paymentErrors - {field};
      }
    }

    /**
     * `validatePaymentDetails`: decides by the selected method and sets the
     * payment error map, except for an unknown method, which passes and leaves
     * the map alone.
     */
    method ValidatePaymentDetails() returns (ok: bool)
      requires Valid()
      modifies this`paymentErrors
      ensures var outcome := CheckPayment(paymentMethod, paymentDetails);
        && ok == outcome.ok
        && paymentErrors == if outcome.errors.Some? then outcome.errors.value else old(paymentErrors)
      ensures Valid()
    {
      if paymentMethod == "cod" {
        paymentErrors := map[];
        return true;
      }
      if paymentMethod == "upi" {
        var issues := UpiIssues(paymentDetails.upiId);
        if issues == [] {
          paymentErrors := map[];
          return true;
        }
        paymentErrors := map[UpiId := issues[0].message];
        return false;
      }
      if paymentMethod == "card" {
        var issues := CardIssues(paymentDetails);
        if issues == [] {
          paymentErrors := map[];
          return true;
        }
        paymentErrors := CollectIssues(issues);
        return false;
      }
      if paymentMethod == "netbanking" {
        if paymentDetails.selectedBank == "" {
          paymentErrors := map[SelectedBank := BankRequired];
          return false;
        }
        paymentErrors := map[];
        return true;
      }
      return true;
    }

    /**
     * `handlePlaceOrder`, on the payment form, whose button is disabled while
     * processing: starts the payment simulation exactly when the payment
     * details pass.
     */
    method PlaceOrder() returns (started: bool)
      requires Valid() && CurrentScreen() == PaymentForm && !isProcessing
      modifies this`paymentErrors, this`isProcessing, this`pendingTimers
      ensures started == CheckPayment(paymentMethod, paymentDetails).ok
      ensures var outcome := CheckPayment(paymentMethod, paymentDetails);
        paymentErrors == if outcome.errors.Some? then outcome.errors.value else old(paymentErrors)
      ensures isProcessing == started
      ensures pendingTimers == old(pendingTimers) + (if started then 1 else 0)
      ensures Valid()
    {
      started := ValidatePaymentDetails();
      if started {
        isProcessing := true;
        pendingTimers := pendingTimers + 1;
      }
    }

    /** The payment simulation's timer fires: the order is placed and the cart emptied. */
    method CompleteProcessing()
      requires Valid() && isProcessing
      modifies this`isProcessing, this`step, this`pendingTimers, cart
      ensures !isProcessing && step == Success && pendingTimers == old(pendingTimers) - 1
      ensures cart.State() == EmptyCart && cart.Persisted()
      ensures CurrentScreen() == SuccessScreen
      ensures Valid()
    {
      isProcessing := false;
      step := Success;
      cart.ClearCart();
      pendingTimers := pendingTimers - 1;
    }

    /**
     * The header's back arrow, shown on the two forms only: from payment back
     * to details; from details it leaves for the cart page.
     */
    method BackButton() returns (leavesForCart: bool)
      requires Valid() && CurrentScreen() in {DetailsForm, PaymentForm}
      modifies this`step
      ensures leavesForCart <==> old(step) == Details
      ensures step == Details
      ensures CurrentScreen() == DetailsForm
      ensures Valid()
    {
      if step == Payment {
        step := Details;
        return false;
      }
      return true;
    }

    /** The "Update account & address" buttons of the payment form. */
    method EditDetails()
      requires Valid() && CurrentScreen() == PaymentForm
      modifies this`step
      ensures step == Details
      ensures CurrentScreen() == DetailsForm
      ensures Valid()
    {
      step := Details;
    }
  }

  /**
   * Placing an order from the payment form and letting its timer fire ends,
   * with a passing payment, on the success screen with an empty cart.
   */
  method PlaceAndComplete(page: CheckoutPage) returns (started: bool)
    requires page.Valid() && page.CurrentScreen() == PaymentForm && !page.isProcessing
    modifies page, page.cart
    ensures started == CheckPayment(old(page.paymentMethod), old(page.paymentDetails)).ok
    ensures started ==> page.CurrentScreen() == SuccessScreen && page.cart.State() == EmptyCart
    ensures !started ==> page.step == old(page.step) && page.cart.State() == old(page.cart.State())
    ensures page.Valid()
  {
    started := page.PlaceOrder();
    if started {
      page.CompleteProcessing();
    }
  }
}
