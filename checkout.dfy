/** The checkout wizard of components/features/checkout/Checkout.tsx: three
    steps (address, shipping, payment), a gate on leaving each step, and the
    page's own last check of the payment data before paying. */
module Checkout {
  import opened Types
  import opened Strings
  import opened JsNumber
  import PaymentForm

  const LastStep := 3

  /** The two addresses the page starts with. */
  const InitialAddresses: seq<Address> := [
    Address("home", Home, "2118 Thornridge", "2118 Thornridge Cir. Syracruse, Connecticut 35624", "(209) 555-0104"),
    Address("office", Office, "Headoffice", "2715 Ash Dr. San Jose, South Dakota 83475", "(704) 555-0127")
  ]

  const EmptyPayment := PaymentFormData("", "", "", "", true)

  // ---------------------------------------------------------- the step gate

  /** `validateStep`: the error toast that stops the step, or none. Step 1
      needs a non-empty selection and at least one address; step 2 needs a
      date when delivery is scheduled; any other step passes. */
  function StepError(step: int, selectedAddress: string, addressCount: nat,
                     selectedShipping: string, selectedDate: string): (r: Option<string>)
    ensures step == 1 ==> (r == None <==> selectedAddress != "" && addressCount > 0)
    ensures step == 2 ==> (r == None <==> !(selectedShipping == "schedule" && selectedDate == ""))
    ensures step != 1 && step != 2 ==> r == None
  {
    if step == 1 && (selectedAddress == "" || addressCount == 0) then Some("Please select a delivery address")
    else if step == 2 && selectedShipping == "schedule" && selectedDate == "" then Some("Please select a delivery date")
    else None
  }

  /** The first step checks only that some id is selected, not that it names
      one of the addresses: an id left over from a deleted address passes. */
  lemma StepOneIgnoresWhichAddress()
    ensures forall a :: a in InitialAddresses ==> a.id != "work"
    ensures StepError(1, "work", |InitialAddresses|, "free", "") == None
  {
  }

  /** `handleNext` after the gate: advance unless on the last step. */
  function NextStep(step: int, gateOpen: bool): int
  {
    if gateOpen && step < LastStep then step + 1 else step
  }

  /** `handleBack`. */
  function BackStep(step: int): int
  {
    if step > 1 then step - 1 else step
  }

  /** A button press: Next (with whether the gate let it through) or Back. */
  datatype Press = Next(gateOpen: bool) | Back

  function Press1(step: int, p: Press): int
  {
    match p
    case Next(ok) => NextStep(step, ok)
    case Back => BackStep(step)
  }

  function Walk(step: int, presses: seq<Press>): int
    decreases |presses|
  {
    if presses == [] then step else Walk(Press1(step, presses[0]), presses[1..])
  }

  function OpenNexts(presses: seq<Press>): nat
  {
    if presses == [] then 0
    else (if presses[0] == Next(true) then 1 else 0) + OpenNexts(presses[1..])
  }

  /** Whatever is pressed, the wizard stays on one of its three steps, and
      it gets ahead only by as many steps as the gate let through. */
  lemma {:induction false} WalkStaysInRange(step: int, presses: seq<Press>)
    requires 1 <= step <= LastStep
    ensures 1 <= Walk(step, presses) <= LastStep
    ensures Walk(step, presses) - step <= OpenNexts(presses)
    decreases |presses|
  {
    if presses != [] {
      WalkStaysInRange(Press1(step, presses[0]), presses[1..]);
    }
  }

  // ---------------------------------------------------------- payment check

  /** `/^\d{2}\/\d{2}$/`. */
  predicate ExpiryShape(s: string)
  {
    |s| == 5 && IsDigit(s[0]) && IsDigit(s[1]) && s[2] == '/' && IsDigit(s[3]) && IsDigit(s[4])
  }

  /** The month that `expDate.split('/').map(Number)` yields for text of
      that shape: the value of its first two digits. */
  function ExpiryMonth(s: string): nat
    requires ExpiryShape(s)
  {
    DigitsValue(s[..2], 10)
  }

  /** `validatePayment`: the error toast of the first failing check, or none. */
  function PaymentError(data: PaymentFormData): (r: Option<string>)
    ensures r == None <==>
      Trim(data.cardholderName) != [] &&
      13 <= |RemoveSpaces(data.cardNumber)| <= 19 &&
      ExpiryShape(data.expDate) && 1 <= ExpiryMonth(data.expDate) <= 12 &&
      3 <= |data.cvv| <= 4
  {
    if Trim(data.cardholderName) == [] then Some("Please enter cardholder name")
    else if |RemoveSpaces(data.cardNumber)| < 13 || |RemoveSpaces(data.cardNumber)| > 19 then
      Some("Please enter a valid card number")
    else if !ExpiryShape(data.expDate) then Some("Please enter expiry date in MM/YY format")
    else if ExpiryMonth(data.expDate) < 1 || ExpiryMonth(data.expDate) > 12 then Some("Invalid expiry month")
    else if |data.cvv| < 3 || |data.cvv| > 4 then Some("Please enter a valid CVV")
    else None
  }

  /** Payment data the form accepts, with an expiry and a CVV as the form's
      inputs store them, passes the page's check too. */
  lemma FormAcceptedPassesCheckout(data: PaymentFormData, today: PaymentForm.Today,
                                   expTyped: string, cvvTyped: string)
    requires data.expDate == PaymentForm.FormatExpDate(expTyped)
    requires data.cvv == PaymentForm.CvvInput(cvvTyped)
    requires PaymentForm.FormValid(data, today)
    ensures PaymentError(data) == None
  {
    PaymentForm.FormValidFields(data, today);
    var r := data.expDate;
    assert |r| == 5;
    assert IsDigit(r[3]) && IsDigit(r[4]) by {
      assert r[3..][0] == r[3] && r[3..][1] == r[4];
    }
    PaymentForm.ExpiryOfFormatted(expTyped, today);
  }

  /** The page's check counts the card number's characters but does not look
      at them: a card number the page accepts with a character that is
      neither a digit nor white space is one the form rejects. */
  lemma CheckoutAcceptsNonDigitCards(data: PaymentFormData, k: nat)
    requires PaymentError(data) == None
    requires k < |data.cardNumber| && !IsDigit(data.cardNumber[k]) && !IsSpace(data.cardNumber[k])
    ensures PaymentForm.CardError(data.cardNumber) == Some("Card number must contain only digits")
  {
    RemoveSpacesKeeps(data.cardNumber, k);
    assert !AllDigits(RemoveSpaces(data.cardNumber));
  }

  /** The page's check reads the month but not the year: a card the page
      accepts whose two-digit year is before today's is one the form
      rejects as expired. */
  lemma CheckoutAcceptsExpiredCards(data: PaymentFormData, today: PaymentForm.Today)
    requires PaymentError(data) == None
    requires ExpiryShape(data.expDate) && DigitsValue(data.expDate[3..], 10) < today.fullYear % 100
    ensures PaymentForm.ExpiryError(data.expDate, today) == Some("Card has expired")
  {
    var r := data.expDate;
    assert AllDigits(r[3..]) by {
      assert forall i :: 0 <= i < |r[3..]| ==> r[3..][i] == r[3 + i];
    }
    PaymentForm.SplitExpiry(r);
    ParseIntDigits(r[..2]);
    ParseIntDigits(r[3..]);
    assert PaymentForm.ExpiryError(r, today) ==
      PaymentForm.ExpiryDateError(Finite(DigitsValue(r[..2], 10)), Finite(DigitsValue(r[3..], 10)), today);
  }

  // ---------------------------------------------------------- the page

  /** The page's state. `isLoading` is left out: it is set and cleared
      around a timer within one press. */
  class CheckoutStepper {
    var currentStep: int
    var selectedAddress: string
    var selectedShipping: string
    var selectedDate: string
    var addresses: seq<Address>
    var formData: PaymentFormData

    constructor ()
      ensures currentStep == 1 && selectedAddress == "home" && selectedShipping == "free"
      ensures selectedDate == "" && addresses == InitialAddresses && formData == EmptyPayment
    {
      currentStep := 1;
      selectedAddress := "home";
      selectedShipping := "free";
      selectedDate := "";
      addresses := InitialAddresses;
      formData := EmptyPayment;
    }

    function CurrentStepError(): Option<string>
      reads this
    {
      StepError(currentStep, selectedAddress, |addresses|, selectedShipping, selectedDate)
    }

    /** `handleNext`: stay when the gate fails, else advance unless on the
        last step. */
    method HandleNext()
      modifies this`currentStep
      ensures currentStep == NextStep(old(currentStep), old(CurrentStepError()) == None)
      ensures 1 <= old(currentStep) <= LastStep ==> 1 <= currentStep <= LastStep
    {
      var error := StepError(currentStep, selectedAddress, |addresses|, selectedShipping, selectedDate);
      if error.Some? {
        return;
      }
      if currentStep < LastStep {
        currentStep := currentStep + 1;
      }
    }

    method HandleBack()
      modifies this`currentStep
      ensures currentStep == BackStep(old(currentStep))
      ensures 1 <= old(currentStep) <= LastStep ==> 1 <= currentStep <= LastStep
    {
      if currentStep > 1 {
        currentStep := currentStep - 1;
      }
    }

    /** `handlePay`: whether the payment goes ahead. Nothing of the page
        changes either way. */
    method HandlePay() returns (processed: bool)
      ensures processed <==> PaymentError(formData) == None
    {
      var error := PaymentError(formData);
      processed := error == None;
    }
  }
}
