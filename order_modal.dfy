/**
 * The four-step order dialog: 1 configure the product, 2 personal details,
 * 3 review, 4 confirmation. Each button handler is a method; the network
 * request of "Confirm Order" is split into its start, which raises the
 * submitting flag and hands out the order, and its end, which receives the
 * outcome of the request.
 */
module OrderModal {
  import opened Wrappers
  import opened OrderRules
  import Catalog

  /** The order sent to the server (its timestamp is not modelled). */
  datatype OrderData = OrderData(
    productId: nat, productName: string, basePrice: int,
    color: string, ram: string, storage: string, finalPrice: int,
    customer: PersonalDetails)

  /** How the order request ended. */
  datatype SubmitOutcome =
    | Accepted                // a 2xx response whose body was read
    | Rejected(status: int)   // any other status: the handler throws
    | Failed                  // the request or the body parsing threw

  class OrderWizard {
    const product: Catalog.Product
    var currentStep: int
    var selectedColor: string
    var selectedRam: string
    var selectedStorage: string
    var personalDetails: PersonalDetails
    var formErrors: map<Field, string>
    var isSubmitting: bool
    var orderSuccess: bool

    /**
     * The step is one of the four; the confirmation step is shown exactly when
     * the order succeeded; the review step only ever holds details that pass
     * validation.
     */
    predicate Valid()
      reads this
    {
      1 <= currentStep <= 4
      && (orderSuccess <==> currentStep == 4)
      && (currentStep == 3 ==> FormValid(personalDetails))
    }

    constructor (product: Catalog.Product)
      ensures Valid() && this.product == product
      ensures currentStep == 1 && selectedColor == "black" && selectedRam == "16GB" && selectedStorage == "512GB"
      ensures personalDetails == EmptyDetails() && formErrors == map[] && !isSubmitting && !orderSuccess
    {
      this.product := product;
      currentStep := 1;
      selectedColor, selectedRam, selectedStorage := "black", "16GB", "512GB";
      personalDetails := EmptyDetails();
      formErrors := map[];
      isSubmitting, orderSuccess := false, false;
    }

    /** The total shown and sent: the product's price with the selected upgrades. */
    function Price(): int
      reads this
    {
      CalculatePrice(product.price, selectedRam, selectedStorage)
    }

    method SelectColor(key: string)
      requires Valid() && currentStep == 1
      modifies this`selectedColor
      ensures Valid() && selectedColor == key
    {
      selectedColor := key;
    }

    method SelectRam(value: string)
      requires Valid() && currentStep == 1
      modifies this`selectedRam
      ensures Valid() && selectedRam == value
      ensures Price() >= product.price
    {
      selectedRam := value;
    }

    method SelectStorage(value: string)
      requires Valid() && currentStep == 1
      modifies this`selectedStorage
      ensures Valid() && selectedStorage == value
      ensures Price() >= product.price
    {
      selectedStorage := value;
    }

    /** "Continue to Details": no check is made. */
    method ContinueToDetails()
      requires Valid() && currentStep == 1
      modifies this`currentStep
      ensures Valid() && currentStep == 2
    {
      currentStep := 2;
    }

    /** "Back" from the details form; entered details are kept. */
    method BackToConfiguration()
      requires Valid() && currentStep == 2
      modifies this`currentStep
      ensures Valid() && currentStep == 1
    {
      currentStep := 1;
    }

    /** Typing into a field: only that field changes, and its message is blanked if one is showing. */
    method HandlePersonalDetailsChange(field: Field, value: string)
      requires Valid() && currentStep == 2
      modifies this`personalDetails, this`formErrors
      ensures Valid()
      ensures Get(personalDetails, field) == value
      ensures forall g :: g != field ==> Get(personalDetails, g) == Get(old(personalDetails), g)
      ensures formErrors == if field in old(formErrors) && old(formErrors)[field] != ""
                            then old(formErrors)[field := ""] else old(formErrors)
    {
      personalDetails := Set(personalDetails, field, value);
      if field in formErrors && formErrors[field] != "" {
        formErrors := formErrors[field := ""];
      }
    }

    /**
     * Runs the checks field by field, in the form's order, collecting the
     * messages into a fresh map that becomes the form's errors; the form is
     * valid exactly when no message was collected.
     */
    method ValidateForm() returns (ok: bool)
      modifies this`formErrors
      ensures forall f :: f in formErrors <==> FieldError(personalDetails, f).Some?
      ensures forall f :: f in formErrors ==> formErrors[f] == FieldError(personalDetails, f).value
      ensures ok <==> FormValid(personalDetails)
    {
      var fields := [FirstName, LastName, Address, City, Mobile, ZipCode, Email];
      var errors: map<Field, string> := map[];
      for n := 0 to |fields|
        invariant forall f :: f in errors <==> f in fields[..n] && FieldError(personalDetails, f).Some?
        invariant forall f :: f in errors ==> errors[f] == FieldError(personalDetails, f).value
      {
        var message := FieldError(personalDetails, fields[n]);
        if message.Some? {
          errors := errors[fields[n] := message.value];
        }
      }
      forall f
        ensures f in fields
      {
        match f
        case FirstName =>
        case LastName =>
        case Address =>
        case City =>
        case Mobile =>
        case ZipCode =>
        case Email =>
      }
      assert fields[..|fields|] == fields;
      formErrors := errors;
      ok := errors == map[];
      if !ok {
        var f :| f in errors;
      }
    }

    /** "Review Order": moves to the review step only when the form is valid. */
    method ReviewOrder()
      requires Valid() && currentStep == 2
      modifies this`formErrors, this`currentStep
      ensures Valid()
      ensures currentStep == if FormValid(personalDetails) then 3 else 2
      ensures forall f :: f in formErrors <==> FieldError(personalDetails, f).Some?
    {
      var ok := ValidateForm();
      if ok {
        currentStep := 3;
      }
    }

    /** "Back to Details" from the review step. */
    method BackToDetails()
      requires Valid() && currentStep == 3
      modifies this`currentStep
      ensures Valid() && currentStep == 2
    {
      currentStep := 2;
    }

    /** "Confirm Order" (disabled while submitting): raises the flag and hands out the order. */
    method BeginSubmit() returns (order: OrderData)
      requires Valid() && currentStep == 3 && !isSubmitting
      modifies this`isSubmitting
      ensures Valid() && isSubmitting
      ensures order == OrderData(product.id, product.name, product.price, selectedColor, selectedRam,
                                 selectedStorage, Price(), personalDetails)
      ensures FormValid(order.customer) && order.finalPrice >= order.basePrice
    {
      isSubmitting := true;
      order := OrderData(product.id, product.name, product.price, selectedColor, selectedRam,
                         selectedStorage, Price(), personalDetails);
    }

    /**
     * The end of the request: an accepted order moves to the confirmation step;
     * any other outcome raises an alert and leaves the step as it is. The flag is
     * lowered in every case. A reply that arrives after the dialog was closed
     * still takes effect.
     */
    method FinishSubmit(outcome: SubmitOutcome) returns (alerted: bool)
      requires Valid()
      modifies this`isSubmitting, this`orderSuccess, this`currentStep
      ensures Valid() && !isSubmitting
      ensures alerted <==> !outcome.Accepted?
      ensures outcome.Accepted? ==> orderSuccess && currentStep == 4
      ensures !outcome.Accepted? ==> orderSuccess == old(orderSuccess) && currentStep == old(currentStep)
    {
      if outcome.Accepted? {
        orderSuccess := true;
        currentStep := 4;
        alerted := false;
      } else {
        alerted := true;
      }
      isSubmitting := false;
    }

    /** Back to the initial configuration; the error map and the submitting flag are left as they are. */
    method ResetModal()
      modifies this`currentStep, this`selectedColor, this`selectedRam, this`selectedStorage,
               this`personalDetails, this`orderSuccess
      ensures Valid()
      ensures currentStep == 1 && selectedColor == "black" && selectedRam == "16GB" && selectedStorage == "512GB"
      ensures personalDetails == EmptyDetails() && !orderSuccess
      ensures Price() == product.price + 350
    {
      currentStep := 1;
      selectedColor, selectedRam, selectedStorage := "black", "16GB", "512GB";
      personalDetails := EmptyDetails();
      orderSuccess := false;
      DefaultSelectionPrice(product.price);
    }

    /**
     * The close button, "Cancel" and the backdrop: the dialog is reset; the
     * parent's `onClose`, which hides it, is outside this model.
     */
    method HandleClose()
      modifies this`currentStep, this`selectedColor, this`selectedRam, this`selectedStorage,
               this`personalDetails, this`orderSuccess
      ensures Valid() && currentStep == 1 && !orderSuccess
      ensures selectedColor == "black" && selectedRam == "16GB" && selectedStorage == "512GB"
      ensures personalDetails == EmptyDetails()
      ensures formErrors == old(formErrors) && isSubmitting == old(isSubmitting)
    {
      ResetModal();
    }
  }
}
