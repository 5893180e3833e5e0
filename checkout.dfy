/** The checkout page of app/checkout/page.tsx: it loads the frozen cart
    snapshot from `sessionStorage`, edits the shipping form one field at a
    time, shows the order summary, and places a simulated order. */
module Checkout {
  import opened Common
  import opened CartActions
  import opened BrowserStorage

  /** The `name` attribute of each form control. */
  datatype Field = FullName | Email | Phone | Address | City | State | Pincode | PaymentMethod

  datatype FormData = FormData(
    fullName: string,
    email: string,
    phone: string,
    address: string,
    city: string,
    state: string,
    pincode: string,
    paymentMethod: string)

  function Get(form: FormData, field: Field): string {
    match field
    case FullName => form.fullName
    case Email => form.email
    case Phone => form.phone
    case Address => form.address
    case City => form.city
    case State => form.state
    case Pincode => form.pincode
    case PaymentMethod => form.paymentMethod
  }

  /** `{ ...prev, [name]: value }`: the named field takes the value and every
      other field keeps its own. */
  function WithField(form: FormData, field: Field, value: string): (r: FormData)
    ensures Get(r, field) == value
    ensures forall other :: other != field ==> Get(r, other) == Get(form, other)
  {
    match field
    case FullName => form.(fullName := value)
    case Email => form.(email := value)
    case Phone => form.(phone := value)
    case Address => form.(address := value)
    case City => form.(city := value)
    case State => form.(state := value)
    case Pincode => form.(pincode := value)
    case PaymentMethod => form.(paymentMethod := value)
  }

  /** The form the page starts with: every text field empty, cash on delivery. */
  function InitialForm(): (form: FormData)
    ensures forall f :: f != PaymentMethod ==> Get(form, f) == ""
    ensures Get(form, PaymentMethod) == "cod"
  {
    FormData("", "", "", "", "", "", "", "cod")
  }

  /** The text fields carry the HTML `required` attribute, so the browser
      submits the form only when each of them is non-empty. */
  predicate RequiredFieldsFilled(form: FormData): (filled: bool)
    ensures filled <==> forall f :: f != PaymentMethod ==> Get(form, f) != ""
  {
    assert Get(form, FullName) == form.fullName && Get(form, Email) == form.email && Get(form, Phone) == form.phone;
    assert Get(form, Address) == form.address && Get(form, City) == form.city;
    assert Get(form, State) == form.state && Get(form, Pincode) == form.pincode;
    form.fullName != "" && form.email != "" && form.phone != "" && form.address != "" &&
    form.city != "" && form.state != "" && form.pincode != ""
  }

  /** Filling every required field in turn makes the form submittable. */
  lemma FillingFieldsEnablesSubmit(form: FormData, name: string, email: string, phone: string,
                                   address: string, city: string, state: string, pincode: string)
    requires name != "" && email != "" && phone != "" && address != ""
    requires city != "" && state != "" && pincode != ""
    ensures RequiredFieldsFilled(
      WithField(WithField(WithField(WithField(WithField(WithField(WithField(
        form, FullName, name), Email, email), Phone, phone), Address, address),
        City, city), State, state), Pincode, pincode))
  {
  }

  /** How the load effect ends: the snapshot was read, there was none (so the
      page redirected), or `JSON.parse` threw out of the effect. */
  datatype LoadOutcome = Loaded | Redirected | Threw

  class CheckoutPage {
    var isLoading: bool
    var checkoutItems: seq<LineItem>
    var formData: FormData

    constructor ()
      ensures isLoading && checkoutItems == [] && formData == InitialForm()
    {
      isLoading := true;
      checkoutItems := [];
      formData := InitialForm();
    }

    /** The spinner-only view. */
    predicate ShowsSpinner()
      reads this
    {
      isLoading && |checkoutItems| == 0
    }

    /** The mount effect. A stored snapshot becomes the page's list; without
        one (or with an empty string) the page shows an error toast and goes
        home with the list still empty. Either way loading ends. A snapshot
        that does not parse throws before anything is set. */
    method LoadSnapshot(session: KeyValueStore<LineItem>)
      returns (outcome: LoadOutcome, navigateTo: Option<string>, toast: Option<string>)
      modifies this
      ensures formData == old(formData)
      ensures CheckoutItemsKey in session.entries && session.entries[CheckoutItemsKey].Serialized? ==>
        outcome == Loaded && checkoutItems == session.entries[CheckoutItemsKey].items &&
        !isLoading && navigateTo == None && toast == None
      ensures CheckoutItemsKey !in session.entries || session.entries[CheckoutItemsKey].Blank? ==>
        outcome == Redirected && checkoutItems == old(checkoutItems) && !isLoading &&
        navigateTo == Some("/") && toast == Some("No items in cart")
      ensures CheckoutItemsKey in session.entries && session.entries[CheckoutItemsKey].Unparseable? ==>
        outcome == Threw && checkoutItems == old(checkoutItems) && isLoading == old(isLoading) &&
        navigateTo == None && toast == None
      ensures outcome != Threw ==> !ShowsSpinner()
    {
      var stored, present := session.GetItem(CheckoutItemsKey);
      if present && stored.Unparseable? {
        return Threw, None, None;
      }
      if present && stored.Serialized? {
        checkoutItems := stored.items;
        outcome, navigateTo, toast := Loaded, None, None;
      } else {
        outcome, navigateTo, toast := Redirected, Some("/"), Some("No items in cart");
      }
      isLoading := false;
    }

    /** `handleInputChange`: only the named field changes. */
    method HandleInputChange(field: Field, value: string)
      modifies this
      ensures formData == WithField(old(formData), field, value)
      ensures isLoading == old(isLoading) && checkoutItems == old(checkoutItems)
    {
      formData := WithField(formData, field, value);
    }

    /** `calculateTotal`: the sum of the summary's line amounts, 0 for no lines. */
    function CalculateTotal(): (total: int)
      reads this
      ensures total == SumOfAmounts(LineAmounts(checkoutItems))
      ensures checkoutItems == [] ==> total == 0
    {
      SubtotalIsSumOfLineAmounts(checkoutItems);
      Subtotal(checkoutItems)
    }

    /** `handlePlaceOrder`, with the simulated delay elapsed: loading starts,
        the snapshot is removed, and the page moves to /orders/success. */
    method HandlePlaceOrder(session: KeyValueStore<LineItem>)
      returns (navigateTo: string, toast: string)
      modifies this, session
      ensures isLoading
      ensures checkoutItems == old(checkoutItems) && formData == old(formData)
      ensures session.entries == old(session.entries) - {CheckoutItemsKey}
      ensures CheckoutItemsKey !in session.entries
      ensures navigateTo == "/orders/success" && toast == "Order placed successfully!"
      ensures ShowsSpinner() <==> checkoutItems == []
    {
      isLoading := true;
      session.RemoveItem(CheckoutItemsKey);
      navigateTo, toast := "/orders/success", "Order placed successfully!";
    }

    /** Submitting the form. The button is disabled while the page is
        loading, which includes the time after an order was placed; the
        browser also blocks the submit while a required field is empty.
        Otherwise the order is placed. */
    method SubmitForm(session: KeyValueStore<LineItem>)
      returns (navigateTo: Option<string>, toast: Option<string>)
      modifies this, session
      ensures old(isLoading) || !RequiredFieldsFilled(old(formData)) ==>
        unchanged(this) && session.entries == old(session.entries) && navigateTo == None && toast == None
      ensures !old(isLoading) && RequiredFieldsFilled(old(formData)) ==>
        isLoading && session.entries == old(session.entries) - {CheckoutItemsKey} &&
        navigateTo == Some("/orders/success") && toast == Some("Order placed successfully!")
    {
      if isLoading || !RequiredFieldsFilled(formData) {
        return None, None;
      }
      var nav, t := HandlePlaceOrder(session);
      navigateTo, toast := Some(nav), Some(t);
    }
  }
}
