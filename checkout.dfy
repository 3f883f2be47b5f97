/** The checkout form of the cart page: its validation, the address it
    sends for pickup or delivery, and the order request it builds. */
module Checkout {
  import opened Common
  import opened Telegram
  import opened Helpers
  import opened Branches
  import opened Language
  import Cart
  import Orders

  /** `formData`. Absent or cleared text fields are empty strings. */
  datatype Form = Form(
    deliveryType: string,
    address: string,
    name: string,
    phone: string,
    paymentMethod: string,
    selectedBranchId: string,
    location: Option<GeoPoint>)

  /** The form as the page opens it, with the location it was given. */
  function InitialForm(location: Option<GeoPoint>): Form {
    Form("delivery", "", "", "+998", "cash", "", location)
  }

  /** The fields `validate` can mark. */
  datatype Field = BranchField | AddressField | PhoneField | PaymentField

  /** `validate`: fills `errs` field by field, each with its message as the
      page's translation function `t` gives it, and succeeds when no field
      was set. */
  method Validate(form: Form, t: string -> TValue) returns (ok: bool, errs: map<Field, TValue>)
    ensures BranchField in errs <==> form.deliveryType == "pickup" && form.selectedBranchId == ""
    ensures AddressField in errs <==> form.deliveryType == "delivery" && Trim(form.address) == ""
    ensures PhoneField in errs <==> !ValidatePhoneNumber(form.phone)
    ensures PaymentField in errs <==> form.paymentMethod == ""
    ensures forall f | f in errs :: errs[f] == t(ErrorKey(f))
    ensures ok <==> FormValid(form)
  {
    var noBranch := form.deliveryType == "pickup" && form.selectedBranchId == "";
    var noAddress := form.deliveryType == "delivery" && Trim(form.address) == "";
    var badPhone := !ValidatePhoneNumber(form.phone);
    var noPayment := form.paymentMethod == "";
    errs := map[];
    if noBranch {
      errs := errs[BranchField := t(ErrorKey(BranchField))];
    }
    assert BranchField in errs <==> noBranch;
    if noAddress {
      errs := errs[AddressField := t(ErrorKey(AddressField))];
    }
    assert AddressField in errs <==> noAddress;
    if badPhone {
      errs := errs[PhoneField := t(ErrorKey(PhoneField))];
    }
    assert PhoneField in errs <==> badPhone;
    if noPayment {
      errs := errs[PaymentField := t(ErrorKey(PaymentField))];
    }
    ok := errs.Keys == {};
    assert !ok ==> noBranch || noAddress || badPhone || noPayment;
  }

  /** The translation key of each field's message. */
  function ErrorKey(f: Field): string {
    match f
    case BranchField => "validation.selectBranchRequired"
    case AddressField => "validation.addressRequired"
    case PhoneField => "validation.phoneInvalid"
    case PaymentField => "validation.paymentRequired"
  }

  /** The fields `validate` would reject, as a predicate on the form. */
  predicate FormValid(form: Form) {
    && !(form.deliveryType == "pickup" && form.selectedBranchId == "")
    && !(form.deliveryType == "delivery" && Trim(form.address) == "")
    && ValidatePhoneNumber(form.phone)
    && form.paymentMethod != ""
  }

  /** `getDeliveryAddress`: for pickup, the translated branch name and the
      branch address of a known branch, or nothing; otherwise the typed
      address as it is. */
  function DeliveryAddress(form: Form, translations: map<string, TValue>, language: string): string {
    if form.deliveryType == "pickup" then
      match FindBranch(BranchTable, form.selectedBranchId)
      case Some(br) => TextOf(TSpec(translations, language, "branches." + br.id)) + " — " + br.address
      case None => ""
    else form.address
  }

  /** The `orderData` object of `handleSubmit`. */
  datatype OrderData = OrderData(
    items: seq<Cart.CartLine>,
    totalAmount: int,
    deliveryAddress: string,
    phone: string,
    name: string,
    paymentMethod: string,
    location: Option<GeoPoint>,
    deliveryType: string,
    branchId: Option<string>,
    lang: string)

  /** `orderData`: the cart, its total, the composed address, the location
      only for delivery, the branch only for pickup, and the current
      language code with `ru` as a fallback. */
  function BuildOrderData(form: Form, cart: seq<Cart.CartLine>, translations: map<string, TValue>, language: string): OrderData {
    var code := TextOf(TSpec(translations, language, "lang_code"));
    OrderData(cart, Cart.Total(cart), DeliveryAddress(form, translations, language), form.phone, form.name,
              form.paymentMethod,
              if form.deliveryType == "delivery" then form.location else None,
              form.deliveryType,
              if form.deliveryType == "pickup" then Some(form.selectedBranchId) else None,
              if code != "" then code else "ru")
  }

  // ---------------------------------------------------------------------
  // Properties
  // ---------------------------------------------------------------------

  /** The form's validity does not depend on the language. */
  lemma ValidateAgrees(form: Form, translations: map<string, TValue>, language: string)
    ensures FormValid(form) <==>
      && !(form.deliveryType == "pickup" && form.selectedBranchId == "")
      && !(form.deliveryType == "delivery" && Trim(form.address) == "")
      && |form.phone| == 13 && form.phone[..4] == "+998" && (forall i :: 4 <= i < 13 ==> IsDigit(form.phone[i]))
      && form.paymentMethod != ""
  {
    PhoneAccepted(form.phone);
  }

  /** The form as it opens is rejected: the address is blank and the phone
      holds only the country code. */
  lemma InitialFormRejected(location: Option<GeoPoint>)
    ensures !FormValid(InitialForm(location))
    ensures !ValidatePhoneNumber(InitialForm(location).phone)
    ensures Trim(InitialForm(location).address) == ""
  {
    PhoneRejections();
    TrimEmptyIff("");
  }

  /** The address sent: a known branch gives `name — address`, an unknown one
      nothing; a delivery sends what was typed. */
  lemma DeliveryAddressCases(form: Form, translations: map<string, TValue>, language: string)
    ensures form.deliveryType == "pickup" && GetBranchById(form.selectedBranchId).Some? ==>
      var br := GetBranchById(form.selectedBranchId).value;
      var a := DeliveryAddress(form, translations, language);
      && br.id == form.selectedBranchId
      && a == TextOf(TSpec(translations, language, "branches." + br.id)) + " — " + br.address
    ensures form.deliveryType == "pickup" && GetBranchById(form.selectedBranchId).None? ==>
      DeliveryAddress(form, translations, language) == ""
    ensures form.deliveryType != "pickup" ==> DeliveryAddress(form, translations, language) == form.address
  {
  }

  /** The request carries a location only for delivery and a branch only
      for pickup; its total is the cart total and its language is never
      empty, the `ru` fallback being unreachable. */
  lemma OrderDataShape(form: Form, cart: seq<Cart.CartLine>, translations: map<string, TValue>, language: string)
    ensures var d := BuildOrderData(form, cart, translations, language);
      && (d.location.Some? ==> form.deliveryType == "delivery" && d.location == form.location)
      && (form.deliveryType == "delivery" ==> d.location == form.location)
      && (d.branchId.Some? <==> form.deliveryType == "pickup")
      && d.totalAmount == Cart.Total(cart)
      && d.items == cart
      && d.lang == TextOf(TSpec(translations, language, "lang_code"))
  {
    NeverEmpty(translations, language, "lang_code");
  }

  /** An item line of the stored order, taken from a cart line. */
  function ItemOf(l: Cart.CartLine): Item {
    Item(l.name, l.size, l.quantity, l.price)
  }

  function ItemsOf(cart: seq<Cart.CartLine>): (items: seq<Item>)
    ensures |items| == |cart|
  {
    if cart == [] then [] else [ItemOf(cart[0])] + ItemsOf(cart[1..])
  }

  /** The request as the server reads it. */
  function ToRequest(d: OrderData): Orders.CreateRequest {
    Orders.CreateRequest(ItemsOf(d.items), d.totalAmount, d.deliveryAddress, d.phone, d.paymentMethod,
                         d.deliveryType, d.name, d.location, d.lang)
  }

  /** The server's checks accept what the page's checks let through: with
      a cart of positive total and a payment method the server
      knows, a valid delivery form, or a pickup form naming a known branch,
      produces a request the server validates without error. The proof only
      chains the three lemmas below, which keep the form, the branch table
      and the cart total apart. */
  lemma {:induction false} ClientCheckImpliesServerCheck(form: Form, cart: seq<Cart.CartLine>, translations: map<string, TValue>, language: string)
    requires FormValid(form)
    requires Cart.Total(cart) >= 1
    requires form.paymentMethod in Orders.PaymentMethods
    requires form.deliveryType == "delivery" || (form.deliveryType == "pickup" && form.selectedBranchId in BranchIds)
    ensures Orders.ValidationErrors(ToRequest(BuildOrderData(form, cart, translations, language))) == []
  {
    var req := ToRequest(BuildOrderData(form, cart, translations, language));
    FormPassesServerChecks(form, translations, language);
    RequestCarriesForm(form, cart, translations, language);
    Orders.ValidationIff(req);
  }

  /** The form's part of the server's checks: a valid delivery form, or a
      valid pickup form naming a known branch, has an address that is not
      blank and a phone the server accepts. */
  lemma {:induction false} FormPassesServerChecks(form: Form, translations: map<string, TValue>, language: string)
    requires FormValid(form)
    requires form.deliveryType == "delivery" || (form.deliveryType == "pickup" && form.selectedBranchId in BranchIds)
    ensures Trim(DeliveryAddress(form, translations, language)) != ""
    ensures ValidatePhoneNumber(form.phone)
  {
    AddressNotBlank(form, translations, language);
  }

  /** The request the server reads holds the cart's lines, the cart's total,
      the composed address and the form's phone and payment method. */
  lemma {:induction false} RequestCarriesForm(form: Form, cart: seq<Cart.CartLine>, translations: map<string, TValue>, language: string)
    ensures var req := ToRequest(BuildOrderData(form, cart, translations, language));
      && |req.items| == |cart|
      && req.totalAmount == Cart.Total(cart)
      && req.deliveryAddress == DeliveryAddress(form, translations, language)
      && req.phone == form.phone
      && req.paymentMethod == form.paymentMethod
  {
  }

  /** The ids of the branches in the table. */
  const BranchIds: set<string> := {"main", "mirzo"}

  /** The address of a delivery with a typed address, or of a pickup at a
      known branch, is not blank. */
  lemma {:induction false} AddressNotBlank(form: Form, translations: map<string, TValue>, language: string)
    requires || (form.deliveryType == "delivery" && Trim(form.address) != "")
             || (form.deliveryType == "pickup" && form.selectedBranchId in BranchIds)
    ensures Trim(DeliveryAddress(form, translations, language)) != ""
  {
    if form.deliveryType == "pickup" {
      assert GetBranchById(form.selectedBranchId).Some? by {
        BranchTableFacts(form.selectedBranchId);
      }
      PickupNotBlank(form, translations, language);
    }
  }

  lemma {:induction false} PickupNotBlank(form: Form, translations: map<string, TValue>, language: string)
    requires form.deliveryType == "pickup" && GetBranchById(form.selectedBranchId).Some?
    ensures Trim(DeliveryAddress(form, translations, language)) != ""
  {
    var br := GetBranchById(form.selectedBranchId).value;
    DeliveryAddressCases(form, translations, language);
    NotBlank(TextOf(TSpec(translations, language, "branches." + br.id)), br.address);
  }

  /** A string holding a non-space character does not trim to nothing. */
  lemma NotBlank(name: string, address: string)
    ensures Trim(name + " — " + address) != ""
  {
    var s := name + " — " + address;
    assert s[|name| + 1] == '—';
    assert !IsJsWhitespace('—');
    TrimEmptyIff(s);
  }
}
