/** The address step of components/features/checkout/AddressStep.tsx: the
    list of delivery addresses held by the checkout page, the selection, and
    the form that adds or edits one address after validating it. */
module AddressStep {
  import opened Types
  import opened Strings
  import opened JsNumber
  import opened Seqs
  import Checkout

  /** The form's errors, one per field; none means the field passes. */
  datatype AddressErrors = AddressErrors(name: Option<string>, address: Option<string>, phone: Option<string>)

  const NoErrors := AddressErrors(None, None, None)

  const BlankForm := AddressForm("", Home, "", "")

  // ---------------------------------------------------------- the list

  function Ids(addresses: seq<Address>): (r: seq<string>)
    ensures |r| == |addresses|
    ensures forall i :: 0 <= i < |r| ==> r[i] == addresses[i].id
  {
    if addresses == [] then [] else [addresses[0].id] + Ids(addresses[1..])
  }

  /** The selection names a listed address, or nothing is selected. */
  predicate SelectionValid(addresses: seq<Address>, selected: string)
  {
    selected == "" || selected in Ids(addresses)
  }

  /** `addresses.filter(addr => addr.id !== id)`. */
  function WithoutAddress(addresses: seq<Address>, id: string): seq<Address>
  {
    Filter(addresses, (a: Address) => a.id != id)
  }

  /** Deleting keeps every other address, in order, and no address with
      that id. */
  lemma DeleteRemovesOnlyThat(addresses: seq<Address>, id: string)
    ensures forall a :: a in WithoutAddress(addresses, id) <==> a in addresses && a.id != id
    ensures id !in Ids(WithoutAddress(addresses, id))
  {
    FilterMembers(addresses, (a: Address) => a.id != id);
  }

  /** The selection after deleting `id`: kept unless it was the deleted one,
      then the first remaining address, or nothing. */
  function SelectionAfterDelete(remaining: seq<Address>, selected: string, id: string): (r: string)
    ensures selected != id ==> r == selected
    ensures selected == id && remaining != [] ==> r == remaining[0].id
    ensures selected == id && remaining == [] ==> r == ""
  {
    if selected == id then (if remaining != [] && remaining[0].id != "" then remaining[0].id else "")
    else selected
  }

  /** Deleting an address never leaves the selection pointing at an address
      that is gone. */
  lemma DeleteKeepsSelectionValid(addresses: seq<Address>, selected: string, id: string)
    requires SelectionValid(addresses, selected)
    ensures SelectionValid(WithoutAddress(addresses, id),
                           SelectionAfterDelete(WithoutAddress(addresses, id), selected, id))
  {
    var r := WithoutAddress(addresses, id);
    DeleteRemovesOnlyThat(addresses, id);
    if selected != id && selected != "" {
      var i :| 0 <= i < |addresses| && Ids(addresses)[i] == selected;
      assert addresses[i] in r;
      var j :| 0 <= j < |r| && r[j] == addresses[i];
      assert Ids(r)[j] == selected;
    } else if selected == id && r != [] {
      assert Ids(r)[0] == r[0].id;
    }
  }

  /** `{ ...addr, ...addressForm }`: the form's fields over the address's,
      the id kept. */
  function Merge(addr: Address, form: AddressForm): Address
  {
    Address(addr.id, form.kind, form.name, form.address, form.phone)
  }

  /** `addresses.map(addr => addr.id === editing ? { ...addr, ...form } : addr)`. */
  function EditedAddresses(addresses: seq<Address>, editing: string, form: AddressForm): (r: seq<Address>)
    ensures |r| == |addresses|
  {
    if addresses == [] then []
    else
      var head := if addresses[0].id == editing then Merge(addresses[0], form) else addresses[0];
      [head] + EditedAddresses(addresses[1..], editing, form)
  }

  /** Editing keeps the list's ids in place, gives the edited addresses the
      form's fields and leaves every other address alone. */
  lemma {:induction false} EditKeepsIds(addresses: seq<Address>, editing: string, form: AddressForm)
    ensures Ids(EditedAddresses(addresses, editing, form)) == Ids(addresses)
    ensures forall i :: 0 <= i < |addresses| ==>
      EditedAddresses(addresses, editing, form)[i] ==
        if addresses[i].id == editing then Merge(addresses[i], form) else addresses[i]
  {
    if addresses != [] {
      EditKeepsIds(addresses[1..], editing, form);
      var r := EditedAddresses(addresses, editing, form);
      assert forall i :: 1 <= i < |addresses| ==> r[i] == EditedAddresses(addresses[1..], editing, form)[i - 1];
    }
  }

  /** `'addr_' + Date.now()`. */
  function NewAddressId(now: nat): string
  {
    "addr_" + NatToString(now)
  }

  /** Addresses added at different clock readings get different ids. */
  lemma NewAddressIdInjective(a: nat, b: nat)
    ensures NewAddressId(a) == NewAddressId(b) ==> a == b
  {
    if NewAddressId(a) == NewAddressId(b) {
      assert NatToString(a) == NewAddressId(a)[5..];
      assert NatToString(b) == NewAddressId(b)[5..];
      NatToStringValue(a);
      NatToStringValue(b);
    }
  }

  /** `{ id: 'addr_' + Date.now(), ...addressForm }`. */
  function NewAddress(form: AddressForm, now: nat): Address
  {
    Address(NewAddressId(now), form.kind, form.name, form.address, form.phone)
  }

  /** `if (editingAddress)`: an edit is under way when an id is held and it
      is not the empty string. */
  predicate IsEdit(editing: Option<string>)
  {
    editing.Some? && editing.value != ""
  }

  /** The list after a successful save: the edited addresses updated, or the
      new address appended. */
  function SavedList(addresses: seq<Address>, editing: Option<string>, form: AddressForm, now: nat): seq<Address>
  {
    if IsEdit(editing) then EditedAddresses(addresses, editing.value, form)
    else addresses + [NewAddress(form, now)]
  }

  /** The selection after a successful save: kept on an edit, the new
      address after an add. */
  function SavedSelection(selected: string, editing: Option<string>, now: nat): string
  {
    if IsEdit(editing) then selected else NewAddressId(now)
  }

  /** The address list with distinct ids. */
  predicate UniqueIds(addresses: seq<Address>)
  {
    NoDup(Ids(addresses))
  }

  /** A save never leaves the selection pointing at an address that is not
      listed, and it keeps the ids distinct when the new id is not in use. */
  lemma SaveKeepsSelectionValid(addresses: seq<Address>, selected: string, editing: Option<string>,
                                form: AddressForm, now: nat)
    requires SelectionValid(addresses, selected)
    ensures SelectionValid(SavedList(addresses, editing, form, now), SavedSelection(selected, editing, now))
    ensures UniqueIds(addresses) && (IsEdit(editing) || NewAddressId(now) !in Ids(addresses)) ==>
      UniqueIds(SavedList(addresses, editing, form, now))
  {
    if IsEdit(editing) {
      EditKeepsIds(addresses, editing.value, form);
    } else {
      assert Ids(addresses + [NewAddress(form, now)]) == Ids(addresses) + [NewAddressId(now)];
    }
  }

  // ---------------------------------------------------------- validation

  /** `/^[\d\s\-\(\)]+$/` without the non-empty part. */
  predicate PhoneChars(s: string)
  {
    forall i :: 0 <= i < |s| ==> IsDigit(s[i]) || IsSpace(s[i]) || s[i] == '-' || s[i] == '(' || s[i] == ')'
  }

  function NameError(name: string): (r: Option<string>)
    ensures r == None <==> |Trim(name)| >= 3
  {
    if Trim(name) == [] then Some("Address name is required")
    else if |Trim(name)| < 3 then Some("Address name must be at least 3 characters")
    else None
  }

  function FullAddressError(address: string): (r: Option<string>)
    ensures r == None <==> |Trim(address)| >= 10
  {
    if Trim(address) == [] then Some("Full address is required")
    else if |Trim(address)| < 10 then Some("Please enter a complete address")
    else None
  }

  /** The phone checks; digits are counted after dropping every non-digit. */
  function PhoneError(phone: string): (r: Option<string>)
    ensures r == None <==> Trim(phone) != [] && PhoneChars(phone) && |KeepDigits(phone)| >= 10
  {
    if Trim(phone) == [] then Some("Phone number is required")
    else if !PhoneChars(phone) then Some("Please enter a valid phone number")
    else if |KeepDigits(phone)| < 10 then Some("Phone number must be at least 10 digits")
    else None
  }

  /** The errors `validateAddress` collects. */
  function AddressErrorsOf(form: AddressForm): AddressErrors
  {
    AddressErrors(NameError(form.name), FullAddressError(form.address), PhoneError(form.phone))
  }

  /** `Object.values(newErrors)[0]`: the first error in the order the
      fields are checked. */
  function FirstError(e: AddressErrors): (r: Option<string>)
    ensures r == None <==> e == NoErrors
    ensures r.Some? ==> r == e.name || r == e.address || r == e.phone
  {
    if e.name.Some? then e.name else if e.address.Some? then e.address else e.phone
  }

  /** A form passes exactly when its name and address are long enough once
      trimmed and its phone is made of phone characters with ten digits or
      more. */
  lemma FormPassesIff(form: AddressForm)
    ensures AddressErrorsOf(form) == NoErrors <==>
      |Trim(form.name)| >= 3 && |Trim(form.address)| >= 10 &&
      Trim(form.phone) != [] && PhoneChars(form.phone) && |KeepDigits(form.phone)| >= 10
  {
  }

  /** The form's own state. */
  class AddressEditor {
    var showForm: bool
    var editing: Option<string>
    var errors: AddressErrors
    var form: AddressForm

    constructor ()
      ensures !showForm && editing == None && errors == NoErrors && form == BlankForm
    {
      showForm := false;
      editing := None;
      errors := NoErrors;
      form := BlankForm;
    }

    /** `deleteAddress`, acting on the page's list and selection. */
    method DeleteAddress(page: Checkout.CheckoutStepper, id: string)
      modifies page`addresses, page`selectedAddress
      ensures page.addresses == WithoutAddress(old(page.addresses), id)
      ensures page.selectedAddress == SelectionAfterDelete(page.addresses, old(page.selectedAddress), id)
    {
      var updated := WithoutAddress(page.addresses, id);
      page.addresses := updated;
      if page.selectedAddress == id {
        page.selectedAddress := if updated != [] && updated[0].id != "" then updated[0].id else "";
      }
    }

    method OpenAddAddressForm()
      modifies this
      ensures showForm && editing == None && errors == NoErrors && form == BlankForm
    {
      editing := None;
      form := BlankForm;
      errors := NoErrors;
      showForm := true;
    }

    method OpenEditAddressForm(addr: Address)
      modifies this
      ensures showForm && editing == Some(addr.id) && errors == NoErrors
      ensures form == AddressForm(addr.name, addr.kind, addr.address, addr.phone)
    {
      editing := Some(addr.id);
      form := AddressForm(addr.name, addr.kind, addr.address, addr.phone);
      errors := NoErrors;
      showForm := true;
    }

    /** `validateAddress`: store the errors; report whether there are none,
        and the toast shown otherwise. */
    method ValidateAddress() returns (isValid: bool, toast: Option<string>)
      modifies this`errors
      ensures errors == AddressErrorsOf(form)
      ensures isValid <==> errors == NoErrors
      ensures toast == if isValid then None else FirstError(errors)
    {
      var newErrors := NoErrors;
      isValid := true;
      var nameError := NameError(form.name);
      if nameError.Some? {
        newErrors := newErrors.(name := nameError);
        isValid := false;
      }
      assert newErrors == AddressErrors(nameError, None, None) && (isValid <==> nameError == None);
      var addressError := FullAddressError(form.address);
      if addressError.Some? {
        newErrors := newErrors.(address := addressError);
        isValid := false;
      }
      assert newErrors == AddressErrors(nameError, addressError, None);
      assert isValid <==> nameError == None && addressError == None;
      var phoneError := PhoneError(form.phone);
      if phoneError.Some? {
        newErrors := newErrors.(phone := phoneError);
        isValid := false;
      }
      assert newErrors == AddressErrors(nameError, addressError, phoneError);
      errors := newErrors;
      toast := if isValid then None else FirstError(newErrors);
    }

    /** `saveAddress`: nothing but the errors change when the form fails;
        otherwise the list and the selection become the saved ones and the
        form is reset. */
    method SaveAddress(page: Checkout.CheckoutStepper, now: nat) returns (saved: bool)
      modifies this, page`addresses, page`selectedAddress
      ensures saved <==> AddressErrorsOf(old(form)) == NoErrors
      ensures !saved ==> (errors == AddressErrorsOf(old(form)) && form == old(form) &&
        editing == old(editing) && showForm == old(showForm) &&
        page.addresses == old(page.addresses) && page.selectedAddress == old(page.selectedAddress))
      ensures saved ==> (page.addresses == SavedList(old(page.addresses), old(editing), old(form), now) &&
        page.selectedAddress == SavedSelection(old(page.selectedAddress), old(editing), now))
      ensures saved ==> !showForm && form == BlankForm && editing == None && errors == NoErrors
    {
      var ok, _ := ValidateAddress();
      if !ok {
        return false;
      }
      if editing.Some? && editing.value != "" {
        page.addresses := EditedAddresses(page.addresses, editing.value, form);
      } else {
        var newAddress := NewAddress(form, now);
        page.addresses := page.addresses + [newAddress];
        page.selectedAddress := newAddress.id;
      }
      showForm := false;
      form := BlankForm;
      editing := None;
      errors := NoErrors;
      return true;
    }

    method CancelAddressForm()
      modifies this
      ensures !showForm && form == BlankForm && editing == None && errors == NoErrors
    {
      showForm := false;
      form := BlankForm;
      editing := None;
      errors := NoErrors;
    }
  }
}
