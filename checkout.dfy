/** payment/checkout.php: validates the guest's contact details, stores them
    in the session, and stores the cart total for the payment pages. */
module Checkout {
  import opened Common
  import opened CartMap
  import opened Store
  import opened CartReader

  /** The posted form; None for a field that was not submitted. */
  datatype GuestForm = GuestForm(email: Option<string>, address: Option<string>, phone: Option<string>)

  /** What a valid form stores in the session. */
  datatype GuestInfo = GuestInfo(email: string, address: string, phone: string)

  datatype GuestError = InvalidEmail | InvalidAddress | InvalidPhone

  /** The email check; `validEmail` stands for PHP's FILTER_VALIDATE_EMAIL. */
  predicate EmailAccepted(email: Option<string>, validEmail: string -> bool) {
    Given(email) && validEmail(email.value)
  }

  /** The address check: set, truthy, and at least 5 bytes once trimmed. */
  predicate AddressAccepted(address: Option<string>) {
    Given(address) && |Trim(address.value)| >= 5
  }

  predicate IsDigit(c: char) {
    '0' <= c <= '9'
  }

  /** PCRE's `\s` without the u modifier: space, \t, \n, \v, \f and \r. */
  predicate IsPatternSpace(c: char) {
    c == ' ' || c == '\t' || c == '\n' || c == '\U{0B}' || c == '\U{0C}' || c == '\r'
  }

  /** The character class `[\d\s\-\+\(\)]`. */
  predicate IsPhoneChar(c: char) {
    IsDigit(c) || IsPatternSpace(c) || c == '-' || c == '+' || c == '(' || c == ')'
  }

  /** 7 to 20 characters of the class. */
  predicate PhoneBody(p: string) {
    7 <= |p| <= 20 && forall i :: 0 <= i < |p| ==> IsPhoneChar(p[i])
  }

  /** The anchored pattern `^[...]{7,20}$`; PCRE's `$` also matches just
      before a final newline. */
  predicate MatchesPhonePattern(p: string) {
    PhoneBody(p) || (|p| > 0 && p[|p| - 1] == '\n' && PhoneBody(p[..|p| - 1]))
  }

  predicate PhoneAccepted(phone: Option<string>) {
    Given(phone) && MatchesPhonePattern(phone.value)
  }

  /** The truthiness test adds nothing to the address check: an address is
      rejected exactly when it is missing or its trimmed length is below 5. */
  lemma AddressAcceptedByLength(address: Option<string>)
    ensures AddressAccepted(address) <==> address.Some? && |Trim(address.value)| >= 5
  {
    if address.Some? && address.value == "0" {
      assert Trim(address.value) == "0";
    }
  }

  /** The phone pattern accepts exactly the strings of 7 to 21 class
      characters, where a 21st character can only be a final newline. */
  lemma PhonePatternExactly(p: string)
    ensures MatchesPhonePattern(p) <==>
      && 7 <= |p| <= 21
      && (forall i :: 0 <= i < |p| ==> IsPhoneChar(p[i]))
      && (|p| == 21 ==> p[20] == '\n')
  {
    if |p| > 0 && p[|p| - 1] == '\n' && PhoneBody(p[..|p| - 1]) {
      assert forall i :: 0 <= i < |p| - 1 ==> p[i] == p[..|p| - 1][i];
    }
    if 7 <= |p| <= 21 && (forall i :: 0 <= i < |p| ==> IsPhoneChar(p[i])) && (|p| == 21 ==> p[20] == '\n') {
      if |p| == 21 {
        assert PhoneBody(p[..20]);
      } else {
        assert PhoneBody(p);
      }
    }
  }

  lemma AddressExamples()
    ensures !AddressAccepted(Some("NY"))
    ensures AddressAccepted(Some("221B Baker St"))
  {
  }

  lemma PhoneExamples()
    ensures !PhoneAccepted(Some("abc"))
    ensures PhoneAccepted(Some("+1 (555) 123-4567"))
  {
    var p := "+1 (555) 123-4567";
    assert forall i :: 0 <= i < |p| ==> IsPhoneChar(p[i]);
  }

  /** The three checks run in the order email, address, phone and only the
      first failure is reported; a valid form yields the email and phone as
      submitted and the address trimmed. */
  function ValidateGuestInfo(form: GuestForm, validEmail: string -> bool): (r: Result<GuestInfo, GuestError>)
    ensures r.Ok? <==> EmailAccepted(form.email, validEmail) && AddressAccepted(form.address) && PhoneAccepted(form.phone)
    ensures r == Err(InvalidEmail) <==> !EmailAccepted(form.email, validEmail)
    ensures r == Err(InvalidAddress) <==> EmailAccepted(form.email, validEmail) && !AddressAccepted(form.address)
    ensures r == Err(InvalidPhone) <==>
      EmailAccepted(form.email, validEmail) && AddressAccepted(form.address) && !PhoneAccepted(form.phone)
    ensures r.Ok? ==>
      && r.value.email == form.email.value
      && r.value.address == Trim(form.address.value)
      && r.value.phone == form.phone.value
      && |r.value.address| >= 5
  {
    if !EmailAccepted(form.email, validEmail) then Err(InvalidEmail)
    else if !AddressAccepted(form.address) then Err(InvalidAddress)
    else if !PhoneAccepted(form.phone) then Err(InvalidPhone)
    else Ok(GuestInfo(form.email.value, Trim(form.address.value), form.phone.value))
  }

  datatype CheckoutOutcome =
    | RedirectToCart
    | Page(formError: Option<GuestError>, cartError: bool, items: seq<LineItem>, total: int)

  /** The outcome of the form for a request: None for a GET. */
  function Submitted(form: Option<GuestForm>, validEmail: string -> bool): Option<Result<GuestInfo, GuestError>> {
    if form.Some? then Some(ValidateGuestInfo(form.value, validEmail)) else None
  }

  /** The form step: a valid posted form overwrites the three guest keys,
      an invalid one reports its first error and writes nothing, and a GET
      does neither. */
  method SaveGuestInfo(s: Session, form: Option<GuestForm>, validEmail: string -> bool)
    returns (formError: Option<GuestError>)
    modifies s`guestEmail, s`guestAddress, s`guestPhone
    ensures var sub := Submitted(form, validEmail);
      && (formError.Some? <==> sub.Some? && sub.value.Err?)
      && (formError.Some? ==> formError.value == sub.value.error)
      && (sub.Some? && sub.value.Ok? ==>
        && s.guestEmail == Some(sub.value.value.email)
        && s.guestAddress == Some(sub.value.value.address)
        && s.guestPhone == Some(sub.value.value.phone))
      && (!(sub.Some? && sub.value.Ok?) ==>
        s.guestEmail == old(s.guestEmail) && s.guestAddress == old(s.guestAddress) && s.guestPhone == old(s.guestPhone))
  {
    formError := None;
    var sub := Submitted(form, validEmail);
    if sub.Some? {
      var checked := sub.value;
      if checked.Ok? {
        s.guestEmail := Some(checked.value.email);
        s.guestAddress := Some(checked.value.address);
        s.guestPhone := Some(checked.value.phone);
      } else {
        formError := Some(checked.error);
      }
    }
  }

  /** An unset or empty cart redirects before any session write. Otherwise a
      valid posted form overwrites the three guest fields and any other
      request leaves them alone; then, whatever the form's fate, a cart with
      at least one product still in the catalog stores its total and the
      payer's user id (0 for a guest), and one with none reports an error and
      stores nothing. */
  method Checkout(s: Session, db: Database, form: Option<GuestForm>, validEmail: string -> bool)
    returns (r: CheckoutOutcome)
    requires s.Valid()
    modifies s`guestEmail, s`guestAddress, s`guestPhone, s`paymentTotal, s`paymentUserId
    ensures s.Valid()
    ensures r.RedirectToCart? <==> old(s.cart).None? || IsEmpty(old(s.cart).value)
    ensures r.RedirectToCart? ==> unchanged(s)
    ensures r.Page? ==>
      var sub := Submitted(form, validEmail);
      && (r.formError.Some? <==> sub.Some? && sub.value.Err?)
      && (r.formError.Some? ==> r.formError.value == sub.value.error)
      && r.items == PricedItems(s.cart.value.ids, s.cart.value.qty, db.products)
      && r.total == Total(r.items)
      && (r.cartError <==> r.items == [])
    ensures var sub := Submitted(form, validEmail);
      r.Page? && sub.Some? && sub.value.Ok? ==>
      s.guestEmail == Some(sub.value.value.email)
      && s.guestAddress == Some(sub.value.value.address)
      && s.guestPhone == Some(sub.value.value.phone)
    ensures var sub := Submitted(form, validEmail);
      !(r.Page? && sub.Some? && sub.value.Ok?) ==>
      s.guestEmail == old(s.guestEmail) && s.guestAddress == old(s.guestAddress) && s.guestPhone == old(s.guestPhone)
    ensures r.Page? && !r.cartError ==>
      s.paymentTotal == Some(r.total) && s.paymentUserId == Some(if s.userId.Some? then s.userId.value else 0)
    ensures !(r.Page? && !r.cartError) ==>
      s.paymentTotal == old(s.paymentTotal) && s.paymentUserId == old(s.paymentUserId)
  {
    if s.cart.None? || IsEmpty(s.cart.value) {
      return RedirectToCart;
    }
    var formError := SaveGuestInfo(s, form, validEmail);
    var c := s.cart.value;
    var items, total := ReadCart(c.ids, c.qty, db.products);
    var cartError := items == [];
    if !cartError {
      s.paymentTotal := Some(total);
      s.paymentUserId := Some(if s.userId.Some? then s.userId.value else 0);
    }
    r := Page(formError, cartError, items, total);
  }
}
