/**
 * The lead-capture form that guards a business's phone number: three fields,
 * a validator producing at most one message per field, and a submit that
 * records the lead and hands the business phone to the page.
 */
module ContactFormModal {
  import opened Wrappers
  import opened Text
  import opened Patterns
  import opened Listings

  datatype Field = Name | Email | Phone

  datatype FormData = FormData(name: string, email: string, phone: string) {
    function Get(f: Field): string {
      match f
      case Name => name
      case Email => email
      case Phone => phone
    }

    /** `{...prev, [field]: value}` */
    function With(f: Field, value: string): (d: FormData)
      ensures d.Get(f) == value
      ensures forall g :: g != f ==> d.Get(g) == Get(g)
    {
      match f
      case Name => this.(name := value)
      case Email => this.(email := value)
      case Phone => this.(phone := value)
    }
  }

  const EmptyForm := FormData("", "", "")

  /** The name's message, when it has one. */
  function NameError(name: string): Option<string> {
    if Blank(name) then Some("Name is required") else None
  }

  /** The email's message: a blank email is missing; otherwise the value as typed must match. */
  function EmailError(email: string): Option<string> {
    if Blank(email) then Some("Email is required")
    else if !LooseEmail(email) then Some("Email is invalid")
    else None
  }

  /** The phone's message: a blank phone is missing; otherwise the value as typed must match. */
  function PhoneError(phone: string): Option<string> {
    if Blank(phone) then Some("Phone is required")
    else if !LoosePhone(phone) then Some("Phone number is invalid")
    else None
  }

  function FieldError(d: FormData, f: Field): Option<string> {
    match f
    case Name => NameError(d.name)
    case Email => EmailError(d.email)
    case Phone => PhoneError(d.phone)
  }

  /** Adds `f`'s message to the map when there is one. */
  function Record(errors: map<Field, string>, f: Field, message: Option<string>): (r: map<Field, string>)
    ensures forall g :: g in r <==> g in errors || (g == f && message.Some?)
    ensures forall g :: g in r ==> r[g] == if g == f && message.Some? then message.value else errors[g]
  {
    if message.Some? then errors[f := message.value] else errors
  }

  /** `validateForm`: one entry per failing field, holding that field's message. */
  function ValidateForm(d: FormData): (errors: map<Field, string>)
    ensures Name in errors <==> NameError(d.name).Some?
    ensures Email in errors <==> EmailError(d.email).Some?
    ensures Phone in errors <==> PhoneError(d.phone).Some?
    ensures forall f :: f in errors ==> Some(errors[f]) == FieldError(d, f)
  {
    var name, email, phone := NameError(d.name), EmailError(d.email), PhoneError(d.phone);
    var withName := Record(map[], Name, name);
    var withEmail := Record(withName, Email, email);
    Record(withEmail, Phone, phone)
  }

  /**
   * Each field is reported for one reason only: a blank field is "required"
   * and is not also called malformed; a non-blank one is reported exactly when
   * its value as typed fails the pattern. Every message is non-empty.
   */
  lemma ValidateFormMessages(d: FormData)
    ensures Name in ValidateForm(d) <==> Blank(d.name)
    ensures Email in ValidateForm(d) <==> Blank(d.email) || !LooseEmail(d.email)
    ensures Phone in ValidateForm(d) <==> Blank(d.phone) || !LoosePhone(d.phone)
    ensures Name in ValidateForm(d) ==> ValidateForm(d)[Name] == "Name is required"
    ensures Email in ValidateForm(d) ==>
      ValidateForm(d)[Email] == (if Blank(d.email) then "Email is required" else "Email is invalid")
    ensures Phone in ValidateForm(d) ==>
      ValidateForm(d)[Phone] == (if Blank(d.phone) then "Phone is required" else "Phone number is invalid")
    ensures forall f :: f in ValidateForm(d) ==> ValidateForm(d)[f] != ""
  {
    assert FieldError(d, Name) == NameError(d.name);
    assert FieldError(d, Email) == EmailError(d.email);
    assert FieldError(d, Phone) == PhoneError(d.phone);
  }

  /** The form may be submitted exactly when its name, email and phone all pass. */
  predicate Acceptable(d: FormData) {
    && !Blank(d.name)
    && !Blank(d.email) && LooseEmail(d.email)
    && !Blank(d.phone) && LoosePhone(d.phone)
  }

  /** No message at all exactly when the form is acceptable. */
  lemma ValidateFormEmptyIff(d: FormData)
    ensures ValidateForm(d) == map[] <==> Acceptable(d)
  {
    ValidateFormMessages(d);
    if !Acceptable(d) {
      if Blank(d.name) {
        assert Name in ValidateForm(d);
      } else if Blank(d.email) || !LooseEmail(d.email) {
        assert Email in ValidateForm(d);
      } else {
        assert Phone in ValidateForm(d);
      }
    }
  }

  /**
   * The acceptable forms in plain terms: a name that is not all white space;
   * an email, not all white space, holding somewhere a non-blank character,
   * '@', a run of non-blanks, '.', and a non-blank; and a phone, not all white
   * space, that after an optional leading '+' is one or more digits, white
   * space, hyphens and parentheses.
   */
  lemma AcceptableIff(d: FormData)
    ensures Acceptable(d) <==>
      && Trim(d.name) != ""
      && Trim(d.email) != "" && (exists p, q :: LooseEmailAt(d.email, p, q))
      && Trim(d.phone) != ""
      && var body := if d.phone != [] && d.phone[0] == '+' then d.phone[1..] else d.phone;
         body != [] && forall k :: 0 <= k < |body| ==> PhoneChar(body[k])
  {
    BlankIffTrimEmpty(d.name);
    BlankIffTrimEmpty(d.email);
    BlankIffTrimEmpty(d.phone);
    LooseEmailIff(d.email);
    LoosePhoneIff(d.phone);
  }

  /** A non-blank email without '@' is reported as invalid, not as missing. */
  lemma NoAtIsInvalid(d: FormData)
    requires !Blank(d.email)
    requires forall k :: 0 <= k < |d.email| ==> d.email[k] != '@'
    ensures Email in ValidateForm(d) && ValidateForm(d)[Email] == "Email is invalid"
  {
    ValidateFormMessages(d);
    LooseEmailNeedsAt(d.email);
  }

  /** For instance "not-an-email". */
  lemma NotAnEmailIsInvalid()
    ensures EmailError("not-an-email") == Some("Email is invalid")
  {
    var s := "not-an-email";
    forall k | 0 <= k < |s|
      ensures s[k] != '@'
    {
    }
    LooseEmailNeedsAt(s);
    assert !IsSpace(s[0]);
  }

  /**
   * A non-empty phone of nothing but white space is reported missing, even
   * though the phone pattern alone would accept it.
   */
  lemma BlankPhoneIsRequired(d: FormData)
    requires d.phone != "" && Blank(d.phone)
    ensures Phone in ValidateForm(d) && ValidateForm(d)[Phone] == "Phone is required"
    ensures LoosePhone(d.phone)
  {
    ValidateFormMessages(d);
    LoosePhoneIff(d.phone);
  }

  /** The row sent to the lead sheet. */
  datatype Lead = Lead(
    timestamp: string,
    businessName: string,
    businessId: string,
    customerName: string,
    customerEmail: string,
    customerPhone: string,
    businessPhone: string)

  /** The lead for a business, with the customer's fields exactly as typed. */
  function LeadFor(b: Listing, d: FormData, timestamp: string): (lead: Lead)
    ensures lead.businessId == b.id && lead.businessName == b.businessName
    ensures lead.businessPhone == b.phone
    ensures lead.customerName == d.name && lead.customerEmail == d.email && lead.customerPhone == d.phone
  {
    Lead(timestamp, b.businessName, b.id, d.name, d.email, d.phone, b.phone)
  }

  class ContactForm {
    const business: Listing
    var formData: FormData
    var errors: map<Field, string>
    var isSubmitting: bool

    /** The message shown under a field: a stored empty message shows nothing. */
    predicate HasError(f: Field)
      reads this
    {
      f in errors && errors[f] != ""
    }

    constructor (b: Listing)
      ensures business == b && formData == EmptyForm && errors == map[] && !isSubmitting
    {
      business := b;
      formData := EmptyForm;
      errors := map[];
      isSubmitting := false;
    }

    /** `handleChange`: the edited field takes the value and loses its message; nothing else changes. */
    method HandleChange(f: Field, value: string)
      modifies this`formData, this`errors
      ensures formData == old(formData).With(f, value)
      ensures !HasError(f)
      ensures forall g :: g != f ==> formData.Get(g) == old(formData).Get(g)
      ensures forall g :: g != f ==> (g in errors <==> g in old(errors))
      ensures forall g :: g != f && g in errors ==> errors[g] == old(errors)[g]
    {
      formData := formData.With(f, value);
      if HasError(f) {
        errors := errors[f := ""];
      }
    }

    /**
     * `handleSubmit`: with any message the messages are shown and nothing is
     * sent. Otherwise the lead goes to the sheet and the business phone is
     * handed to `onSuccess`, whether or not the sheet accepted the lead.
     */
    method HandleSubmit(timestamp: string) returns (sent: Option<Lead>, onSuccess: Option<string>)
      modifies this`errors, this`isSubmitting
      ensures !Acceptable(formData) ==>
        sent == None && onSuccess == None && errors == ValidateForm(formData)
        && isSubmitting == old(isSubmitting)
      ensures Acceptable(formData) ==>
        sent == Some(LeadFor(business, formData, timestamp))
        && onSuccess == Some(business.phone)
        && errors == old(errors) && !isSubmitting
    {
      var newErrors := ValidateForm(formData);
      ValidateFormEmptyIff(formData);
      if |newErrors| > 0 {
        errors := newErrors;
        return None, None;
      }
      isSubmitting := true;
      var lead := LeadFor(business, formData, timestamp);
      isSubmitting := false;
      return Some(lead), Some(business.phone);
    }
  }
}
