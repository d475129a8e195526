/**
 * The single-business page: the fetched listing with its error message, and
 * one phone slot that the contact form unlocks.
 */
module BusinessDetail {
  import opened Wrappers
  import opened Listings
  import opened ContactGate

  /** How the detail request ended. */
  datatype DetailResult =
    | Found(business: Listing)
    /** The request failed; `status` is the HTTP status when there was a response. */
    | Failed(status: Option<int>)

  /** The message shown for a failed request. */
  function FetchErrorMessage(status: Option<int>): (message: string)
    ensures message == "Business not found" <==> status == Some(404)
    ensures message != "Business not found" ==> message == "Failed to fetch business details"
  {
    if status == Some(404) then "Business not found" else "Failed to fetch business details"
  }

  class DetailPage {
    var business: Option<Listing>
    var loading: bool
    var error: Option<string>
    /** The phone shown on the button; `""` until a lead is filed. */
    var revealedPhone: string
    /** The listing the contact form is open for. */
    var showContactForm: Option<Listing>

    /** The phone button. */
    function Gate(): Gate
      reads this
    {
      GateOf(revealedPhone, showContactForm.Some?)
    }

    /** The WhatsApp link: present exactly while the phone is revealed. */
    function WhatsAppLink(): (link: Option<string>)
      reads this
      ensures link.Some? <==> Gate().Revealed?
      ensures link.Some? ==> link.value == WhatsAppHref(revealedPhone)
    {
      if revealedPhone != "" then Some(WhatsAppHref(revealedPhone)) else None
    }

    constructor ()
      ensures business == None && loading && error == None
      ensures revealedPhone == "" && showContactForm == None && Gate() == Locked
    {
      business := None;
      loading := true;
      error := None;
      revealedPhone := "";
      showContactForm := None;
    }

    /** `fetchBusinessDetail`: the listing on success, the mapped message on failure; loading ends. */
    method FetchBusinessDetail(result: DetailResult)
      modifies this`business, this`loading, this`error
      ensures !loading
      ensures result.Found? ==> business == Some(result.business) && error == None
      ensures result.Failed? ==> business == old(business) && error == Some(FetchErrorMessage(result.status))
    {
      loading := true;
      error := None;
      match result {
        case Found(b) =>
          business := Some(b);
        case Failed(status) =>
          error := Some(FetchErrorMessage(status));
      }
      loading := false;
    }

    /** `handlePhoneReveal`: opens the form only while no phone is shown. */
    method HandlePhoneReveal()
      modifies this`showContactForm
      ensures revealedPhone == "" ==> showContactForm == business
      ensures revealedPhone != "" ==> showContactForm == old(showContactForm)
      ensures business.Some? ==> Gate() == Click(old(Gate()))
    {
      if revealedPhone == "" {
        showContactForm := business;
      }
    }

    /** `handleContactSuccess`: the phone is shown and the form closes. */
    method HandleContactSuccess(phone: string)
      modifies this`revealedPhone, this`showContactForm
      ensures revealedPhone == phone && showContactForm == None
      ensures Gate() == Success(phone)
    {
      revealedPhone := phone;
      showContactForm := None;
    }

    /** "Send Enquiry": the form opens whether or not the phone is already shown. */
    method SendEnquiry()
      modifies this`showContactForm
      ensures showContactForm == business
      ensures revealedPhone != "" ==> Gate() == old(Gate())
    {
      showContactForm := business;
    }

    /** The form's close button. */
    method CloseContactForm()
      modifies this`showContactForm
      ensures showContactForm == None
      ensures Gate() == Dismiss(old(Gate()))
    {
      showContactForm := None;
    }
  }
}
