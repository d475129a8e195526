/**
 * The site's contact page: the submitted fields are normalised, checked for
 * presence, then checked against the strict email and phone patterns, and
 * only then is the message sent.
 */
module ContactPage {
  import opened Text
  import opened Patterns
  import Seqs

  /** The form fields as submitted. */
  datatype ContactInput = ContactInput(name: string, email: string, phone: string, message: string)

  /** What the handler does: an alert, or the success banner and a send of this payload. */
  datatype Outcome = Alert(text: string) | Submitted(payload: ContactInput)

  const MissingFields := "Please fill all required fields: Name, Email, and Phone Number."
  const BadEmail := "Please enter a valid email address."
  const BadPhone := "Please enter a valid phone number with optional country code."

  /** Every field trimmed, and all white space removed from the phone. */
  function Normalise(raw: ContactInput): ContactInput {
    ContactInput(Trim(raw.name), Trim(raw.email), StripSpaces(Trim(raw.phone)), Trim(raw.message))
  }

  /** The checks on normalised fields: presence first, then the email pattern, then the phone pattern. */
  function Check(n: ContactInput): Outcome {
    if n.name == "" || n.email == "" || n.phone == "" then Alert(MissingFields)
    else if !StrictEmail(n.email) then Alert(BadEmail)
    else if !StrictPhone(n.phone) then Alert(BadPhone)
    else Submitted(n)
  }

  /** `handleSubmit` */
  function HandleSubmit(raw: ContactInput): Outcome {
    Check(Normalise(raw))
  }

  /**
   * The normalised phone is the submitted phone with every white-space
   * character removed (trimming first changes nothing), so it contains none.
   */
  lemma PhoneNormalisation(raw: ContactInput)
    ensures Normalise(raw).phone == StripSpaces(raw.phone)
    ensures forall k :: 0 <= k < |Normalise(raw).phone| ==> !IsSpace(Normalise(raw).phone[k])
  {
    StripIgnoresTrim(raw.phone);
    var p := Normalise(raw).phone;
    forall k | 0 <= k < |p|
      ensures !IsSpace(p[k])
    {
      assert p[k] in p;
    }
  }

  /**
   * A submission goes out exactly when all three required fields survive
   * normalisation and pass their patterns; what goes out is the normalised form.
   */
  lemma HandleSubmitSpec(raw: ContactInput)
    ensures HandleSubmit(raw).Submitted? <==>
      var n := Normalise(raw);
      n.name != "" && n.email != "" && n.phone != "" && StrictEmail(n.email) && StrictPhone(n.phone)
    ensures HandleSubmit(raw).Submitted? ==> HandleSubmit(raw).payload == Normalise(raw)
  {
  }

  /** A missing field is reported before, and instead of, any format problem. */
  lemma PresenceCheckedFirst(raw: ContactInput)
    requires Blank(raw.name) || Blank(raw.email) || Blank(raw.phone)
    ensures HandleSubmit(raw) == Alert(MissingFields)
  {
    BlankIffTrimEmpty(raw.name);
    BlankIffTrimEmpty(raw.email);
    BlankIffTrimEmpty(raw.phone);
    if Blank(raw.phone) {
      StripIgnoresTrim(raw.phone);
      FilterDropsAllSpaces(raw.phone);
    }
  }

  /** Removing white space from an all-white-space string leaves nothing. */
  lemma FilterDropsAllSpaces(s: string)
    requires Blank(s)
    ensures StripSpaces(s) == ""
  {
    Seqs.FilterDropsAll(s, NotSpace);
  }

  /**
   * An accepted email has exactly one '@', no white space, and a '.' after
   * the '@' with something on each side of it.
   */
  lemma AcceptedEmailShape(raw: ContactInput)
    requires HandleSubmit(raw).Submitted?
    ensures AllNotSpace(HandleSubmit(raw).payload.email)
    ensures exists p, d :: EmailParts(HandleSubmit(raw).payload.email, p, d)
  {
    HandleSubmitSpec(raw);
    StrictEmailIff(HandleSubmit(raw).payload.email);
  }

  /**
   * An accepted phone is 10 to 15 characters long, ends in ten digits, and
   * holds no white space.
   */
  lemma AcceptedPhoneShape(raw: ContactInput)
    requires HandleSubmit(raw).Submitted?
    ensures var p := HandleSubmit(raw).payload.phone;
      && 10 <= |p| <= 15
      && (forall k :: |p| - 10 <= k < |p| ==> IsDigit(p[k]))
      && (forall k :: 0 <= k < |p| ==> !IsSpace(p[k]))
  {
    HandleSubmitSpec(raw);
    var p := Normalise(raw).phone;
    StrictPhoneShape(p);
    PhoneNormalisation(raw);
    forall k | |p| - 10 <= k < |p|
      ensures IsDigit(p[k])
    {
      assert p[|p| - 10..][k - (|p| - 10)] == p[k];
    }
  }

  /** The message is optional and never checked: it cannot change whether the form goes out. */
  lemma MessageNeverValidated(raw: ContactInput, message: string)
    ensures HandleSubmit(raw.(message := message)).Submitted? == HandleSubmit(raw).Submitted?
    ensures HandleSubmit(raw).Alert? ==> HandleSubmit(raw.(message := message)) == HandleSubmit(raw)
  {
    var n := Normalise(raw);
    assert Normalise(raw.(message := message)) == n.(message := Trim(message));
    CheckIgnoresMessage(n, Trim(message));
  }

  /** The checks read the name, email and phone only. */
  lemma CheckIgnoresMessage(n: ContactInput, message: string)
    ensures Check(n.(message := message)).Submitted? == Check(n).Submitted?
    ensures Check(n).Alert? ==> Check(n.(message := message)) == Check(n)
  {
    var m := n.(message := message);
    assert m.name == n.name && m.email == n.email && m.phone == n.phone;
  }

  /** Spaces typed inside a phone number do not stop it from being accepted. */
  lemma SpacedPhoneAccepted(raw: ContactInput)
    requires StrictPhone(StripSpaces(raw.phone))
    requires !Blank(raw.name) && StrictEmail(Trim(raw.email))
    ensures HandleSubmit(raw).Submitted?
  {
    PhoneNormalisation(raw);
    BlankIffTrimEmpty(raw.name);
    StrictPhoneShape(StripSpaces(raw.phone));
    StrictEmailIff(Trim(raw.email));
  }
}
