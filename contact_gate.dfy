/**
 * The phone-reveal gate shared by the browse page (one slot per business)
 * and the business detail page (a single slot): a phone number is shown only
 * after the visitor has filed a lead through the contact form.
 */
module ContactGate {
  import opened Seqs
  import opened Text

  /** Where one business's phone button stands. */
  datatype Gate = Locked | FormOpen | Revealed(phone: string)

  /**
   * The gate as the page shows it: a stored phone counts only when it is
   * truthy (non-empty), whatever the form is doing.
   */
  function GateOf(stored: string, formOpen: bool): (g: Gate)
    ensures g.Revealed? <==> stored != ""
    ensures g == FormOpen <==> stored == "" && formOpen
  {
    if stored != "" then Revealed(stored) else if formOpen then FormOpen else Locked
  }

  /** Pressing the phone button: opens the form unless the phone is already shown. */
  function Click(g: Gate): Gate {
    if g.Revealed? then g else FormOpen
  }

  /** The form reports success with the business's phone; the form closes. */
  function Success(phone: string): Gate {
    if phone != "" then Revealed(phone) else Locked
  }

  /** The form is dismissed without a lead. */
  function Dismiss(g: Gate): Gate {
    if g == FormOpen then Locked else g
  }

  /** Once shown, a phone stays shown under clicks and dismissals. */
  lemma RevealedIsStable(g: Gate)
    requires g.Revealed?
    ensures Click(g) == g && Dismiss(g) == g
  {
  }

  /** Clicking and dismissing never show a phone: only a successful lead does. */
  lemma OnlySuccessReveals(g: Gate)
    requires !g.Revealed?
    ensures !Click(g).Revealed? && !Dismiss(g).Revealed?
  {
  }

  /** The lead path: a locked button, a click, then success with a real phone shows that phone. */
  lemma LeadRevealsPhone(phone: string)
    requires phone != ""
    ensures Click(Locked) == FormOpen
    ensures Success(phone) == Revealed(phone)
  {
  }

  /** An empty business phone never counts as revealed. */
  lemma EmptyPhoneNeverRevealed(formOpen: bool)
    ensures !GateOf("", formOpen).Revealed?
    ensures !Success("").Revealed?
  {
  }

  const WhatsAppPrefix := "https://wa.me/"

  /** The WhatsApp link: the prefix, then the revealed phone with every non-digit removed. */
  function WhatsAppHref(phone: string): (href: string)
    ensures WhatsAppPrefix <= href
    ensures |href| <= |WhatsAppPrefix| + |phone|
  {
    WhatsAppPrefix + DigitsOnly(phone)
  }

  /**
   * The number in the link is exactly the phone's digits: nothing but digits,
   * every digit of the phone as often as the phone has it, in the phone's order.
   */
  lemma WhatsAppNumber(phone: string)
    ensures var n := WhatsAppHref(phone)[|WhatsAppPrefix|..];
      && (forall k :: 0 <= k < |n| ==> IsDigit(n[k]))
      && (forall c :: IsDigit(c) ==> multiset(n)[c] == multiset(phone)[c])
      && IsSubsequence(n, phone)
  {
    var n := WhatsAppHref(phone)[|WhatsAppPrefix|..];
    assert n == DigitsOnly(phone);
    FilterIsSubsequence(phone, IsDigit);
    FilterCount(phone, IsDigit);
    forall k | 0 <= k < |n|
      ensures IsDigit(n[k])
    {
      assert n[k] in n;
    }
  }

  /** A phone written only in digits goes into the link unchanged. */
  lemma WhatsAppKeepsPlainNumber(phone: string)
    requires forall k :: 0 <= k < |phone| ==> IsDigit(phone[k])
    ensures WhatsAppHref(phone) == WhatsAppPrefix + phone
  {
    FilterKeepsAll(phone, IsDigit);
  }
}
