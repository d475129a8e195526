/**
 * The landing page's "Get Started" box: the typed email is checked for
 * blankness and against the anchored email pattern, and a valid one is
 * handed on to the sign-in flow.
 */
module GrowSection {
  import opened Wrappers
  import opened Text
  import opened Patterns

  /** The box's two pieces of state: the typed email and the error line. */
  datatype GrowState = GrowState(email: string, error: string)

  /** The new state, and the email passed to `onGetStarted` when it is called. */
  datatype GrowResult = GrowResult(state: GrowState, started: Option<string>)

  const EnterEmail := "Please enter your email"
  const InvalidEmail := "Please enter a valid email"

  /**
   * `handleGetStarted`. `hasCallback` says whether the `onGetStarted` prop is
   * a function; without one a valid email only clears the error.
   */
  function GetStarted(s: GrowState, hasCallback: bool): GrowResult {
    if Blank(s.email) then GrowResult(s.(error := EnterEmail), None)
    else if !StrictEmail(s.email) then GrowResult(s.(error := InvalidEmail), None)
    else GrowResult(s.(error := ""), if hasCallback then Some(s.email) else None)
  }

  /** `handleKeyPress`: only Enter acts, and then exactly as the button does. */
  function KeyPress(s: GrowState, key: string, hasCallback: bool): (r: GrowResult)
    ensures key == "Enter" ==> r == GetStarted(s, hasCallback)
    ensures key != "Enter" ==> r == GrowResult(s, None)
  {
    if key == "Enter" then GetStarted(s, hasCallback) else GrowResult(s, None)
  }

  /** The input's change handler: the new text replaces the email and the error goes. */
  function OnChange(s: GrowState, value: string): (r: GrowState)
    ensures r.email == value && r.error == ""
  {
    GrowState(value, "")
  }

  /** A valid email is never blank: its first character is not white space. */
  lemma StrictEmailNotBlank(e: string)
    requires StrictEmail(e)
    ensures !Blank(e)
  {
    StrictEmailIff(e);
    assert !IsSpace(e[0]);
  }

  /**
   * The outcome of the button in full: a blank email (all white space, so
   * empty after trimming, by `BlankIffTrimEmpty`) is reported as missing, any
   * other email failing the pattern as invalid, and a valid one clears the error and is handed on exactly as typed when the
   * callback exists. The typed email is never altered.
   */
  lemma GetStartedSpec(s: GrowState, hasCallback: bool)
    ensures GetStarted(s, hasCallback).state.email == s.email
    ensures Blank(s.email) ==> GetStarted(s, hasCallback) == GrowResult(GrowState(s.email, EnterEmail), None)
    ensures !Blank(s.email) && !StrictEmail(s.email) ==>
      GetStarted(s, hasCallback) == GrowResult(GrowState(s.email, InvalidEmail), None)
    ensures GetStarted(s, hasCallback).started.Some? <==> hasCallback && StrictEmail(s.email)
    ensures GetStarted(s, hasCallback).started.Some? ==> GetStarted(s, hasCallback).started.value == s.email
    ensures StrictEmail(s.email) ==> GetStarted(s, hasCallback).state.error == ""
  {
    if StrictEmail(s.email) {
      StrictEmailNotBlank(s.email);
    }
  }

  /**
   * The pattern is tested on the untrimmed text, so an otherwise valid
   * address with a space before or after it is refused, never started.
   */
  lemma SurroundingSpaceRejected(s: GrowState, hasCallback: bool)
    requires s.email != [] && (IsSpace(s.email[0]) || IsSpace(s.email[|s.email| - 1]))
    ensures GetStarted(s, hasCallback).started == None
    ensures GetStarted(s, hasCallback).state.error != ""
  {
    StrictEmailIff(s.email);
    assert !AllNotSpace(s.email);
  }

  /** After any edit the error line is empty, and the next click judges the new text. */
  lemma EditThenSubmit(s: GrowState, value: string, hasCallback: bool)
    ensures OnChange(s, value).error == ""
    ensures GetStarted(OnChange(s, value), hasCallback).started.Some? <==> hasCallback && StrictEmail(value)
  {
    GetStartedSpec(OnChange(s, value), hasCallback);
  }
}
