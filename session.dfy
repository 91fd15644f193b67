/**
 * The outcome decision of `logInWorkD` (common/functions.js). The browser
 * steps are left to the browser; what remains is whether the login form
 * steps threw, and otherwise which element won the race between the
 * "Web Portal" marker and the portal's error text.
 */
module Session {
  import opened Wrappers
  import opened Errors

  /**
   * The browser's answer to a login: a fault of the steps before the race,
   * or which wait of the race settled first, with the text of the element
   * it found.
   */
  datatype LoginAnswer =
    | FormFault(error: Error)      // `goto`, the username wait, the typing or the submit click threw
    | PortalMarker(text: string)   // a `div` containing "Web Portal" appeared
    | ErrorText(text: string)      // `#errorText` appeared
    | NoMarker                     // neither appeared: both waits time out

  const LandingText: string := "Web Portal"

  /** The selector of the first wait in the race. */
  const PortalMarkerSelector: string := "xpath///div[contains(., \"Web Portal\")]"

  /**
   * A fault of the form steps is thrown as it is. Otherwise login returns
   * iff the winning element's text is exactly "Web Portal", and throws a
   * WorkDLogInError carrying that text when it is not. When neither element
   * appears, the race rejects with the timeout of the wait that was
   * registered first, the one for the "Web Portal" marker.
   */
  function LogInOutcome(winner: LoginAnswer): (r: Outcome<Error>)
    ensures winner.FormFault? ==> r == Fail(winner.error)
    ensures (winner.PortalMarker? || winner.ErrorText?) ==>
              (r.Pass? <==> winner.text == LandingText)
              && (r.Fail? ==> r.error == Error(WorkDLogInError, winner.text))
    ensures winner.NoMarker? ==> r.Fail? && r.error.kind.Unrecognised?
  {
    match winner
    case FormFault(e) => Fail(e)
    case NoMarker => Fail(Timeout(PortalMarkerSelector))
    case PortalMarker(text) =>
      if text != LandingText then Fail(Error(WorkDLogInError, text)) else Pass
    case ErrorText(text) =>
      if text != LandingText then Fail(Error(WorkDLogInError, text)) else Pass
  }

  /**
   * Only the text decides: a landing marker whose text is more than
   * "Web Portal" fails, and an error element reading exactly "Web Portal"
   * passes.
   */
  lemma {:induction false} OnlyTheTextDecides(text: string)
    ensures LogInOutcome(PortalMarker(text)) == LogInOutcome(ErrorText(text))
    ensures LogInOutcome(PortalMarker(text + " Home")).Fail?
  {
    var longer := text + " Home";
    assert longer[|longer| - 1] == 'e' != LandingText[|LandingText| - 1];
  }
}
