/**
 * The password-reset form: one e-mail field with a single error string, and a
 * simulated request that reports the reset link as sent.
 */
module ForgotPasswordForm {
  import opened Wrappers
  import opened EmailPattern

  /**
   * The form's state. `pending` is the address captured by the simulated
   * request when it was started; `None` when no request is outstanding.
   */
  datatype State = State(email: string, isLoading: bool, isSuccess: bool, error: string, pending: Option<string>)

  const Initial := State("", false, false, "", None)

  /** Typing into the field stores the text and clears the error. */
  function EditEmail(st: State, value: string): (r: State)
    ensures r.email == value && r.error == ""
    ensures r.isLoading == st.isLoading && r.isSuccess == st.isSuccess && r.pending == st.pending
  {
    st.(email := value, error := "")
  }

  /**
   * `handleSubmit`: an empty or malformed address sets the matching message
   * and returns before anything starts; otherwise loading starts, the error is
   * cleared and the address is captured for the completion.
   */
  function Submit(st: State): (r: State)
    ensures r.email == st.email && r.isSuccess == st.isSuccess
    ensures st.email == "" ==> r == st.(error := EmailRequired)
    ensures st.email != "" && !ContainsEmailPattern(st.email) ==> r == st.(error := EmailInvalid)
    ensures r.isLoading && r.error == "" <==> st.email != "" && ContainsEmailPattern(st.email)
    ensures st.email != "" && ContainsEmailPattern(st.email) ==>
      r == st.(isLoading := true, error := "", pending := Some(st.email))
  {
    match EmailError(st.email)
    case Some(message) => st.(error := message)
    case None => st.(isLoading := true, error := "", pending := Some(st.email))
  }

  /** The simulated request finishes: the form shows success and the notification names the captured address. */
  function Complete(st: State): (r: (State, string))
    requires st.pending.Some?
    ensures r.0 == st.(isLoading := false, isSuccess := true, pending := None)
    ensures r.1 == "Password reset link sent to " + st.pending.value
  {
    (st.(isLoading := false, isSuccess := true, pending := None), "Password reset link sent to " + st.pending.value)
  }

  /** A request is only ever started for an address that passed both checks. */
  lemma StartedOnlyForValidAddress(st: State)
    requires st.pending == None
    ensures Submit(st).pending.Some? ==> EmailError(Submit(st).pending.value) == None
  {
  }
}
