/**
 * The sign-up screen of the `presentation` package (RegisterScreen.kt): it
 * reads the register view model's five fields and state, and decides when the
 * form is valid, when the button can be pressed, its label and whether the
 * error line is drawn.
 */
module RegisterScreen {
  import opened Common
  import opened Text

  /** All five fields hold something other than whitespace. */
  predicate IsFormValid(firstName: string, lastName: string, phone: string, email: string, password: string) {
    !IsBlank(firstName) && !IsBlank(lastName) && !IsBlank(phone) && !IsBlank(email) && !IsBlank(password)
  }

  predicate SubmitEnabled<T>(state: UIState<T>, firstName: string, lastName: string, phone: string, email: string, password: string) {
    !state.isLoading && IsFormValid(firstName, lastName, phone, email, password)
  }

  function SubmitLabel<T>(state: UIState<T>): string {
    if state.isLoading then "Registrando..." else "Continuar"
  }

  /** The error line: the state's message, drawn only when it is not empty. */
  function ErrorLine<T>(state: UIState<T>): (line: Option<string>)
    ensures line.Some? <==> |state.message| > 0
    ensures line.Some? ==> line.value == state.message
  {
    if |state.message| > 0 then Some(state.message) else None
  }

  /**
   * The button is enabled exactly when nothing is loading and no field is
   * blank; while it is disabled by loading, its label says so.
   */
  lemma SubmitRules<T>(state: UIState<T>, firstName: string, lastName: string, phone: string, email: string, password: string)
    ensures SubmitEnabled(state, firstName, lastName, phone, email, password) <==>
      !state.isLoading && !IsBlank(firstName) && !IsBlank(lastName) && !IsBlank(phone) &&
      !IsBlank(email) && !IsBlank(password)
    ensures IsBlank(email) ==> !SubmitEnabled(state, firstName, lastName, phone, email, password)
    ensures SubmitLabel(state) == "Registrando..." <==> state.isLoading
  {
  }
}
