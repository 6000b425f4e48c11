/**
 * The visitor form (FormVisitor.kt): when the form is valid, when the fields
 * and the continue button are enabled, and the button's label.
 */
module FormVisitor {
  import opened Text

  /** All three fields hold something other than whitespace. */
  predicate IsFormValid(firstname: string, lastname: string, role: string) {
    !IsBlank(firstname) && !IsBlank(lastname) && !IsBlank(role)
  }

  predicate FieldsEnabled(isLoading: bool) {
    !isLoading
  }

  predicate ContinueEnabled(firstname: string, lastname: string, role: string, isLoading: bool) {
    IsFormValid(firstname, lastname, role) && !isLoading
  }

  function ContinueLabel(isLoading: bool): string {
    if isLoading then "Procesando..." else "Continue"
  }

  /**
   * Continue can be pressed exactly when no request is running and every
   * field has a visible character; a blank field, or a request in flight,
   * disables it, and the fields are then locked too while loading.
   */
  lemma ContinueEnabledRules(firstname: string, lastname: string, role: string, isLoading: bool)
    ensures ContinueEnabled(firstname, lastname, role, isLoading) <==>
      !isLoading &&
      (exists i :: 0 <= i < |firstname| && !IsWhitespace(firstname[i])) &&
      (exists i :: 0 <= i < |lastname| && !IsWhitespace(lastname[i])) &&
      (exists i :: 0 <= i < |role| && !IsWhitespace(role[i]))
    ensures ContinueEnabled(firstname, lastname, role, isLoading) ==> FieldsEnabled(isLoading)
    ensures ContinueLabel(isLoading) == "Procesando..." <==> isLoading
  {
  }
}
