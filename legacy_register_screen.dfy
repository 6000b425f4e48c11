/**
 * The older sign-up screen of the `auth.register` package (RegisterScreen.kt):
 * four text fields held in the screen itself; the phone field takes an edit
 * only when it is at most nine digits, and the others take every edit.
 */
module LegacyRegisterScreen {
  import opened Text

  const MaxPhoneDigits := 9

  /** The phone filter: at most nine characters, every one a digit. */
  predicate AcceptPhoneEdit(edit: string) {
    |edit| <= MaxPhoneDigits && AllDigits(edit)
  }

  /** The phone value the field holds after one edit. */
  function PhoneAfterEdit(phone: string, edit: string): string {
    if AcceptPhoneEdit(edit) then edit else phone
  }

  /** The phone value after a run of edits, oldest first. */
  function PhoneAfterEdits(phone: string, edits: seq<string>): string
    decreases |edits|
  {
    if edits == [] then phone else PhoneAfterEdits(PhoneAfterEdit(phone, edits[0]), edits[1..])
  }

  /** What the phone field may hold. */
  predicate ValidPhone(phone: string) {
    |phone| <= MaxPhoneDigits && AllDigits(phone)
  }

  /**
   * Starting from a valid value (the screen starts from ""), every run of
   * edits leaves at most nine digits, and the result is the latest accepted
   * edit, or the starting value when none was accepted.
   */
  lemma {:induction false} PhoneStaysValid(phone: string, edits: seq<string>)
    requires ValidPhone(phone)
    ensures ValidPhone(PhoneAfterEdits(phone, edits))
    ensures PhoneAfterEdits(phone, edits) == phone ||
      exists i :: 0 <= i < |edits| && AcceptPhoneEdit(edits[i]) && PhoneAfterEdits(phone, edits) == edits[i]
    decreases |edits|
  {
    if edits != [] {
      var next := PhoneAfterEdit(phone, edits[0]);
      PhoneStaysValid(next, edits[1..]);
      var r := PhoneAfterEdits(next, edits[1..]);
      if r != next {
        var i :| 0 <= i < |edits[1..]| && AcceptPhoneEdit(edits[1..][i]) && r == edits[1..][i];
        assert edits[i + 1] == edits[1..][i];
      }
    }
  }

  /** The screen's `remember`ed field values. */
  class RegisterForm {
    var email: string
    var fullName: string
    var phoneNumber: string
    var password: string

    predicate Valid()
      reads this
    {
      ValidPhone(phoneNumber)
    }

    constructor()
      ensures email == "" && fullName == "" && phoneNumber == "" && password == ""
      ensures Valid()
    {
      email, fullName, phoneNumber, password := "", "", "", "";
    }

    /** The phone field's `onValueChange`: an accepted edit replaces the value, a rejected one is dropped. */
    method OnPhoneNumberChange(edit: string)
      requires Valid()
      modifies this
      ensures phoneNumber == PhoneAfterEdit(old(phoneNumber), edit)
      ensures AcceptPhoneEdit(edit) <==> phoneNumber == edit || old(phoneNumber) == edit
      ensures email == old(email) && fullName == old(fullName) && password == old(password)
      ensures Valid()
    {
      if |edit| <= MaxPhoneDigits && AllDigits(edit) {
        phoneNumber := edit;
      }
    }

    method OnFullNameChange(edit: string)
      modifies this
      ensures fullName == edit
      ensures email == old(email) && phoneNumber == old(phoneNumber) && password == old(password)
    {
      fullName := edit;
    }

    method OnEmailChange(edit: string)
      modifies this
      ensures email == edit
      ensures fullName == old(fullName) && phoneNumber == old(phoneNumber) && password == old(password)
    {
      email := edit;
    }

    method OnPasswordChange(edit: string)
      modifies this
      ensures password == edit
      ensures email == old(email) && fullName == old(fullName) && phoneNumber == old(phoneNumber)
    {
      password := edit;
    }
  }
}
