/**
 * The profile view model (CreateProfileViewModel.kt): the photo, description
 * and birth date typed in, the `YYYY-MM-DD` check, and the profile creation
 * that completes the sign-up view model's draft. Every write of the state is
 * also appended to the ghost log `writes`.
 */
module CreateProfileViewModel {
  import opened Common
  import opened Text
  import opened Domain
  import opened Session
  import opened ImageUpload
  import RegisterViewModel

  const TokenRequiredMessage := "Un token es requerido"
  const DateFormatMessage := "Formato de fecha inválido (usa YYYY-MM-DD)"
  const CreateErrorDefault := "Error al crear perfil"

  // ---------------------------------------------------------------------
  // The date check

  /**
   * `Regex("""\d{4}-\d{2}-\d{2}""").matches(date)`: the whole text is four
   * digits, a dash, two digits, a dash and two digits (`\d` is 0-9 here).
   */
  predicate IsValidDateFormat(date: string) {
    |date| == 10 && date[4] == '-' && date[7] == '-' &&
    forall i :: 0 <= i < 10 && i != 4 && i != 7 ==> IsDigit(date[i])
  }

  /** `n` as exactly two digits. */
  function TwoDigits(n: nat): (s: string)
    requires n < 100
    ensures |s| == 2 && AllDigits(s)
  {
    [DigitChar(n / 10), DigitChar(n % 10)]
  }

  /** `n` as exactly four digits. */
  function FourDigits(n: nat): (s: string)
    requires n < 10000
    ensures |s| == 4 && AllDigits(s)
  {
    TwoDigits(n / 100) + TwoDigits(n % 100)
  }

  /** The text of year `y`, month `m` and day `d`, zero-padded, with no range check. */
  function DateText(y: nat, m: nat, d: nat): string
    requires y < 10000 && m < 100 && d < 100
  {
    FourDigits(y) + "-" + TwoDigits(m) + "-" + TwoDigits(d)
  }

  /** Every zero-padded year, month and day is accepted, month 13 and day 45 included. */
  lemma DateTextAccepted(y: nat, m: nat, d: nat)
    requires y < 10000 && m < 100 && d < 100
    ensures IsValidDateFormat(DateText(y, m, d)) && |DateText(y, m, d)| == 10
  {
    var s := DateText(y, m, d);
    assert s[..4] == FourDigits(y) && s[5..7] == TwoDigits(m) && s[8..] == TwoDigits(d);
    forall i | 0 <= i < 10 && i != 4 && i != 7 ensures IsDigit(s[i]) {
      if i < 4 {
        assert s[i] == s[..4][i];
      } else if i < 7 {
        assert s[i] == s[5..7][i - 5];
      } else {
        assert s[i] == s[8..][i - 8];
      }
    }
  }

  /** The value of two digit characters. */
  function TwoDigitValue(a: char, b: char): nat
    requires IsDigit(a) && IsDigit(b)
  {
    10 * DigitValue(a) + DigitValue(b)
  }

  lemma TwoDigitsRoundTrip(a: char, b: char)
    requires IsDigit(a) && IsDigit(b)
    ensures TwoDigitValue(a, b) < 100 && TwoDigits(TwoDigitValue(a, b)) == [a, b]
  {
  }

  lemma FourDigitsRoundTrip(a: char, b: char, c: char, d: char)
    requires IsDigit(a) && IsDigit(b) && IsDigit(c) && IsDigit(d)
    ensures var n := 100 * TwoDigitValue(a, b) + TwoDigitValue(c, d);
      n < 10000 && FourDigits(n) == [a, b, c, d]
  {
    var hi, lo := TwoDigitValue(a, b), TwoDigitValue(c, d);
    var n := 100 * hi + lo;
    assert n / 100 == hi && n % 100 == lo;
    TwoDigitsRoundTrip(a, b);
    TwoDigitsRoundTrip(c, d);
  }

  /** Conversely, every accepted text is the text of some year, month and day. */
  lemma AcceptedIsDateText(date: string)
    requires IsValidDateFormat(date)
    ensures exists y: nat, m: nat, d: nat :: y < 10000 && m < 100 && d < 100 && date == DateText(y, m, d)
  {
    assert IsDigit(date[0]) && IsDigit(date[1]) && IsDigit(date[2]) && IsDigit(date[3]);
    assert IsDigit(date[5]) && IsDigit(date[6]) && IsDigit(date[8]) && IsDigit(date[9]);
    var y := 100 * TwoDigitValue(date[0], date[1]) + TwoDigitValue(date[2], date[3]);
    var m := TwoDigitValue(date[5], date[6]);
    var d := TwoDigitValue(date[8], date[9]);
    FourDigitsRoundTrip(date[0], date[1], date[2], date[3]);
    TwoDigitsRoundTrip(date[5], date[6]);
    TwoDigitsRoundTrip(date[8], date[9]);
    assert date == DateText(y, m, d);
  }

  /** Month and day ranges are not checked. */
  lemma MonthAndDayUnchecked()
    ensures IsValidDateFormat("2024-13-45")
    ensures !IsValidDateFormat("2024-1-5") && !IsValidDateFormat("2024-01-05 ")
  {
    DateTextAccepted(2024, 13, 45);
    assert DateText(2024, 13, 45) == "2024-13-45";
  }

  // ---------------------------------------------------------------------
  // The view model

  class CreateProfileViewModel {
    var photoUrl: string
    var description: string
    var birthdate: string
    var state: UIState<Profile>
    ghost var writes: seq<UIState<Profile>>
    const register: RegisterViewModel.RegisterViewModel
    const globals: Globals
    const host: Host

    constructor(register: RegisterViewModel.RegisterViewModel, globals: Globals, host: Host)
      requires register.globals == globals
      ensures photoUrl == "" && description == "" && birthdate == "" && state == Idle() && writes == []
      ensures this.register == register && this.globals == globals && this.host == host
    {
      photoUrl, description, birthdate, state := "", "", "", Idle();
      writes := [];
      this.register, this.globals, this.host := register, globals, host;
    }

    method SetState(s: UIState<Profile>)
      modifies this
      ensures state == s && writes == old(writes) + [s]
      ensures photoUrl == old(photoUrl) && description == old(description) && birthdate == old(birthdate)
    {
      state := s;
      writes := writes + [s];
    }

    /**
     * `createProfile`. A blank token, and then a malformed birth date, each
     * stop with their message before anything is loading. Otherwise loading
     * is shown and the draft of the sign-up view model is sent with this
     * screen's description, photo and birth date. On success the data is
     * stored, both view models' fields are cleared and the house screen
     * opens; on failure the message (or the default) is shown and the
     * fields are kept. `submitted` is the profile sent, if any: it carries
     * the session's user id, since both view models read the one session.
     */
    method CreateProfile(createOf: (CreateProfile, string) -> Resource<Profile>)
      returns (submitted: Option<CreateProfile>)
      requires register.globals == globals
      modifies this, register, host
      ensures submitted.Some? ==>
        submitted.value.userId == old(globals.userId) && submitted.value.firstName == old(register.firstName) &&
        submitted.value.lastName == old(register.lastName) && submitted.value.phone == Some(old(register.phone))
      ensures IsBlank(old(globals.token)) ==>
        submitted.None? && writes == old(writes) + [WithMessage(TokenRequiredMessage)] &&
        state == WithMessage(TokenRequiredMessage) &&
        unchanged(register) && host.effects == old(host.effects) &&
        photoUrl == old(photoUrl) && description == old(description) && birthdate == old(birthdate)
      ensures !IsBlank(old(globals.token)) && !IsValidDateFormat(old(birthdate)) ==>
        submitted.None? && writes == old(writes) + [WithMessage(DateFormatMessage)] &&
        state == WithMessage(DateFormatMessage) &&
        unchanged(register) && host.effects == old(host.effects) &&
        photoUrl == old(photoUrl) && description == old(description) && birthdate == old(birthdate)
      ensures !IsBlank(old(globals.token)) && IsValidDateFormat(old(birthdate)) ==>
        submitted == Some(old(register.GetProfile()).(description := Some(old(description)),
                                                      photo := Some(old(photoUrl)),
                                                      birthDate := old(birthdate))) &&
        var result := createOf(submitted.value, old(globals.token));
        |writes| == |old(writes)| + 2 && writes[|old(writes)|] == Loading() &&
        if result.Success? then
          state == WithData(result.data) && writes[|writes| - 1] == state &&
          register.firstName == "" && register.lastName == "" && register.phone == "" &&
          register.email == "" && register.password == "" && register.state == old(register.state) &&
          photoUrl == "" && description == "" && birthdate == "" &&
          host.effects == old(host.effects) + [NavigateTo(CreateHouseRoute)]
        else
          state == WithMessage(MessageOr(result.message, CreateErrorDefault)) && writes[|writes| - 1] == state &&
          unchanged(register) && host.effects == old(host.effects) &&
          photoUrl == old(photoUrl) && description == old(description) && birthdate == old(birthdate)
    {
      var token := globals.token;
      if IsBlank(token) {
        SetState(WithMessage(TokenRequiredMessage));
        return None;
      }
      if !IsValidDateFormat(birthdate) {
        SetState(WithMessage(DateFormatMessage));
        return None;
      }
      SetState(Loading());
      var profile := register.GetProfile().(description := Some(description), photo := Some(photoUrl), birthDate := birthdate);
      submitted := Some(profile);
      var result := createOf(profile, token);
      if result.Success? {
        SetState(WithData(result.data));
        register.ClearFields();
        description, photoUrl, birthdate := "", "", "";
        host.Navigate(CreateHouseRoute);
      } else {
        SetState(WithMessage(MessageOr(result.message, CreateErrorDefault)));
      }
    }

    /** `uploadImage`, up to the launch: loading is shown at once. */
    method UploadImage()
      modifies this
      ensures writes == old(writes) + [Loading()] && state == Loading()
      ensures photoUrl == old(photoUrl) && description == old(description) && birthdate == old(birthdate)
    {
      SetState(Loading());
    }

    /**
     * The launched block of `uploadImage`: the file is uploaded under the
     * URI's last path segment (or the default name); the returned URL
     * becomes the photo and loading ends, while a throw shows its message
     * and keeps the photo. `filename` is the name uploaded under.
     */
    method CompleteUploadImage(lastPathSegment: Option<string>, uploadOf: string -> Call<string>)
      returns (filename: string)
      modifies this
      ensures filename == UploadFileName(lastPathSegment)
      ensures match uploadOf(filename)
        case Returned(url) => photoUrl == url && state == Idle() && writes == old(writes) + [Idle()]
        case Threw(m) =>
          photoUrl == old(photoUrl) && state == WithMessage(UploadErrorMessage(m)) && writes == old(writes) + [state]
      ensures description == old(description) && birthdate == old(birthdate)
    {
      filename := UploadFileName(lastPathSegment);
      match uploadOf(filename) {
        case Returned(url) =>
          photoUrl := url;
          SetState(Idle());
        case Threw(m) =>
          SetState(WithMessage(UploadErrorMessage(m)));
      }
    }
  }
}
