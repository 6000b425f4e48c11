/**
 * The sign-up view model (RegisterViewModel.kt): the five fields typed in,
 * the profile draft built from them, and sign-up followed by sign-in. Every
 * write of the state is also appended to the ghost log `writes`, so that the
 * contracts can say in which order the states were shown.
 */
module RegisterViewModel {
  import opened Common
  import opened Domain
  import opened Session

  const UserRoles := ["ROLE_USER", "ROLE_OWNER"]
  const SignUpErrorDefault := "Error al registrarse"
  const NoTokenMessage := "Error al obtener el token"
  const SignInErrorDefault := "Error al iniciar sesión"

  class RegisterViewModel {
    var state: UIState<()>
    ghost var writes: seq<UIState<()>>
    var firstName: string
    var lastName: string
    var phone: string
    var email: string
    var password: string
    const globals: Globals
    const host: Host

    constructor(globals: Globals, host: Host)
      ensures state == Idle() && writes == []
      ensures firstName == "" && lastName == "" && phone == "" && email == "" && password == ""
      ensures this.globals == globals && this.host == host
    {
      state, firstName, lastName, phone, email, password := Idle(), "", "", "", "", "";
      writes := [];
      this.globals, this.host := globals, host;
    }

    /**
     * `getProfile`: the draft the profile screen completes, with the names
     * and phone typed here, the session's user id, an empty birth date and
     * no description, photo or address.
     */
    function GetProfile(): (draft: CreateProfile)
      reads this, globals
      ensures draft.userId == globals.userId
      ensures draft.firstName == firstName && draft.lastName == lastName && draft.phone == Some(phone)
      ensures draft.birthDate == "" && draft.description.None? && draft.photo.None? && draft.address.None?
    {
      CreateProfile(globals.userId, firstName, lastName, "", None, None, Some(phone), None)
    }

    method GotoBack()
      modifies host
      ensures host.effects == old(host.effects) + [PopBack]
    {
      host.PopBackStack();
    }

    method SetState(s: UIState<()>)
      modifies this
      ensures state == s && writes == old(writes) + [s]
      ensures firstName == old(firstName) && lastName == old(lastName) && phone == old(phone)
      ensures email == old(email) && password == old(password)
    {
      state := s;
      writes := writes + [s];
    }

    /**
     * The private `signIn` run after a sign-up: a returned token becomes the
     * session's token, with the returned id, and the profile screen opens;
     * a success without a token, or a failure, only shows a message.
     */
    method SignInAfterSignUp(email: string, password: string, signInOf: (string, string) -> Resource<AuthenticationResponse>)
      modifies this, globals, host
      ensures var result := signInOf(email, password);
        if result.Success? && result.data.Some? && result.data.value.token.Some? then
          globals.userId == result.data.value.id && globals.token == result.data.value.token.value &&
          host.effects == old(host.effects) + [NavigateTo(CreateProfileRoute)] &&
          state == old(state) && writes == old(writes)
        else
          globals.userId == old(globals.userId) && globals.token == old(globals.token) &&
          host.effects == old(host.effects) &&
          writes == old(writes) + [WithMessage(if result.Success? then NoTokenMessage
                                               else MessageOr(result.message, SignInErrorDefault))] &&
          state == writes[|writes| - 1]
      ensures globals.roles == old(globals.roles)
      ensures firstName == old(firstName) && lastName == old(lastName) && phone == old(phone)
      ensures this.email == old(this.email) && this.password == old(this.password)
    {
      var result := signInOf(email, password);
      if result.Success? {
        var token := if result.data.Some? then result.data.value.token else None;
        if token.Some? {
          globals.userId := result.data.value.id;
          globals.token := token.value;
          host.Navigate(CreateProfileRoute);
        } else {
          SetState(WithMessage(NoTokenMessage));
        }
      } else {
        SetState(WithMessage(MessageOr(result.message, SignInErrorDefault)));
      }
    }

    /**
     * `signUp`: loading is shown and the roles are set to the user and owner
     * roles before the request, which carries the typed email, password and
     * those roles; on success the state holds data and the same credentials
     * are used to sign in, on failure it shows the message or the default.
     */
    method SignUp(signUpOf: (string, string, seq<string>) -> Resource<SignUpResponse>,
                  signInOf: (string, string) -> Resource<AuthenticationResponse>)
      modifies this, globals, host
      ensures globals.roles == UserRoles
      ensures |writes| >= |old(writes)| + 2 && writes[|old(writes)|] == Loading()
      ensures var result := signUpOf(old(email), old(password), UserRoles);
        if result.Success? then
          writes[|old(writes)| + 1] == WithData(Some(())) &&
          var signIn := signInOf(old(email), old(password));
          if signIn.Success? && signIn.data.Some? && signIn.data.value.token.Some? then
            |writes| == |old(writes)| + 2 && state == WithData(Some(())) &&
            globals.token == signIn.data.value.token.value &&
            globals.userId == signIn.data.value.id &&
            host.effects == old(host.effects) + [NavigateTo(CreateProfileRoute)]
          else
            |writes| == |old(writes)| + 3 && state == writes[|writes| - 1] &&
            state == WithMessage(if signIn.Success? then NoTokenMessage
                                 else MessageOr(signIn.message, SignInErrorDefault)) &&
            globals.token == old(globals.token) && globals.userId == old(globals.userId) &&
            host.effects == old(host.effects)
        else
          writes == old(writes) + [Loading(), WithMessage(MessageOr(result.message, SignUpErrorDefault))] &&
          state == WithMessage(MessageOr(result.message, SignUpErrorDefault)) &&
          host.effects == old(host.effects) && globals.token == old(globals.token) &&
          globals.userId == old(globals.userId)
      ensures firstName == old(firstName) && lastName == old(lastName) && phone == old(phone)
      ensures email == old(email) && password == old(password)
    {
      SetState(Loading());
      var emailValue := email;
      var passwordValue := password;
      globals.roles := ["ROLE_USER", "ROLE_OWNER"];
      var roles := globals.roles;
      var result := signUpOf(emailValue, passwordValue, roles);
      if result.Success? {
        SetState(WithData(Some(())));
        SignInAfterSignUp(emailValue, passwordValue, signInOf);
      } else {
        SetState(WithMessage(MessageOr(result.message, SignUpErrorDefault)));
      }
    }

    method GoToLoginScreen()
      modifies host
      ensures host.effects == old(host.effects) + [NavigateTo(LoginRoute)]
    {
      host.Navigate(LoginRoute);
    }

    /** `clearFields`: all five fields become empty; the state is kept. */
    method ClearFields()
      modifies this
      ensures firstName == "" && lastName == "" && phone == "" && email == "" && password == ""
      ensures state == old(state) && writes == old(writes)
    {
      firstName, lastName, phone, email, password := "", "", "", "", "";
    }
  }
}
