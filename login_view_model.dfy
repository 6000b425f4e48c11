/**
 * The sign-in view model (LoginViewModel.kt): the credentials typed in, the
 * password visibility flag, signing in, and restoring a session from the
 * user kept in the local database.
 */
module LoginViewModel {
  import opened Common
  import opened Text
  import opened Domain
  import opened Session

  const SignInErrorMessage := "Error al iniciar sesión"
  const RestoreErrorMessage := "Error al recuperar usuario"

  /** The session is usable: a non-blank token and a user id other than 0. */
  predicate LoggedIn(token: string, userId: int) {
    !IsBlank(token) && userId != 0
  }

  class LoginViewModel {
    var state: UIState<()>
    var email: string
    var password: string
    var isPasswordVisible: bool
    const globals: Globals
    const host: Host

    constructor(globals: Globals, host: Host)
      ensures state == Idle() && email == "" && password == "" && !isPasswordVisible
      ensures this.globals == globals && this.host == host
    {
      state, email, password, isPasswordVisible := Idle(), "", "", false;
      this.globals, this.host := globals, host;
    }

    /** `signIn`, up to the launch. */
    method SignIn()
      modifies this
      ensures state == Loading()
      ensures email == old(email) && password == old(password) && isPasswordVisible == old(isPasswordVisible)
    {
      state := Loading();
    }

    /**
     * The launched block of `signIn`. A success writes the returned token
     * and id into the session (or "" and 0); when they make a usable session
     * the user is stored, both fields are cleared and the home screen
     * opens, otherwise the fields are kept and the state says so. A failure
     * shows the error message as text, so an absent one reads "null".
     */
    method CompleteSignIn(signInOf: (string, string) -> Resource<AuthenticationResponse>)
      modifies this, globals, host
      ensures var result := signInOf(old(email), old(password));
        match result
        case Error(message) =>
          state == WithMessage(NullableToString(message)) &&
          email == old(email) && password == old(password) &&
          globals.token == old(globals.token) && globals.userId == old(globals.userId) &&
          host.effects == old(host.effects)
        case Success(data) =>
          var token := if data.Some? then data.value.token.GetOr("") else "";
          var userId := if data.Some? then data.value.id else 0;
          globals.token == token && globals.userId == userId &&
          if LoggedIn(token, userId) then
            state == Idle() && email == "" && password == "" &&
            host.effects == old(host.effects) + [
              InsertUser(AuthenticationResponse(userId, old(email), Some(token))), NavigateTo(HomeRoute)]
          else
            state == WithMessage(SignInErrorMessage) &&
            email == old(email) && password == old(password) && host.effects == old(host.effects)
      ensures globals.roles == old(globals.roles) && isPasswordVisible == old(isPasswordVisible)
    {
      var result := signInOf(email, password);
      match result {
        case Success(data) =>
          globals.token := if data.Some? then data.value.token.GetOr("") else "";
          globals.userId := if data.Some? then data.value.id else 0;
          state := Idle();
          if !IsBlank(globals.token) && globals.userId != 0 {
            host.InsertStoredUser(AuthenticationResponse(globals.userId, email, Some(globals.token)));
            email := "";
            password := "";
            host.Navigate(HomeRoute);
          } else {
            state := WithMessage(SignInErrorMessage);
          }
        case Error(message) =>
          state := WithMessage(NullableToString(message));
      }
    }

    /** `clearError`: not loading, no data, no message. */
    method ClearError()
      modifies this
      ensures state == Idle()
      ensures email == old(email) && password == old(password) && isPasswordVisible == old(isPasswordVisible)
    {
      state := WithMessage("");
    }

    method SetEmail(email: string)
      modifies this
      ensures this.email == email
      ensures state == old(state) && password == old(password) && isPasswordVisible == old(isPasswordVisible)
    {
      this.email := email;
    }

    method SetPassword(password: string)
      modifies this
      ensures this.password == password
      ensures state == old(state) && email == old(email) && isPasswordVisible == old(isPasswordVisible)
    {
      this.password := password;
    }

    /** `checkUser`, up to the launch. */
    method CheckUser()
      modifies this
      ensures state == Loading()
      ensures email == old(email) && password == old(password) && isPasswordVisible == old(isPasswordVisible)
    {
      state := Loading();
    }

    /**
     * The launched block of `checkUser`. A stored user is copied into the
     * session and, when usable, the home screen opens; either way the state
     * then reads "Error al recuperar usuario". Without a stored user the
     * state is left idle with no message.
     */
    method CompleteCheckUser(storedUser: Resource<StoredUser>)
      modifies this, globals, host
      ensures match storedUser
        case Error(_) =>
          state == Idle() && host.effects == old(host.effects) &&
          globals.token == old(globals.token) && globals.userId == old(globals.userId)
        case Success(data) =>
          var token := if data.Some? then data.value.token else "";
          var userId := if data.Some? then data.value.id else 0;
          globals.token == token && globals.userId == userId &&
          state == WithMessage(RestoreErrorMessage) &&
          host.effects == old(host.effects) + (if LoggedIn(token, userId) then [NavigateTo(HomeRoute)] else [])
      ensures email == old(email) && password == old(password) && isPasswordVisible == old(isPasswordVisible)
      ensures globals.roles == old(globals.roles)
    {
      match storedUser {
        case Success(data) =>
          globals.token := if data.Some? then data.value.token else "";
          globals.userId := if data.Some? then data.value.id else 0;
          if !IsBlank(globals.token) && globals.userId != 0 {
            host.Navigate(HomeRoute);
          }
          state := WithMessage(RestoreErrorMessage);
        case Error(_) =>
          state := Idle();
      }
    }

    method GoToSignUpScreen()
      modifies host
      ensures host.effects == old(host.effects) + [NavigateTo(RegisterRoute)]
    {
      host.Navigate(RegisterRoute);
    }

    /** `togglePasswordVisibility`: flips the flag and nothing else, so toggling twice restores it. */
    method TogglePasswordVisibility()
      modifies this
      ensures isPasswordVisible == !old(isPasswordVisible)
      ensures state == old(state) && email == old(email) && password == old(password)
    {
      isPasswordVisible := !isPasswordVisible;
    }
  }
}
