/**
 * What the view models share outside themselves: the session globals
 * (`GlobalVariables.TOKEN`, `USER_ID`, `ROLES`), and the navigation
 * controller and local user table, seen only through the requests made of
 * them.
 */
module Session {
  import opened Domain

  /** The session globals every view model reads and some write. */
  class Globals {
    var token: string
    var userId: int
    var roles: seq<string>

    constructor(token: string, userId: int, roles: seq<string>)
      ensures this.token == token && this.userId == userId && this.roles == roles
    {
      this.token, this.userId, this.roles := token, userId, roles;
    }
  }

  /** The screens navigated to, as route labels. */
  datatype Destination =
    | HomeRoute | LoginRoute | RegisterRoute | CreateProfileRoute | CreateHouseRoute
    | NotificationListRoute | AddVisitorRoute | AddVisitorImageRoute | VisitorsListRoute

  /** A request made of the world outside the view models. */
  datatype Effect =
    | NavigateTo(destination: Destination)
    | PopBack
    | InsertUser(user: AuthenticationResponse)
    | DeleteUser(user: AuthenticationResponse)

  /** The navigation controller and the local user table, as the log of what was asked of them. */
  class Host {
    var effects: seq<Effect>

    constructor()
      ensures effects == []
    {
      effects := [];
    }

    method Navigate(destination: Destination)
      modifies this
      ensures effects == old(effects) + [NavigateTo(destination)]
    {
      effects := effects + [NavigateTo(destination)];
    }

    method PopBackStack()
      modifies this
      ensures effects == old(effects) + [PopBack]
    {
      effects := effects + [PopBack];
    }

    method InsertStoredUser(user: AuthenticationResponse)
      modifies this
      ensures effects == old(effects) + [InsertUser(user)]
    {
      effects := effects + [InsertUser(user)];
    }

    method DeleteStoredUser(user: AuthenticationResponse)
      modifies this
      ensures effects == old(effects) + [DeleteUser(user)]
    {
      effects := effects + [DeleteUser(user)];
    }
  }
}
