/**
 * The home screen's view model (HomeViewModel.kt): five pieces of state, each
 * replaced by its own fetch. A fetch writes a loading state at once and its
 * launched block writes the outcome; the two halves are separate methods
 * here, the second taking the repository's answers.
 */
module HomeViewModel {
  import opened Common
  import opened Domain
  import opened Seqs
  import opened Session
  import opened OwnerLookup
  import opened HomeScreen

  const ProfileErrorDefault := "Error al obtener el perfil"

  class HomeViewModel {
    var state: UIState<seq<Visitor>>
    var notificationCount: int
    var profileState: UIState<Profile>
    var cameraState: UIState<seq<Device>>
    var alertState: UIState<seq<Alert>>
    const globals: Globals
    const host: Host

    constructor(globals: Globals, host: Host)
      ensures state == Idle() && notificationCount == 0 && profileState == Idle()
      ensures cameraState == Idle() && alertState == Idle()
      ensures this.globals == globals && this.host == host
    {
      state, notificationCount, profileState, cameraState, alertState := Idle(), 0, Idle(), Idle(), Idle();
      this.globals, this.host := globals, host;
    }

    /** `getVisitors`, up to the launch: the visitors state becomes loading-only. */
    method GetVisitors()
      modifies this
      ensures state == Loading()
      ensures notificationCount == old(notificationCount) && profileState == old(profileState)
      ensures cameraState == old(cameraState) && alertState == old(alertState)
    {
      state := Loading();
    }

    /** The launched block of `getVisitors`, given the owner and visitor repositories. */
    method CompleteGetVisitors(ownerOf: (int, string) -> Resource<Owner>, visitorsOf: (int, string) -> Resource<seq<Visitor>>)
      modifies this
      ensures state == ChainState(Lookup(ownerOf(globals.userId, globals.token), visitorsOf, globals.token),
                                  OwnerErrorDefault, VisitorsErrorDefault, d => d)
      ensures notificationCount == old(notificationCount) && profileState == old(profileState)
      ensures cameraState == old(cameraState) && alertState == old(alertState)
    {
      var token := globals.token;
      var ownerResult := ownerOf(globals.userId, token);
      match ownerResult {
        case Success(_) =>
          var ownerId := OwnerIdOf(ownerResult);
          if ownerId.Some? {
            var visitorsResult := visitorsOf(ownerId.value, token);
            match visitorsResult {
              case Success(data) => state := WithData(data);
              case Error(message) => state := WithMessage(MessageOr(message, VisitorsErrorDefault));
            }
          } else {
            state := WithMessage(NoOwnerMessage);
          }
        case Error(message) =>
          state := WithMessage(MessageOr(message, OwnerErrorDefault));
      }
    }

    /** `getProfile`, up to the launch. */
    method GetProfile()
      modifies this
      ensures profileState == Loading()
      ensures state == old(state) && notificationCount == old(notificationCount)
      ensures cameraState == old(cameraState) && alertState == old(alertState)
    {
      profileState := Loading();
    }

    /** The launched block of `getProfile`. */
    method CompleteGetProfile(profileOf: (int, string) -> Resource<Profile>)
      modifies this
      ensures var result := profileOf(globals.userId, globals.token);
        profileState == (if result.Success? then WithData(result.data)
                         else WithMessage(MessageOr(result.message, ProfileErrorDefault)))
      ensures state == old(state) && notificationCount == old(notificationCount)
      ensures cameraState == old(cameraState) && alertState == old(alertState)
    {
      var result := profileOf(globals.userId, globals.token);
      if result.Success? {
        profileState := WithData(result.data);
      } else if result.Error? {
        profileState := WithMessage(MessageOr(result.message, ProfileErrorDefault));
      }
    }

    /** `getAlerts`, up to the launch. */
    method GetAlerts()
      modifies this
      ensures alertState == Loading()
      ensures state == old(state) && notificationCount == old(notificationCount)
      ensures profileState == old(profileState) && cameraState == old(cameraState)
    {
      alertState := Loading();
    }

    /** The launched block of `getAlerts`: absent alert data is stored as an empty list. */
    method CompleteGetAlerts(ownerOf: (int, string) -> Resource<Owner>, alertsOf: (int, string) -> Resource<seq<Alert>>)
      modifies this
      ensures alertState == ChainState(Lookup(ownerOf(globals.userId, globals.token), alertsOf, globals.token),
                                       OwnerErrorDefault, AlertsErrorDefault, ListOrEmptyData)
      ensures state == old(state) && notificationCount == old(notificationCount)
      ensures profileState == old(profileState) && cameraState == old(cameraState)
    {
      var token := globals.token;
      var ownerResult := ownerOf(globals.userId, token);
      match ownerResult {
        case Success(_) =>
          var ownerId := OwnerIdOf(ownerResult);
          if ownerId.Some? {
            var result := alertsOf(ownerId.value, token);
            if result.Success? {
              alertState := WithData(Some(result.data.GetOr([])));
            } else if result.Error? {
              alertState := WithMessage(MessageOr(result.message, AlertsErrorDefault));
            }
          } else {
            alertState := WithMessage(NoOwnerMessage);
          }
        case Error(message) =>
          alertState := WithMessage(MessageOr(message, OwnerErrorDefault));
      }
    }

    /** `getCameras`, up to the launch. */
    method GetCameras()
      modifies this
      ensures cameraState == Loading()
      ensures state == old(state) && notificationCount == old(notificationCount)
      ensures profileState == old(profileState) && alertState == old(alertState)
    {
      cameraState := Loading();
    }

    /** The launched block of `getCameras`: only the CAMERA devices are kept. */
    method CompleteGetCameras(ownerOf: (int, string) -> Resource<Owner>, devicesOf: (int, string) -> Resource<seq<Device>>)
      modifies this
      ensures cameraState == ChainState(Lookup(ownerOf(globals.userId, globals.token), devicesOf, globals.token),
                                        CamerasOwnerErrorDefault, DevicesErrorDefault, CamerasOf)
      ensures state == old(state) && notificationCount == old(notificationCount)
      ensures profileState == old(profileState) && alertState == old(alertState)
    {
      var ownerResult := ownerOf(globals.userId, globals.token);
      match ownerResult {
        case Success(_) =>
          var ownerId := OwnerIdOf(ownerResult);
          if ownerId.Some? {
            var result := devicesOf(ownerId.value, globals.token);
            if result.Success? {
              var cameras := Filter(result.data.GetOr([]), IsCamera);
              cameraState := WithData(Some(cameras));
            } else if result.Error? {
              cameraState := WithMessage(MessageOr(result.message, DevicesErrorDefault));
            }
          } else {
            cameraState := WithMessage(NoOwnerMessage);
          }
        case Error(message) =>
          cameraState := WithMessage(MessageOr(message, CamerasOwnerErrorDefault));
      }
    }

    /** `loadNotificationCount`: the number of notifications fetched, 0 when none came back. */
    method LoadNotificationCount(notificationsOf: (int, string) -> Resource<seq<Notification>>)
      modifies this
      ensures var data := notificationsOf(globals.userId, globals.token).Data();
        notificationCount == (if data.Some? then |data.value| else 0)
      ensures state == old(state) && profileState == old(profileState)
      ensures cameraState == old(cameraState) && alertState == old(alertState)
    {
      var result := notificationsOf(globals.userId, globals.token);
      notificationCount := match result.Data() case Some(ns) => |ns| case None => 0;
    }

    /**
     * `signOut`: the roles are emptied first, then the stored user is
     * deleted and the login screen opened.
     */
    method SignOut()
      modifies globals, host
      ensures globals.roles == []
      ensures globals.token == old(globals.token) && globals.userId == old(globals.userId)
      ensures host.effects == old(host.effects) + [
        DeleteUser(AuthenticationResponse(old(globals.userId), "", Some(old(globals.token)))),
        NavigateTo(LoginRoute)]
    {
      globals.roles := [];
      var authResponse := AuthenticationResponse(globals.userId, "", Some(globals.token));
      host.DeleteStoredUser(authResponse);
      host.Navigate(LoginRoute);
    }

    method GoToNotificationListScreen()
      modifies host
      ensures host.effects == old(host.effects) + [NavigateTo(NotificationListRoute)]
    {
      host.Navigate(NotificationListRoute);
    }

    method GoToAddVisitorScreen()
      modifies host
      ensures host.effects == old(host.effects) + [NavigateTo(AddVisitorRoute)]
    {
      host.Navigate(AddVisitorRoute);
    }
  }

  /** The badge over the bell is drawn exactly when at least one notification came back. */
  lemma BadgeFollowsNotifications(data: Option<seq<Notification>>)
    ensures var count := if data.Some? then |data.value| else 0;
      NotificationBadge(count).Some? <==> data.Some? && data.value != []
  {
  }
}
