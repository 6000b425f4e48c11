/**
 * The alert list's view model (AlertListViewModel.kt): the owner chain that
 * loads the alerts, and the deletion that runs `removeIf` on a copy of the
 * loaded list.
 */
module AlertListViewModel {
  import opened Common
  import opened Domain
  import opened Seqs
  import opened Session
  import opened OwnerLookup

  const DeleteErrorMessage := "Error al intentar eliminar la alerta"

  class AlertListViewModel {
    var alertState: UIState<seq<Alert>>
    const globals: Globals
    const host: Host

    constructor(globals: Globals, host: Host)
      ensures alertState == Idle() && this.globals == globals && this.host == host
    {
      alertState := Idle();
      this.globals, this.host := globals, host;
    }

    method GoBack()
      modifies host
      ensures host.effects == old(host.effects) + [PopBack]
    {
      host.PopBackStack();
    }

    /** `getAlerts`, up to the launch. */
    method GetAlerts()
      modifies this
      ensures alertState == Loading()
    {
      alertState := Loading();
    }

    /** The launched block of `getAlerts`; absent alert data is stored as an empty list. */
    method CompleteGetAlerts(ownerOf: (int, string) -> Resource<Owner>, alertsOf: (int, string) -> Resource<seq<Alert>>)
      modifies this
      ensures alertState == ChainState(Lookup(ownerOf(globals.userId, globals.token), alertsOf, globals.token),
                                       OwnerErrorDefault, AlertsErrorDefault, ListOrEmptyData)
    {
      var token := globals.token;
      var ownerResult := ownerOf(globals.userId, token);
      match ownerResult {
        case Success(_) =>
          var ownerId := OwnerIdOf(ownerResult);
          if ownerId.Some? {
            var result := alertsOf(ownerId.value, token);
            if result.Success? {
              alertState := WithData(Some(result.data.GetOr([])));
            } else if result.Error? {
              alertState := WithMessage(MessageOr(result.message, AlertsErrorDefault));
            }
          } else {
            alertState := WithMessage(NoOwnerMessage);
          }
        case Error(message) =>
          alertState := WithMessage(MessageOr(message, OwnerErrorDefault));
      }
    }

    /**
     * `deleteAlert`: after the repository confirms, the loaded list is copied
     * into a buffer, the alerts with that id are removed from it in place,
     * and what is left is stored; with no list loaded nothing changes. Any
     * other outcome replaces the state with a fixed message.
     */
    method DeleteAlert(alertId: int, deleteOf: (int, string) -> Resource<()>)
      modifies this
      ensures var result := deleteOf(alertId, globals.token);
        alertState == (if !result.Success? then WithMessage(DeleteErrorMessage)
                       else if old(alertState.data).None? then old(alertState)
                       else WithData(Some(RemoveId(old(alertState.data).value, AlertId, alertId))))
    {
      var result := deleteOf(alertId, globals.token);
      if result.Success? {
        if alertState.data.None? {
          return;
        }
        var loaded := alertState.data.value;
        var alerts := new Alert[|loaded|](i requires 0 <= i < |loaded| => loaded[i]);
        assert alerts[..] == loaded;
        var n := RemoveIdInPlace(alerts, AlertId, alertId);
        alertState := WithData(Some(alerts[..n]));
      } else {
        alertState := WithMessage(DeleteErrorMessage);
      }
    }
  }

  /**
   * What a successful deletion leaves of a loaded list: no alert with the
   * id, every other alert in its order, one fewer per match; deleting an id
   * that is not there changes nothing, and deleting twice is deleting once.
   */
  lemma DeletionRemovesExactly(alerts: seq<Alert>, alertId: int)
    ensures var r := RemoveId(alerts, AlertId, alertId);
      (forall a :: a in r <==> a in alerts && a.id != Some(alertId)) &&
      |r| == |alerts| - CountId(alerts, AlertId, alertId) &&
      RemoveId(r, AlertId, alertId) == r
    ensures (forall a :: a in alerts ==> a.id != Some(alertId)) ==> RemoveId(alerts, AlertId, alertId) == alerts
  {
    RemoveIdContents(alerts, AlertId, alertId);
    RemoveIdIdempotent(alerts, AlertId, alertId);
    var r := RemoveId(alerts, AlertId, alertId);
    forall a | a in r ensures a in alerts {
      SublistMember(alerts, AlertId, alertId, a);
    }
    if forall a :: a in alerts ==> a.id != Some(alertId) {
      NoMatchesCountZero(alerts, AlertId, alertId);
      RemoveAbsentId(alerts, AlertId, alertId);
    }
  }
}
