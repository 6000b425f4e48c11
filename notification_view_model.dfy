/**
 * The notification list's view model (NotificationViewModel.kt): the list is
 * fetched and sorted newest first, and a deletion runs `removeIf` on a copy.
 * Both failure messages are fixed; the repository's message is dropped.
 */
module NotificationViewModel {
  import opened Common
  import opened Domain
  import opened Seqs
  import opened Ordering
  import opened Session

  const NoNotificationsMessage := "No se encontraron notificaciones"
  const FetchErrorMessage := "Error al intentar obtener las notificaciones"
  const DeleteErrorMessage := "Error al intentar eliminar la notificación"

  /** `sortedByDescending { it.date }`: `a` may come before `b`. */
  predicate LaterFirst(a: Notification, b: Notification) {
    a.date >= b.date
  }

  lemma LaterFirstIsTotalPreorder()
    ensures TotalPreorder(LaterFirst)
  {
  }

  /** The fetched notifications as stored: sorted by date, newest first. */
  function NewestFirst(notifications: seq<Notification>): seq<Notification> {
    SortBy(notifications, LaterFirst)
  }

  /**
   * Dates never increase along the stored list, it holds exactly the fetched
   * notifications, and notifications of the same date keep their fetched order.
   */
  lemma NewestFirstOrder(notifications: seq<Notification>)
    ensures var r := NewestFirst(notifications);
      forall i, j :: 0 <= i < j < |r| ==> r[i].date >= r[j].date
    ensures multiset(NewestFirst(notifications)) == multiset(notifications)
    ensures forall k :: TiedWith(NewestFirst(notifications), k, LaterFirst) == TiedWith(notifications, k, LaterFirst)
  {
    LaterFirstIsTotalPreorder();
    SortBySorted(notifications, LaterFirst);
    SortByPermutes(notifications, LaterFirst);
    forall k {
      SortByStable(notifications, k, LaterFirst);
    }
  }

  /** Deleting from a list sorted newest first leaves it sorted. */
  lemma DeletionKeepsNewestFirst(notifications: seq<Notification>, notificationId: int)
    requires SortedBy(notifications, LaterFirst)
    ensures var r := RemoveId(notifications, NotificationId, notificationId);
      SortedBy(r, LaterFirst) && (forall n :: n in r ==> n.id != Some(notificationId))
  {
    RemoveIdKeepsSorted(notifications, NotificationId, notificationId, LaterFirst);
    RemoveIdContents(notifications, NotificationId, notificationId);
  }

  class NotificationViewModel {
    var state: UIState<seq<Notification>>
    const globals: Globals
    const host: Host

    constructor(globals: Globals, host: Host)
      ensures state == Idle() && this.globals == globals && this.host == host
    {
      state := Idle();
      this.globals, this.host := globals, host;
    }

    method GoBack()
      modifies host
      ensures host.effects == old(host.effects) + [PopBack]
    {
      host.PopBackStack();
    }

    /** `getNotificationList`, up to the launch. */
    method GetNotificationList()
      modifies this
      ensures state == Loading()
    {
      state := Loading();
    }

    /** The launched block of `getNotificationList`. */
    method CompleteGetNotificationList(notificationsOf: (int, string) -> Resource<seq<Notification>>)
      modifies this
      ensures var result := notificationsOf(globals.userId, globals.token);
        state == (if result.Error? then WithMessage(FetchErrorMessage)
                  else if result.data.None? then WithMessage(NoNotificationsMessage)
                  else WithData(Some(NewestFirst(result.data.value))))
    {
      var result := notificationsOf(globals.userId, globals.token);
      if result.Success? {
        if result.data.None? {
          state := WithMessage(NoNotificationsMessage);
          return;
        }
        var notifications := SortBy(result.data.value, LaterFirst);
        state := WithData(Some(notifications));
      } else {
        state := WithMessage(FetchErrorMessage);
      }
    }

    /**
     * `deleteNotification`: after the repository confirms, the notifications
     * with that id are removed in place from a copy of the loaded list; with
     * no list loaded nothing changes.
     */
    method DeleteNotification(notificationId: int, deleteOf: (int, string) -> Resource<()>)
      modifies this
      ensures var result := deleteOf(notificationId, globals.token);
        state == (if !result.Success? then WithMessage(DeleteErrorMessage)
                  else if old(state.data).None? then old(state)
                  else WithData(Some(RemoveId(old(state.data).value, NotificationId, notificationId))))
    {
      var result := deleteOf(notificationId, globals.token);
      if result.Success? {
        if state.data.None? {
          return;
        }
        var loaded := state.data.value;
        var notifications := new Notification[|loaded|](i requires 0 <= i < |loaded| => loaded[i]);
        assert notifications[..] == loaded;
        var n := RemoveIdInPlace(notifications, NotificationId, notificationId);
        state := WithData(Some(notifications[..n]));
      } else {
        state := WithMessage(DeleteErrorMessage);
      }
    }
  }
}
