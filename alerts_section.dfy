/**
 * The alert cards on the home screen (AlertsSection.kt): the five-card cap,
 * when a card is clickable, the action offered for a status, and the shorter
 * relative-time format. Its label and colour helpers are exact copies of the
 * alert list screen's and are the members of `AlertListScreen`.
 */
module AlertsSection {
  import opened Common
  import opened Text
  import opened Domain
  import opened AlertListScreen

  const MaxCards := 5

  datatype SectionView = EmptyAlerts | AlertCards(shown: seq<Alert>)

  /** `AlertsContent`: the empty state, or the first five alerts. */
  function AlertsContent(alerts: seq<Alert>): (v: SectionView)
    ensures v.EmptyAlerts? <==> alerts == []
    ensures v.AlertCards? ==>
      |v.shown| == (if |alerts| < MaxCards then |alerts| else MaxCards) &&
      v.shown == alerts[..|v.shown|]
  {
    if alerts == [] then EmptyAlerts
    else AlertCards(if |alerts| <= MaxCards then alerts else alerts[..MaxCards])
  }

  /** A card reacts to clicks only when a handler is given and the alert has an id. */
  predicate CardClickable(hasClickHandler: bool, id: Option<int>) {
    hasClickHandler && id.Some?
  }

  datatype AlertAction = Confirm | MarkFalse | NoAction

  /** The action button under a card (`when (alert.status.uppercase())`). */
  function CardAction(status: string, hasResolveHandler: bool, id: Option<int>): AlertAction {
    var s := Upper(status);
    if s == "PENDING" then (if hasResolveHandler && id.Some? then Confirm else NoAction)
    else if s == "CONFIRMED" then (if hasResolveHandler && id.Some? then MarkFalse else NoAction)
    else NoAction
  }

  /**
   * "Confirmar" is offered exactly for a pending alert and "Marcar Falsa"
   * exactly for a confirmed one, in any letter case, each only with a
   * handler and an alert id; so an action is offered only for an active
   * status.
   */
  lemma CardActionRules(status: string, hasResolveHandler: bool, id: Option<int>)
    ensures CardAction(status, hasResolveHandler, id) == Confirm <==>
      Upper(status) == "PENDING" && hasResolveHandler && id.Some?
    ensures CardAction(status, hasResolveHandler, id) == MarkFalse <==>
      Upper(status) == "CONFIRMED" && hasResolveHandler && id.Some?
    ensures CardAction(status, hasResolveHandler, id) != NoAction ==> IsActiveStatus(status)
  {
  }

  /**
   * `formatAlertTime` for `diffMillis` = now − timestamp: minutes under an
   * hour, hours under a day, and the day and month after that.
   */
  function AlertTime(diffMillis: int): (b: TimeAgo)
    ensures var m := ElapsedMinutes(diffMillis);
      (b == JustNow <==> m < 1) &&
      (b.MinutesAgo? <==> 1 <= m < 60) &&
      (b.MinutesAgo? ==> b.minutes == m) &&
      (b.HoursAgo? <==> 60 <= m < 1440) &&
      (b.HoursAgo? ==> b.hours == m / 60 && 1 <= b.hours <= 23) &&
      (b == DayMonth <==> m >= 1440)
  {
    var minutes := ElapsedMinutes(diffMillis);
    if minutes < 1 then JustNow
    else if minutes < 60 then MinutesAgo(minutes)
    else if minutes < 1440 then HoursAgo(TruncDiv(minutes, 60))
    else DayMonth
  }

  /**
   * Under a day old, the home card and the alert list show the same label;
   * from a day on, the card shows the day and month where the list shows a
   * weekday or a full date: the card has no weekday form.
   */
  lemma AlertTimeAgreesWithList(diffMillis: int)
    ensures ElapsedMinutes(diffMillis) < 1440 ==> AlertTime(diffMillis) == AlertDateTime(diffMillis)
    ensures ElapsedMinutes(diffMillis) >= 1440 ==>
      AlertTime(diffMillis) == DayMonth && AlertDateTime(diffMillis) in {WeekdayAndTime, FullDate}
  {
  }

  /** The text shown, given the platform's day-and-month rendering. */
  function AlertTimeText(diffMillis: int, dayMonth: string): string {
    match AlertTime(diffMillis)
    case JustNow => "Ahora"
    case MinutesAgo(m) => NatToString(m) + "m"
    case HoursAgo(h) => NatToString(h) + "h"
    case _ => dayMonth
  }

  /** Under a day old, the card's text is the list's text. */
  lemma AlertTimeTextAgrees(diffMillis: int, dayMonth: string, weekdayAndTime: string, fullDate: string)
    requires ElapsedMinutes(diffMillis) < 1440
    ensures AlertTimeText(diffMillis, dayMonth) == AlertDateTimeText(diffMillis, weekdayAndTime, fullDate)
  {
    AlertTimeAgreesWithList(diffMillis);
  }
}
