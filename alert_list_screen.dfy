/**
 * The rules of the alert list screen (AlertListScreen.kt): the type and
 * status filters with the newest-first sort, the active-status test, the
 * icon, background and text colours as tags, the type and status labels and
 * the relative-time buckets. The home screen's alert cards (AlertsSection.kt)
 * carry exact copies of these label and colour helpers and use the members
 * defined here.
 */
module AlertListScreen {
  import opened Common
  import opened Text
  import opened Words
  import opened Seqs
  import opened Ordering
  import opened Domain

  const AllFilter := "TODOS"

  predicate TypeMatch(typeFilter: string, a: Alert) {
    typeFilter == AllFilter || Upper(a.alertType) == typeFilter
  }

  predicate AlertStatusMatch(statusFilter: string, a: Alert) {
    statusFilter == AllFilter || Upper(a.status) == statusFilter
  }

  predicate AlertMatches(typeFilter: string, statusFilter: string, a: Alert) {
    TypeMatch(typeFilter, a) && AlertStatusMatch(statusFilter, a)
  }

  /** `sortedByDescending { it.timestamp }`: `a` may come before `b`. */
  predicate NewerFirst(a: Alert, b: Alert) {
    a.timestamp >= b.timestamp
  }

  lemma NewerFirstIsTotalPreorder()
    ensures TotalPreorder(NewerFirst)
  {
  }

  /** `filterAlerts(alerts, typeFilter, statusFilter)` */
  function FilterAlerts(alerts: seq<Alert>, typeFilter: string, statusFilter: string): seq<Alert> {
    SortBy(Filter(alerts, a => AlertMatches(typeFilter, statusFilter, a)), NewerFirst)
  }

  /**
   * Every alert shown passes both filters, and the result is a permutation
   * of the alerts that do.
   */
  lemma FilterAlertsContents(alerts: seq<Alert>, typeFilter: string, statusFilter: string)
    ensures forall a :: a in FilterAlerts(alerts, typeFilter, statusFilter) <==>
      a in alerts && TypeMatch(typeFilter, a) && AlertStatusMatch(statusFilter, a)
    ensures multiset(FilterAlerts(alerts, typeFilter, statusFilter))
         == multiset(Filter(alerts, a => AlertMatches(typeFilter, statusFilter, a)))
    ensures |FilterAlerts(alerts, typeFilter, statusFilter)| <= |alerts|
  {
    FilterThenSort(alerts, a => AlertMatches(typeFilter, statusFilter, a), NewerFirst);
  }

  /** With both filters on "TODOS" every alert is shown, only reordered. */
  lemma FilterAlertsKeepsAll(alerts: seq<Alert>)
    ensures multiset(FilterAlerts(alerts, AllFilter, AllFilter)) == multiset(alerts)
  {
    FilterAllPass(alerts, a => AlertMatches(AllFilter, AllFilter, a));
    SortByPermutes(alerts, NewerFirst);
  }

  /**
   * Timestamps never increase along the result, and the alerts that share a
   * timestamp keep their input order.
   */
  lemma FilterAlertsOrder(alerts: seq<Alert>, typeFilter: string, statusFilter: string)
    ensures var r := FilterAlerts(alerts, typeFilter, statusFilter);
      forall i, j :: 0 <= i < j < |r| ==> r[i].timestamp >= r[j].timestamp
    ensures var kept := Filter(alerts, a => AlertMatches(typeFilter, statusFilter, a));
      forall k :: TiedWith(FilterAlerts(alerts, typeFilter, statusFilter), k, NewerFirst) == TiedWith(kept, k, NewerFirst)
  {
    var kept := Filter(alerts, a => AlertMatches(typeFilter, statusFilter, a));
    NewerFirstIsTotalPreorder();
    SortBySorted(kept, NewerFirst);
    forall k {
      SortByStable(kept, k, NewerFirst);
    }
  }

  /** Alerts tie under the sort exactly when their timestamps are equal. */
  lemma NewerFirstTiedMeansSameTime(a: Alert, b: Alert)
    ensures Tied(a, b, NewerFirst) <==> a.timestamp == b.timestamp
  {
  }

  // ---------------------------------------------------------------------
  // Colours and icons, as tags

  datatype Colour = Red | Orange | OrangeRed | Purple | White | Gray
  datatype AlertIcon = WarningIcon | FaceIcon | NotificationsIcon
  /** A card background: a light tint of a colour, or the neutral dark grey. */
  datatype Background = Tinted(colour: Colour) | Neutral
  /** The three text colours: white, grey and translucent white. */
  datatype TextTone = Bright | Dim | Faded

  const KnownTypes: seq<string> := ["INTRUDER_DETECTED", "SUSPICIOUS_MOVEMENT", "UNKNOWN_PERSON", "SYSTEM_FAILURE"]

  /** `status.uppercase() in listOf("PENDING", "CONFIRMED")` */
  predicate IsActiveStatus(status: string) {
    Upper(status) in ["PENDING", "CONFIRMED"]
  }

  /** `getAlertIconAndColor` */
  function AlertIconAndColour(alertType: string, status: string): (AlertIcon, Colour) {
    var active := IsActiveStatus(status);
    var t := Upper(alertType);
    if t == "INTRUDER_DETECTED" then (WarningIcon, if active then Red else Gray)
    else if t == "SUSPICIOUS_MOVEMENT" then (FaceIcon, if active then Orange else Gray)
    else if t == "UNKNOWN_PERSON" then (FaceIcon, if active then OrangeRed else Gray)
    else if t == "SYSTEM_FAILURE" then (WarningIcon, if active then Purple else Gray)
    else (NotificationsIcon, if active then White else Gray)
  }

  /** `getAlertBackgroundColor` */
  function AlertBackground(alertType: string, status: string): Background {
    var active := IsActiveStatus(status);
    var t := Upper(alertType);
    if t == "INTRUDER_DETECTED" then (if active then Tinted(Red) else Neutral)
    else if t == "SUSPICIOUS_MOVEMENT" then (if active then Tinted(Orange) else Neutral)
    else if t == "UNKNOWN_PERSON" then (if active then Tinted(OrangeRed) else Neutral)
    else if t == "SYSTEM_FAILURE" then (if active then Tinted(Purple) else Neutral)
    else Neutral
  }

  /**
   * A non-active alert has the neutral background and a grey icon whatever
   * its type; an active alert of a known type is tinted with its icon's
   * colour, and any other alert is neutral.
   */
  lemma BackgroundFollowsIcon(alertType: string, status: string)
    ensures !IsActiveStatus(status) ==>
      AlertBackground(alertType, status) == Neutral && AlertIconAndColour(alertType, status).1 == Gray
    ensures AlertBackground(alertType, status).Tinted? <==> IsActiveStatus(status) && Upper(alertType) in KnownTypes
    ensures AlertBackground(alertType, status).Tinted? ==>
      AlertBackground(alertType, status).colour == AlertIconAndColour(alertType, status).1
  {
  }

  /** `getAlertTextColor` */
  function AlertTextTone(status: string): TextTone {
    var s := Upper(status);
    if s == "PENDING" || s == "CONFIRMED" then Bright
    else if s == "VIEWED" || s == "FALSE_ALARM" then Dim
    else Faded
  }

  /**
   * The text colour splits statuses into exactly three classes, and the
   * bright class is exactly the active statuses.
   */
  lemma TextToneClasses(status: string)
    ensures AlertTextTone(status) == Bright <==> IsActiveStatus(status)
    ensures AlertTextTone(status) == Dim <==> Upper(status) in ["VIEWED", "FALSE_ALARM"]
    ensures AlertTextTone(status) == Faded <==> Upper(status) !in ["PENDING", "CONFIRMED", "VIEWED", "FALSE_ALARM"]
  {
  }

  // ---------------------------------------------------------------------
  // Labels

  /** `getAlertTypeDisplayName` */
  function AlertTypeDisplayName(alertType: string): string {
    var t := Upper(alertType);
    if t == "INTRUDER_DETECTED" then "Intruso Detectado"
    else if t == "SUSPICIOUS_MOVEMENT" then "Movimiento Sospechoso"
    else if t == "UNKNOWN_PERSON" then "Persona Desconocida"
    else if t == "SYSTEM_FAILURE" then "Falla del Sistema"
    else TitleWords(ReplaceUnderscores(alertType))
  }

  /** `_` and space both separate words in the fallback label. */
  predicate IsSeparator(c: char) {
    c == '_' || c == ' '
  }

  /**
   * An unknown type is shown with the same length, every `_` turned into a
   * space and no `_` left, every character lower-cased except the first of
   * each word, which is upper-cased; it has one word per `_`/space-separated
   * segment of the type.
   */
  lemma AlertTypeFallback(alertType: string)
    requires Upper(alertType) !in KnownTypes
    ensures var r := AlertTypeDisplayName(alertType);
      |r| == |alertType| &&
      (forall i :: 0 <= i < |r| ==> r[i] != '_') &&
      (forall i :: 0 <= i < |r| ==> (r[i] == ' ' <==> IsSeparator(alertType[i]))) &&
      (forall i :: 0 <= i < |r| && !IsSeparator(alertType[i]) ==>
        r[i] == if i == 0 || IsSeparator(alertType[i - 1]) then UpperChar(LowerChar(alertType[i])) else LowerChar(alertType[i])) &&
      |SplitSpaces(r)| == |SplitSpaces(ReplaceUnderscores(alertType))|
  {
    var u := ReplaceUnderscores(alertType);
    var r := AlertTypeDisplayName(alertType);
    TitleWordsIsTitleFrom(u);
    forall i | 0 <= i < |r|
      ensures !IsSeparator(alertType[i]) ==>
        r[i] == if i == 0 || IsSeparator(alertType[i - 1]) then UpperChar(LowerChar(alertType[i])) else LowerChar(alertType[i])
      ensures r[i] != '_'
      ensures r[i] == ' ' <==> IsSeparator(alertType[i])
    {
      TitleFromAt(u, true, i);
    }
    SplitSpacesCount(r);
    SplitSpacesCount(u);
    SameSpacesSameCount(r, u);
  }

  /** The type label depends on the type only up to letter case. */
  lemma AlertTypeDisplayNameIgnoresCase(alertType: string)
    ensures AlertTypeDisplayName(Upper(alertType)) == AlertTypeDisplayName(alertType)
  {
    UpperIdempotent(alertType);
    FallbackIgnoresCase(alertType);
  }

  /** The title-cased fallback does not depend on the case of the type. */
  lemma FallbackIgnoresCase(alertType: string)
    ensures TitleWords(ReplaceUnderscores(Upper(alertType))) == TitleWords(ReplaceUnderscores(alertType))
  {
    var u, v := ReplaceUnderscores(Upper(alertType)), ReplaceUnderscores(alertType);
    TitleWordsIsTitleFrom(u);
    TitleWordsIsTitleFrom(v);
    forall i | 0 <= i < |u| ensures TitleFrom(u, true)[i] == TitleFrom(v, true)[i] {
      TitleCharIgnoresCase(alertType, i);
    }
  }

  /** One character of the fallback, for the type and its upper-cased form. */
  lemma TitleCharIgnoresCase(alertType: string, i: int)
    requires 0 <= i < |alertType|
    ensures TitleFrom(ReplaceUnderscores(Upper(alertType)), true)[i] == TitleFrom(ReplaceUnderscores(alertType), true)[i]
  {
    var u, v := ReplaceUnderscores(Upper(alertType)), ReplaceUnderscores(alertType);
    TitleFromAt(u, true, i);
    TitleFromAt(v, true, i);
    assert LowerChar(u[i]) == LowerChar(v[i]);
    assert i > 0 ==> (u[i - 1] == ' ' <==> v[i - 1] == ' ');
  }

  /** `getStatusDisplayName` */
  function StatusDisplayName(status: string): string {
    var s := Upper(status);
    if s == "PENDING" then "Pendiente"
    else if s == "VIEWED" then "Vista"
    else if s == "CONFIRMED" then "Confirmada"
    else if s == "FALSE_ALARM" then "Falsa Alarma"
    else TitleWord(status)
  }

  /**
   * The status label depends on the status only up to letter case; an
   * unknown status keeps its length, lower-cased with its first character
   * upper-cased.
   */
  lemma StatusDisplayNameRules(status: string)
    ensures StatusDisplayName(Upper(status)) == StatusDisplayName(status)
    ensures Upper(status) !in ["PENDING", "VIEWED", "CONFIRMED", "FALSE_ALARM"] ==>
      var r := StatusDisplayName(status);
      |r| == |status| &&
      (|r| > 0 ==> r[0] == UpperChar(LowerChar(status[0]))) &&
      forall i :: 1 <= i < |r| ==> r[i] == LowerChar(status[i])
  {
    UpperIdempotent(status);
    LowerOfUpper(status);
  }

  // ---------------------------------------------------------------------
  // Relative time

  /**
   * How long ago something happened, as the screens show it. The weekday,
   * the clock time and the dates are formatted by the platform and stay
   * opaque here.
   */
  datatype TimeAgo =
    | JustNow
    | MinutesAgo(minutes: int)
    | HoursAgo(hours: int)
    | WeekdayAndTime
    | FullDate
    | DayMonth  // the home card's bucket (AlertsSection); `AlertDateTime` never produces it

  const MillisPerMinute := 60000

  /** Elapsed whole minutes, as Kotlin's `Long` division computes them. */
  function ElapsedMinutes(diffMillis: int): int {
    TruncDiv(diffMillis, MillisPerMinute)
  }

  /**
   * `formatAlertDateTime` for `diffMillis` = now − timestamp: the first of
   * "under a minute", "under an hour", "under a day", "under a week" that
   * holds, else the full date.
   */
  function AlertDateTime(diffMillis: int): (b: TimeAgo)
    ensures var m := ElapsedMinutes(diffMillis);
      (b == JustNow <==> m < 1) &&
      (b.MinutesAgo? <==> 1 <= m < 60) &&
      (b.MinutesAgo? ==> b.minutes == m) &&
      (b.HoursAgo? <==> 60 <= m && m / 60 < 24) &&
      (b.HoursAgo? ==> b.hours == m / 60 && 1 <= b.hours <= 23) &&
      (b == WeekdayAndTime <==> 24 <= m / 60 && m / 60 / 24 < 7) &&
      (b == FullDate <==> 7 <= m / 60 / 24)
  {
    var minutes := ElapsedMinutes(diffMillis);
    var hours := TruncDiv(minutes, 60);
    var days := TruncDiv(hours, 24);
    if minutes < 1 then JustNow
    else if minutes < 60 then MinutesAgo(minutes)
    else if hours < 24 then HoursAgo(hours)
    else if days < 7 then WeekdayAndTime
    else FullDate
  }

  /** How recent a bucket is: later buckets are for older alerts. */
  function Age(b: TimeAgo): nat {
    match b
    case JustNow => 0
    case MinutesAgo(_) => 1
    case HoursAgo(_) => 2
    case WeekdayAndTime => 3
    case DayMonth => 3
    case FullDate => 4
  }

  /**
   * An older alert never lands in a more recent bucket, and within the same
   * bucket never shows a smaller count.
   */
  lemma AlertDateTimeMonotone(d1: int, d2: int)
    requires d1 <= d2
    ensures Age(AlertDateTime(d1)) <= Age(AlertDateTime(d2))
    ensures AlertDateTime(d1).MinutesAgo? && AlertDateTime(d2).MinutesAgo? ==>
      AlertDateTime(d1).minutes <= AlertDateTime(d2).minutes
    ensures AlertDateTime(d1).HoursAgo? && AlertDateTime(d2).HoursAgo? ==>
      AlertDateTime(d1).hours <= AlertDateTime(d2).hours
  {
    TruncDivMonotone(d1, d2, MillisPerMinute);
    var m1, m2 := ElapsedMinutes(d1), ElapsedMinutes(d2);
    if m1 >= 60 {
      DivMonotone(m1, m2, 60);
      DivMonotone(m1 / 60, m2 / 60, 24);
    }
  }

  /** The text shown, given the platform's weekday-and-time and full-date renderings. */
  function AlertDateTimeText(diffMillis: int, weekdayAndTime: string, fullDate: string): string {
    match AlertDateTime(diffMillis)
    case JustNow => "Ahora"
    case MinutesAgo(m) => NatToString(m) + "m"
    case HoursAgo(h) => NatToString(h) + "h"
    case WeekdayAndTime => weekdayAndTime
    case FullDate => fullDate
    case DayMonth => fullDate  // cannot occur: the list screen has no day-and-month bucket
  }

  /** Minute and hour labels are a number of at most two digits and a unit letter. */
  lemma AlertDateTimeTextShort(diffMillis: int, weekdayAndTime: string, fullDate: string)
    requires !AlertDateTime(diffMillis).WeekdayAndTime? && !AlertDateTime(diffMillis).FullDate?
    ensures 2 <= |AlertDateTimeText(diffMillis, weekdayAndTime, fullDate)| <= 5
  {
    match AlertDateTime(diffMillis)
    case JustNow =>
    case MinutesAgo(m) => NatToStringLength(m);
    case HoursAgo(h) => NatToStringLength(h);
  }
}
