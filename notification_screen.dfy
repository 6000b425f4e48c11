/**
 * The rules of the notification screen (NotificationScreen.kt): which view
 * is shown, the icon and colour picked from keywords in the title, the
 * delete button, and the day buckets of the date label.
 */
module NotificationScreen {
  import opened Common
  import opened Text
  import opened Keywords
  import opened Domain

  datatype NotificationsView = LoadingList | EmptyList | NotificationsList(items: seq<Notification>)

  /** Loading first, then null or empty data, then the list. */
  function ScreenView(state: UIState<seq<Notification>>): (v: NotificationsView)
    ensures v.LoadingList? <==> state.isLoading
    ensures v.EmptyList? <==> !state.isLoading && (state.data.None? || state.data.value == [])
    ensures v.NotificationsList? ==> state.data == Some(v.items) && v.items != []
  {
    if state.isLoading then LoadingList
    else if state.data.None? || state.data.value == [] then EmptyList
    else NotificationsList(state.data.value)
  }

  /** The delete button is drawn only for a notification that has an id. */
  predicate DeleteButtonShown(n: Notification) {
    n.id.Some?
  }

  // ---------------------------------------------------------------------
  // Keyword classification of the title

  /** The kinds of notification the two cascades tell apart. */
  datatype Category = Security | VisitorArrival | CameraEvent | HouseEvent | SystemEvent | General

  datatype NotificationIcon = PersonIcon | AccountCircleIcon | HomeIcon | SettingsIcon | NotificationsIcon

  datatype NotificationColour = Red | Peach | Blue | Green | Gray | White

  /** The keyword groups both cascades try, in order, and the kind each stands for. */
  const CategoryRules: seq<Rule<Category>> := [
    Rule(["Seguridad", "Alerta"], Security),
    Rule(["Visitante", "Persona"], VisitorArrival),
    Rule(["Cámara", "Camera"], CameraEvent),
    Rule(["Casa", "Home"], HouseEvent),
    Rule(["Sistema"], SystemEvent)
  ]

  function Classify(title: string): Category {
    FirstMatch(title, CategoryRules, General)
  }

  /** The cascade of `getNotificationIcon`, as written. */
  const IconRules: seq<Rule<NotificationIcon>> := [
    Rule(["Seguridad", "Alerta"], PersonIcon),
    Rule(["Visitante", "Persona"], PersonIcon),
    Rule(["Cámara", "Camera"], AccountCircleIcon),
    Rule(["Casa", "Home"], HomeIcon),
    Rule(["Sistema"], SettingsIcon)
  ]

  /** `getNotificationIcon` */
  function IconFor(title: string): NotificationIcon {
    FirstMatch(title, IconRules, NotificationsIcon)
  }

  /** The cascade of `getNotificationColor`, as written. */
  const ColourRules: seq<Rule<NotificationColour>> := [
    Rule(["Seguridad", "Alerta"], Red),
    Rule(["Visitante", "Persona"], Peach),
    Rule(["Cámara", "Camera"], Blue),
    Rule(["Casa", "Home"], Green),
    Rule(["Sistema"], Gray)
  ]

  /** `getNotificationColor` */
  function ColourFor(title: string): NotificationColour {
    FirstMatch(title, ColourRules, White)
  }

  function IconOf(c: Category): NotificationIcon {
    match c
    case Security => PersonIcon
    case VisitorArrival => PersonIcon
    case CameraEvent => AccountCircleIcon
    case HouseEvent => HomeIcon
    case SystemEvent => SettingsIcon
    case General => NotificationsIcon
  }

  function ColourOf(c: Category): NotificationColour {
    match c
    case Security => Red
    case VisitorArrival => Peach
    case CameraEvent => Blue
    case HouseEvent => Green
    case SystemEvent => Gray
    case General => White
  }

  /**
   * The icon and the colour cascades test the same keywords in the same
   * order, so both follow the one category of the title.
   */
  lemma IconAndColourAgree(title: string)
    ensures IconFor(title) == IconOf(Classify(title))
    ensures ColourFor(title) == ColourOf(Classify(title))
  {
    RulesShareKeywords();
    SameKeywordsAgree(title, CategoryRules, General, IconOf, IconRules, NotificationsIcon);
    SameKeywordsAgree(title, CategoryRules, General, ColourOf, ColourRules, White);
  }

  /** Both cascades are the category rules with their outcomes renamed. */
  lemma RulesShareKeywords()
    ensures IconRules == Relabel(CategoryRules, IconOf)
    ensures ColourRules == Relabel(CategoryRules, ColourOf)
  {
    var r, i, c := CategoryRules, Relabel(CategoryRules, IconOf), Relabel(CategoryRules, ColourOf);
    assert forall k :: 0 <= k < 5 ==> i[k] == IconRules[k] && c[k] == ColourRules[k];
  }

  /** The colour tells the category apart; the icon cannot separate security from visitors. */
  lemma ColourIdentifiesCategory(t1: string, t2: string)
    ensures ColourFor(t1) == ColourFor(t2) <==> Classify(t1) == Classify(t2)
  {
    IconAndColourAgree(t1);
    IconAndColourAgree(t2);
    ColourOfInjective(Classify(t1), Classify(t2));
  }

  /** No two categories share a colour. */
  lemma ColourOfInjective(a: Category, b: Category)
    ensures ColourOf(a) == ColourOf(b) ==> a == b
  {
  }

  /**
   * The earliest group wins: "Alerta de Visitante" names a visitor, yet is
   * shown as a security notification because "Alerta" is tried first.
   */
  lemma AlertaDeVisitanteIsSecurity()
    ensures MatchesAny("Alerta de Visitante", CategoryRules[1].keywords)
    ensures Classify("Alerta de Visitante") == Security
  {
    var title := "Alerta de Visitante";
    assert OccursAt(Lower(title), Lower("Alerta"), 0);
    assert OccursAt(Lower(title), Lower("Visitante"), 10);
    assert FirstMatching(title, CategoryRules, 0);
  }

  // ---------------------------------------------------------------------
  // Date label

  datatype DayLabel = Today | Yesterday | ThisWeek | Older

  /**
   * `formatNotificationDate` for the number of calendar days from the date
   * to today; a date in the future (negative difference) falls in the
   * weekday bucket.
   */
  function DayBucket(daysDiff: int): (b: DayLabel)
    ensures b == Today <==> daysDiff == 0
    ensures b == Yesterday <==> daysDiff == 1
    ensures b == ThisWeek <==> daysDiff < 7 && daysDiff != 0 && daysDiff != 1
    ensures b == Older <==> daysDiff >= 7
  {
    if daysDiff == 0 then Today
    else if daysDiff == 1 then Yesterday
    else if daysDiff < 7 then ThisWeek
    else Older
  }

  /** The label, given the platform's renderings of the clock time, the weekday and the full date. */
  function NotificationDateText(daysDiff: int, time: string, weekday: string, fullDate: string): string {
    match DayBucket(daysDiff)
    case Today => "Hoy a las " + time
    case Yesterday => "Ayer a las " + time
    case ThisWeek => CapitalizeFirst(weekday) + " a las " + time
    case Older => fullDate
  }

  /** Every bucket but the oldest ends with the clock time. */
  lemma DateTextEndsWithTime(daysDiff: int, time: string, weekday: string, fullDate: string)
    requires daysDiff < 7
    ensures var s := NotificationDateText(daysDiff, time, weekday, fullDate);
      |s| >= |time| && s[|s| - |time|..] == time
  {
  }
}
