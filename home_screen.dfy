/**
 * The rules of the home screen (HomeScreen.kt): the notification badge, the
 * greeting, and the lists handed to the three sections.
 */
module HomeScreen {
  import opened Common
  import opened Text
  import opened Domain
  import opened AlertsSection
  import opened VisitorsSection

  /** The badge over the bell: absent, or the text drawn in it. */
  function NotificationBadge(count: int): (badge: Option<string>)
    ensures badge.Some? <==> count > 0
    ensures badge.Some? ==> 1 <= |badge.value| <= 3
    ensures count > 99 ==> badge == Some("99+")
  {
    if count <= 0 then None
    else if count > 99 then Some("99+")
    else
      NatToStringLength(count);
      Some(NatToString(count))
  }

  /** Up to 99 the badge reads back as the count itself; above, it is capped. */
  lemma BadgeShowsCount(count: int)
    requires 0 < count <= 99
    ensures ParseLong(NotificationBadge(count).value) == Some(count)
  {
    LongRoundTrip(count);
  }

  /**
   * The waving hand is one character here; a Kotlin `String` holds it as two
   * UTF-16 units, so lengths below count it once where Kotlin counts it twice.
   */
  const WavingHand := "\U{1F44B}"

  /** The greeting over the profile picture. */
  function Greeting(profileState: UIState<Profile>): (text: string)
    ensures profileState.isLoading ==> text == "Cargando..."
    ensures !profileState.isLoading && profileState.data.Some? ==>
      text == profileState.data.value.firstName + " " + WavingHand
    ensures !profileState.isLoading && profileState.data.None? ==> text == "Usuario " + WavingHand
  {
    if profileState.isLoading then "Cargando..."
    else (if profileState.data.Some? then profileState.data.value.firstName else "Usuario") + " " + WavingHand
  }

  /** Once loaded, the greeting always ends with the waving hand and never reads "Cargando...". */
  lemma GreetingAfterLoading(profileState: UIState<Profile>)
    requires !profileState.isLoading
    ensures var text := Greeting(profileState);
      |text| >= 2 && text[|text| - 2..] == " " + WavingHand && text != "Cargando..."
  {
    var name := if profileState.data.Some? then profileState.data.value.firstName else "Usuario";
    var text := name + " " + WavingHand;
    assert text[|text| - 2..] == " " + WavingHand;
    assert text[|text| - 1] != "Cargando..."[|"Cargando..."| - 1];
  }

  /** `state.data ?: emptyList()` */
  function ListOrEmpty<T>(state: UIState<seq<T>>): (items: seq<T>)
    ensures state.data.None? ==> items == []
    ensures state.data.Some? ==> items == state.data.value
  {
    state.data.GetOr([])
  }

  /**
   * Absent data shows the sections' empty contents: no alert cards and,
   * once loaded, a strip holding only the "add" card.
   */
  lemma AbsentListsShowEmptySections(alertsState: UIState<seq<Alert>>, visitorsState: UIState<seq<Visitor>>)
    requires alertsState.data.None? && visitorsState.data.None? && !visitorsState.isLoading
    ensures AlertsContent(ListOrEmpty(alertsState)) == EmptyAlerts
    ensures VisitorStrip(ListOrEmpty(visitorsState), visitorsState.isLoading) == [AddCard]
  {
  }
}
