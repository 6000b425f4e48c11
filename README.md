# Protectify in Dafny

Protectify is an Android home-security app written in Kotlin with Jetpack
Compose. An owner signs up, creates a profile and a house, and registers
visitors. The owner then watches alerts, notifications and cameras that a
backend reports. This project models the app's deterministic logic and
proves properties of it:

- **Screen rules.** The list filters with their stable sorts, the
  first-match keyword classifiers, the label normalisers and the
  relative-time buckets. Also the form predicates, the phone-input filter,
  the notification badge and the capped visitor strip.
- **View models.** Each one is a Dafny class whose fields are the
  view model's `UIState` records and text fields.

Network answers are parameters of the methods that consume them.
`Resource` is a `Success(data?)` or `Error(message?)` outcome, and
`Call` is a value returned or an exception thrown. The session globals
(`TOKEN`, `USER_ID`, `ROLES`) are the class `Session.Globals`.
Navigation and the local user table are `Session.Host`, a log of the
requests made of them. A method that shows loading and then launches a
coroutine is modelled as two methods:

- the synchronous part, under the source's name;
- the launched block, `Complete…`, which takes the repository answers.

Every launch runs to completion in call order. The view models that write
their state more than once per call (profile, house, visitor photo, sign-up)
keep a ghost log `writes` of every state they show. Their contracts can
therefore state the order of the states.

The "owner, then list by owner id" chain appears in four view models. It is
written once in `OwnerLookup`, as `Lookup` and `ChainState`, and every
copy is proved equal to it.

## Model

| member | source | states |
|---|---|---|
| CamerasListScreen.CameraLeIsTotalPreorder | app/src/main/java/com/example/protectify/presentation/camerasList/CamerasListScreen.kt:739-743 | the comparator (active first, then status, then name) is total and transitive |
| CamerasListScreen.CameraTiedMeansSameKeys | app/src/main/java/com/example/protectify/presentation/camerasList/CamerasListScreen.kt:739-743 | two cameras compare equal exactly when active, status and name all agree |
| CamerasListScreen.FilterCamerasContents | app/src/main/java/com/example/protectify/presentation/camerasList/CamerasListScreen.kt:730-738 | a camera is in the result iff it is in the input and passes the status filter ("TODOS" or the upper-cased status) and the activity filter; the result is a permutation of the matching sublist, no longer than the input |
| CamerasListScreen.FilterCamerasKeepsAll | app/src/main/java/com/example/protectify/presentation/camerasList/CamerasListScreen.kt:731-736 | status "TODOS" with activity "TODOS" or an unrecognised activity filter keeps every camera (same multiset) |
| CamerasListScreen.FilterCamerasOrder | app/src/main/java/com/example/protectify/presentation/camerasList/CamerasListScreen.kt:739-743 | active before inactive, then status non-decreasing (case-sensitive), then name non-decreasing; cameras tied on all three keys keep their input order |
| CamerasListScreen.CameraLocationIsFirstMatch | app/src/main/java/com/example/protectify/presentation/camerasList/CamerasListScreen.kt:746-757 | the location is the label of the first keyword (entrada … exterior) occurring ignoring case, and "Ubicación no especificada" exactly when none occurs |
| CamerasListScreen.DeviceTypeDisplayNameIgnoresCase | app/src/main/java/com/example/protectify/presentation/camerasList/CamerasListScreen.kt:760-768 | the device-type label is the same for the upper- and lower-cased type |
| CamerasListScreen.DeviceTypeFallback | app/src/main/java/com/example/protectify/presentation/camerasList/CamerasListScreen.kt:767 | an unknown type keeps its length, lower-cased with the first character upper-cased; "" stays "" |
| CamerasListScreen.StatusChipRules | app/src/main/java/com/example/protectify/presentation/camerasList/CamerasListScreen.kt:557-564 | inactive shows "Inactiva" whatever the status; active shows a fixed label for ONLINE/OFFLINE/ERROR/MAINTENANCE in any case, otherwise the raw status |
| CamerasListScreen.CamerasListView | app/src/main/java/com/example/protectify/presentation/camerasList/CamerasListScreen.kt:71-98 | loading takes precedence; otherwise the list shown is exactly the filtered and sorted loaded cameras (absent data as []), the empty state appears iff that list is empty, and it says "filters set" iff a filter differs from "TODOS" |
| CamerasListScreen.NoFiltersEmptyOnlyWhenNoCameras | app/src/main/java/com/example/protectify/presentation/camerasList/CamerasListScreen.kt:76-84 | with no filters set, the empty state appears iff there is no camera at all |
| CamerasListScreen.CameraIdRoundTrip | app/src/main/java/com/example/protectify/presentation/camerasList/CamerasListScreen.kt:90-91 | a camera id written with `toString` parses back with `toLong` to the same id |
| AlertListScreen.NewerFirstIsTotalPreorder | app/src/main/java/com/example/protectify/presentation/alertList/AlertListScreen.kt:593 | "newer or equal timestamp first" is total and transitive |
| AlertListScreen.FilterAlertsContents | app/src/main/java/com/example/protectify/presentation/alertList/AlertListScreen.kt:589-593 | an alert is in the result iff it is in the input and matches both filters; the result is a permutation of the matching sublist |
| AlertListScreen.FilterAlertsKeepsAll | app/src/main/java/com/example/protectify/presentation/alertList/AlertListScreen.kt:589-593 | with both filters "TODOS" every alert is kept (same multiset) |
| AlertListScreen.FilterAlertsOrder | app/src/main/java/com/example/protectify/presentation/alertList/AlertListScreen.kt:593 | timestamps never increase along the result, and alerts with equal timestamps keep their input order |
| AlertListScreen.NewerFirstTiedMeansSameTime | app/src/main/java/com/example/protectify/presentation/alertList/AlertListScreen.kt:593 | two alerts tie under the sort iff their timestamps are equal |
| AlertListScreen.BackgroundFollowsIcon | app/src/main/java/com/example/protectify/presentation/alertList/AlertListScreen.kt:599-621 | a non-active status (not PENDING/CONFIRMED in any case) gives the neutral background and a grey icon for every type; the background is tinted iff active and of a known type, with the icon's colour |
| AlertListScreen.TextToneClasses | app/src/main/java/com/example/protectify/presentation/alertList/AlertListScreen.kt:623-628 | the text colour splits statuses into exactly {PENDING, CONFIRMED}, {VIEWED, FALSE_ALARM} and the rest |
| AlertListScreen.AlertTypeFallback | app/src/main/java/com/example/protectify/presentation/alertList/AlertListScreen.kt:637-639 | an unknown type keeps its length, has no `_`, a space exactly where the type had `_` or a space, each word's first character upper-cased and the rest lower-cased, and one word per segment |
| AlertListScreen.AlertTypeDisplayNameIgnoresCase | app/src/main/java/com/example/protectify/presentation/alertList/AlertListScreen.kt:631-640 | the type label depends on the type only up to letter case |
| AlertListScreen.StatusDisplayNameRules | app/src/main/java/com/example/protectify/presentation/alertList/AlertListScreen.kt:643-650 | the status label ignores case; an unknown status keeps its length, lower-cased with the first character upper-cased |
| AlertListScreen.AlertDateTime | app/src/main/java/com/example/protectify/presentation/alertList/AlertListScreen.kt:653-673 | the bucket is the first of: under a minute ("Ahora", future included), 1-59 minutes, 1-23 hours, under 7 days (weekday), else the full date; minutes and hours are truncated like Kotlin's `Long` division |
| AlertListScreen.AlertDateTimeMonotone | app/src/main/java/com/example/protectify/presentation/alertList/AlertListScreen.kt:656-673 | an older alert never lands in a more recent bucket nor shows a smaller count in the same bucket |
| AlertListScreen.AlertDateTimeTextShort | app/src/main/java/com/example/protectify/presentation/alertList/AlertListScreen.kt:661-663 | the "now", minutes and hours labels have 2 to 5 characters |
| Words.ReplaceUnderscores | app/src/main/java/com/example/protectify/presentation/alertList/AlertListScreen.kt:637 | `replace("_", " ")`: same length, each `_` a space, everything else kept |
| Words.TitleWordsIsTitleFrom | app/src/main/java/com/example/protectify/presentation/alertList/AlertListScreen.kt:637-639 | split on spaces, title each piece, join with spaces equals the character-wise reference (upper-case at a word start, lower-case elsewhere) |
| Words.SplitSpacesCount | app/src/main/java/com/example/protectify/presentation/alertList/AlertListScreen.kt:637 | `split(" ")` gives one piece more than there are spaces |
| AlertsSection.AlertsContent | app/src/main/java/com/example/protectify/presentation/home/AlertsSection.kt:194-201 | the empty state iff no alerts; otherwise the first min(n, 5) alerts in input order |
| AlertsSection.CardActionRules | app/src/main/java/com/example/protectify/presentation/home/AlertsSection.kt:328-361 | "Confirmar" iff the status is PENDING in any case with a handler and an id; "Marcar Falsa" likewise for CONFIRMED; an action only for an active status |
| AlertsSection.AlertTime | app/src/main/java/com/example/protectify/presentation/home/AlertsSection.kt:521-531 | "Ahora" under a minute, minutes under an hour, hours 1-23 under 1440 minutes, the day and month after |
| AlertsSection.AlertTimeAgreesWithList | app/src/main/java/com/example/protectify/presentation/home/AlertsSection.kt:524-530 | under a day the card's bucket equals the list's; from a day on the card shows day and month where the list shows a weekday or a full date |
| AlertsSection.AlertTimeTextAgrees | app/src/main/java/com/example/protectify/presentation/home/AlertsSection.kt:526-529 | under a day the card's text equals the list's text |
| NotificationScreen.ScreenView | app/src/main/java/com/example/protectify/presentation/notificationList/NotificationScreen.kt:57-72 | loading first; then absent or empty data gives the empty state; otherwise the non-empty list |
| Keywords.FirstMatch | app/src/main/java/com/example/protectify/presentation/notificationList/NotificationScreen.kt:371-399 | the outcome of the first rule whose keyword occurs ignoring case, or the default when none matches |
| Keywords.MatchesAnyMeans | app/src/main/java/com/example/protectify/presentation/notificationList/NotificationScreen.kt:373-374 | a keyword group matches iff one of its keywords occurs ignoring case |
| Keywords.FirstMatchLabels | app/src/main/java/com/example/protectify/presentation/notificationList/NotificationScreen.kt:371-399 | every outcome is one of the rules' labels or the default |
| Keywords.DefaultIffNoKeyword | app/src/main/java/com/example/protectify/presentation/camerasList/CamerasListScreen.kt:746-757 | for one-keyword rules with labels distinct from the default, the default comes back iff no keyword occurs |
| Keywords.RelabelFirstMatch | app/src/main/java/com/example/protectify/presentation/notificationList/NotificationScreen.kt:371-399 | two cascades over the same keyword groups pick the same branch |
| NotificationScreen.IconAndColourAgree | app/src/main/java/com/example/protectify/presentation/notificationList/NotificationScreen.kt:371-399 | the icon and the colour are both functions of one category chosen by the first matching group |
| NotificationScreen.RulesShareKeywords | app/src/main/java/com/example/protectify/presentation/notificationList/NotificationScreen.kt:372-397 | the icon and colour cascades test the same keywords in the same order |
| NotificationScreen.ColourIdentifiesCategory | app/src/main/java/com/example/protectify/presentation/notificationList/NotificationScreen.kt:386-399 | two titles get the same colour iff they get the same category |
| NotificationScreen.AlertaDeVisitanteIsSecurity | app/src/main/java/com/example/protectify/presentation/notificationList/NotificationScreen.kt:373-376 | "Alerta de Visitante" matches the visitor keywords yet is classified as security |
| NotificationScreen.DayBucket | app/src/main/java/com/example/protectify/presentation/notificationList/NotificationScreen.kt:401-427 | today iff d = 0, yesterday iff d = 1, weekday iff d < 7 otherwise (negative d included), the full date iff d ≥ 7 |
| NotificationScreen.DateTextEndsWithTime | app/src/main/java/com/example/protectify/presentation/notificationList/NotificationScreen.kt:406-421 | every label but the full date ends with the clock time |
| HomeScreen.NotificationBadge | app/src/main/java/com/example/protectify/presentation/home/HomeScreen.kt:136-149 | a badge iff the count is positive; "99+" above 99; the text has 1 to 3 characters |
| HomeScreen.BadgeShowsCount | app/src/main/java/com/example/protectify/presentation/home/HomeScreen.kt:149 | for 1 to 99 the badge text parses back to the count |
| HomeScreen.Greeting | app/src/main/java/com/example/protectify/presentation/home/HomeScreen.kt:104-108 | "Cargando..." while loading, otherwise the first name or "Usuario" followed by a space and the waving hand |
| HomeScreen.GreetingAfterLoading | app/src/main/java/com/example/protectify/presentation/home/HomeScreen.kt:104-108 | once loaded the greeting ends with the space and the waving hand, and is never "Cargando..." |
| HomeScreen.ListOrEmpty | app/src/main/java/com/example/protectify/presentation/home/HomeScreen.kt:174 | absent list data is passed on as the empty list, present data unchanged |
| HomeScreen.AbsentListsShowEmptySections | app/src/main/java/com/example/protectify/presentation/home/HomeScreen.kt:174-192 | absent alert data shows the empty alert state, absent visitor data the strip with only the "add" card |
| VisitorsSection.VisitorStrip | app/src/main/java/com/example/protectify/presentation/home/VisitorsSection.kt:69-160 | loading shows exactly 3 placeholders; otherwise the "add" card first, then the first min(n, 5) visitors in order, then a "+n" card iff n > 5; 1 + min(n, 5) + (1 if n > 5) items |
| VisitorsSection.StripAccountsForEveryone | app/src/main/java/com/example/protectify/presentation/home/VisitorsSection.kt:142-160 | the cards show exactly the first min(n, 5) visitors, cards plus the "+n" count add up to n, and "+n" says at least 1 |
| VisitorsSection.MoreVisitorsLabelRoundTrip | app/src/main/java/com/example/protectify/presentation/home/VisitorsSection.kt:282 | the "+n" label reads back as the number of visitors left off |
| FormVisitor.ContinueEnabledRules | app/src/main/java/com/example/protectify/presentation/addVisitor/FormVisitor.kt:32-53 | Continue is enabled iff not loading and all three fields hold a non-whitespace character; the label is "Procesando..." iff loading |
| RegisterScreen.ErrorLine | app/src/main/java/com/example/protectify/presentation/auth/register/RegisterScreen.kt:336-342 | the error line is drawn iff the message is non-empty, and shows it |
| RegisterScreen.SubmitRules | app/src/main/java/com/example/protectify/presentation/auth/register/RegisterScreen.kt:47-51 | the button is enabled iff not loading and no field is blank; the label is "Registrando..." iff loading |
| LegacyRegisterScreen.PhoneStaysValid | app/src/main/java/com/example/protectify/auth/register/RegisterScreen.kt:53-170 | from a valid value ("" at start), any run of edits leaves at most 9 digits, and the value is the start value or an accepted edit |
| LegacyRegisterScreen.RegisterForm.OnPhoneNumberChange | app/src/main/java/com/example/protectify/auth/register/RegisterScreen.kt:165-170 | an edit of at most 9 digits replaces the phone, any other edit is dropped; the other fields are untouched and the invariant holds |
| LegacyRegisterScreen.RegisterForm.OnFullNameChange | app/src/main/java/com/example/protectify/auth/register/RegisterScreen.kt:119 | the full name takes the edit unchanged; nothing else changes |
| LegacyRegisterScreen.RegisterForm.OnEmailChange | app/src/main/java/com/example/protectify/auth/register/RegisterScreen.kt:218 | the email takes the edit unchanged; nothing else changes |
| LegacyRegisterScreen.RegisterForm.OnPasswordChange | app/src/main/java/com/example/protectify/auth/register/RegisterScreen.kt:265 | the password takes the edit unchanged; nothing else changes |
| CreateHouseViewModel.ContinueRules | app/src/main/java/com/example/protectify/presentation/createHouse/CreateHouseScreen.kt:56-63 | Continue is enabled iff not loading and name and address each hold a non-whitespace character (the description is not needed); it implies the fields are enabled |
| CreateHouseViewModel.CreateHouseScreen.OnContinueClick | app/src/main/java/com/example/protectify/presentation/createHouse/CreateHouseScreen.kt:65-69 | the click raises the flag, runs `createHouse` and lowers it: the flag is down after every click, and the view model's states, final state and navigation requests are exactly those of one `createHouse` on the current fields and session |
| CreateHouseViewModel.CreateHouseScreen.OnNameChange | app/src/main/java/com/example/protectify/presentation/createHouse/CreateHouseScreen.kt:53 | the edit goes straight into the view model's name and nothing else |
| CreateHouseViewModel.CreateHouseScreen.OnAddressChange | app/src/main/java/com/example/protectify/presentation/createHouse/CreateHouseScreen.kt:54 | the edit goes straight into the view model's address and nothing else |
| CreateHouseViewModel.CreateHouseScreen.OnDescriptionChange | app/src/main/java/com/example/protectify/presentation/createHouse/CreateHouseScreen.kt:55 | the edit goes straight into the view model's description and nothing else |
| OwnerLookup.OwnerIdOf | app/src/main/java/com/example/protectify/presentation/home/HomeViewModel.kt:57-60 | `ownerResult.data?.id` is present iff the outcome is a success with an owner that has an id |
| OwnerLookup.Lookup | app/src/main/java/com/example/protectify/presentation/home/HomeViewModel.kt:57-77 | the chain ends in owner failure iff the owner outcome is an error, missing owner iff it succeeds without id, otherwise as the fetch by that id answers |
| OwnerLookup.ChainState | app/src/main/java/com/example/protectify/presentation/home/HomeViewModel.kt:58-77 | each failure shows its message or its default, a missing owner "No se encontró el propietario", a fetch the kept data; never loading |
| OwnerLookup.ChainEndsOnce | app/src/main/java/com/example/protectify/presentation/alertList/AlertListViewModel.kt:30-52 | the chain ends in exactly one of its four outcomes, not loading; neither data nor message only if the data kept is absent or a repository sent "" |
| OwnerLookup.CamerasOfKeepsCameras | app/src/main/java/com/example/protectify/presentation/home/HomeViewModel.kt:138-139 | the cameras kept are exactly the devices of type "CAMERA" (case-sensitive), each as often as fetched; absent data gives [] |
| HomeViewModel.HomeViewModel.GetVisitors | app/src/main/java/com/example/protectify/presentation/home/HomeViewModel.kt:54 | the visitors state becomes loading-only; the other states are kept |
| HomeViewModel.HomeViewModel.CompleteGetVisitors | app/src/main/java/com/example/protectify/presentation/home/HomeViewModel.kt:55-79 | the visitors state is the owner chain with the visitors' defaults; the other states are kept |
| HomeViewModel.HomeViewModel.GetProfile | app/src/main/java/com/example/protectify/presentation/home/HomeViewModel.kt:83 | the profile state becomes loading-only |
| HomeViewModel.HomeViewModel.CompleteGetProfile | app/src/main/java/com/example/protectify/presentation/home/HomeViewModel.kt:84-91 | success stores the data; an error its message or "Error al obtener el perfil" |
| HomeViewModel.HomeViewModel.GetAlerts | app/src/main/java/com/example/protectify/presentation/home/HomeViewModel.kt:95 | the alert state becomes loading-only |
| HomeViewModel.HomeViewModel.CompleteGetAlerts | app/src/main/java/com/example/protectify/presentation/home/HomeViewModel.kt:96-117 | the owner chain with absent alert data stored as [] |
| HomeViewModel.HomeViewModel.GetCameras | app/src/main/java/com/example/protectify/presentation/home/HomeViewModel.kt:129 | the camera state becomes loading-only |
| HomeViewModel.HomeViewModel.CompleteGetCameras | app/src/main/java/com/example/protectify/presentation/home/HomeViewModel.kt:130-151 | the owner chain keeping only the CAMERA devices, with the camera screen's own owner default |
| HomeViewModel.HomeViewModel.LoadNotificationCount | app/src/main/java/com/example/protectify/presentation/home/HomeViewModel.kt:172-177 | the count is the number of notifications fetched, 0 when none came back |
| HomeViewModel.HomeViewModel.SignOut | app/src/main/java/com/example/protectify/presentation/home/HomeViewModel.kt:154-169 | roles emptied first, then the stored user (id, "", token) deleted, then login opened |
| HomeViewModel.HomeViewModel.GoToNotificationListScreen | app/src/main/java/com/example/protectify/presentation/home/HomeViewModel.kt:120-122 | navigates to the notification list |
| HomeViewModel.HomeViewModel.GoToAddVisitorScreen | app/src/main/java/com/example/protectify/presentation/home/HomeViewModel.kt:124-126 | navigates to the add-visitor screen |
| HomeViewModel.BadgeFollowsNotifications | app/src/main/java/com/example/protectify/presentation/home/HomeViewModel.kt:175 | after loading the count, the badge is drawn iff at least one notification came back |
| AlertListViewModel.AlertListViewModel.GoBack | app/src/main/java/com/example/protectify/presentation/alertList/AlertListViewModel.kt:25-27 | pops the back stack |
| AlertListViewModel.AlertListViewModel.GetAlerts | app/src/main/java/com/example/protectify/presentation/alertList/AlertListViewModel.kt:30 | the alert state becomes loading-only |
| AlertListViewModel.AlertListViewModel.CompleteGetAlerts | app/src/main/java/com/example/protectify/presentation/alertList/AlertListViewModel.kt:31-52 | the owner chain with absent alert data stored as [] |
| AlertListViewModel.AlertListViewModel.DeleteAlert | app/src/main/java/com/example/protectify/presentation/alertList/AlertListViewModel.kt:55-67 | on success a loaded list loses exactly the alerts with that id (removed in place from a copy), no list means no change; on failure the fixed message replaces the state |
| Seqs.RemoveIdInPlace | app/src/main/java/com/example/protectify/presentation/alertList/AlertListViewModel.kt:60-61 | `removeIf` on a buffer: its first n cells are the input without the matching elements, in order |
| Seqs.RemoveIdContents | app/src/main/java/com/example/protectify/presentation/alertList/AlertListViewModel.kt:61 | no element with the id is left, every other one is, and the length drops by the number of matches |
| Seqs.RemoveIdIdempotent | app/src/main/java/com/example/protectify/presentation/alertList/AlertListViewModel.kt:60-62 | deleting twice equals deleting once |
| Seqs.RemoveAbsentId | app/src/main/java/com/example/protectify/presentation/alertList/AlertListViewModel.kt:60-62 | deleting an id that is absent changes nothing |
| AlertListViewModel.DeletionRemovesExactly | app/src/main/java/com/example/protectify/presentation/alertList/AlertListViewModel.kt:59-62 | a loaded list loses exactly the alerts with the id, one per match; an absent id changes nothing; deleting again changes nothing |
| NotificationViewModel.LaterFirstIsTotalPreorder | app/src/main/java/com/example/protectify/presentation/notificationList/NotificationViewModel.kt:32 | "later or equal date first" is total and transitive |
| Ordering.SortByPermutes | app/src/main/java/com/example/protectify/presentation/notificationList/NotificationViewModel.kt:32 | the sort is a permutation |
| Ordering.SortBySorted | app/src/main/java/com/example/protectify/presentation/notificationList/NotificationViewModel.kt:32 | under a total preorder the sort's output is sorted |
| Ordering.SortByStable | app/src/main/java/com/example/protectify/presentation/notificationList/NotificationViewModel.kt:32 | elements tied with any key keep their relative order |
| Ordering.RemoveIdKeepsSorted | app/src/main/java/com/example/protectify/presentation/notificationList/NotificationViewModel.kt:48 | removing elements keeps a sorted list sorted |
| NotificationViewModel.NewestFirstOrder | app/src/main/java/com/example/protectify/presentation/notificationList/NotificationViewModel.kt:31-36 | the stored list has non-increasing dates, exactly the fetched notifications, and same-date notifications in fetched order |
| NotificationViewModel.DeletionKeepsNewestFirst | app/src/main/java/com/example/protectify/presentation/notificationList/NotificationViewModel.kt:46-49 | deleting from a newest-first list leaves it newest-first and without the id |
| NotificationViewModel.NotificationViewModel.GoBack | app/src/main/java/com/example/protectify/presentation/notificationList/NotificationViewModel.kt:23-25 | pops the back stack |
| NotificationViewModel.NotificationViewModel.GetNotificationList | app/src/main/java/com/example/protectify/presentation/notificationList/NotificationViewModel.kt:28 | the state becomes loading-only |
| NotificationViewModel.NotificationViewModel.CompleteGetNotificationList | app/src/main/java/com/example/protectify/presentation/notificationList/NotificationViewModel.kt:29-40 | an error gives the fixed message (the repository's is dropped), absent data "No se encontraron notificaciones", otherwise the newest-first list |
| NotificationViewModel.NotificationViewModel.DeleteNotification | app/src/main/java/com/example/protectify/presentation/notificationList/NotificationViewModel.kt:43-54 | on success a loaded list loses the notifications with that id in place, no list means no change; failure gives the fixed message |
| CamerasListViewModel.CamerasListViewModel.GoToBack | app/src/main/java/com/example/protectify/presentation/camerasList/CamerasListViewModel.kt:30-32 | pops the back stack |
| CamerasListViewModel.CamerasListViewModel.GetCameras | app/src/main/java/com/example/protectify/presentation/camerasList/CamerasListViewModel.kt:35 | the camera state becomes loading-only |
| CamerasListViewModel.CamerasListViewModel.CompleteGetCameras | app/src/main/java/com/example/protectify/presentation/camerasList/CamerasListViewModel.kt:36-57 | the owner chain keeping only the CAMERA devices, absent data as [] |
| CamerasListViewModel.CamerasListViewModel.DeleteCamera | app/src/main/java/com/example/protectify/presentation/camerasList/CamerasListViewModel.kt:60-69 | the id deleted is the parse of the text; success is a full refetch, failure its message or "Error al eliminar la cámara"; `state` is a constant never written |
| CamerasListViewModel.ScreenDeletesTheCameraShown | app/src/main/java/com/example/protectify/presentation/camerasList/CamerasListViewModel.kt:62 | the text the screen passes always parses, to the camera's own id |
| Text.LongRoundTrip | app/src/main/java/com/example/protectify/presentation/camerasList/CamerasListViewModel.kt:62 | `toLong(toString(n)) == n` for every `Long` |
| VisitorsListViewModel.VisitorsListViewModel.GetVisitors | app/src/main/java/com/example/protectify/presentation/visitorsList/VisitorsListViewModel.kt:27 | the state becomes loading-only before any lookup |
| VisitorsListViewModel.VisitorsListViewModel.CompleteGetVisitors | app/src/main/java/com/example/protectify/presentation/visitorsList/VisitorsListViewModel.kt:28-52 | the owner chain with the visitors' defaults |
| VisitorsListViewModel.VisitorsListViewModel.GoToAddVisitorScreen | app/src/main/java/com/example/protectify/presentation/visitorsList/VisitorsListViewModel.kt:55-57 | navigates to the add-visitor screen |
| VisitorsListViewModel.VisitorsListViewModel.GoToHome | app/src/main/java/com/example/protectify/presentation/visitorsList/VisitorsListViewModel.kt:59-61 | navigates home |
| VisitorsListViewModel.VisitorsListViewModel.DeleteVisitor | app/src/main/java/com/example/protectify/presentation/visitorsList/VisitorsListViewModel.kt:63-77 | success is a full refetch; a failure keeps the state |
| LoginViewModel.LoginViewModel.SignIn | app/src/main/java/com/example/protectify/presentation/auth/login/LoginViewModel.kt:34 | the state becomes loading-only before the call |
| LoginViewModel.LoginViewModel.CompleteSignIn | app/src/main/java/com/example/protectify/presentation/auth/login/LoginViewModel.kt:35-63 | success sets the token (or "") and id (or 0); a usable session stores the user, clears both fields and opens home, otherwise "Error al iniciar sesión" with the fields kept; an error shows its message as text, "null" when absent |
| LoginViewModel.LoginViewModel.ClearError | app/src/main/java/com/example/protectify/presentation/auth/login/LoginViewModel.kt:66-68 | not loading, no data, no message |
| LoginViewModel.LoginViewModel.SetEmail | app/src/main/java/com/example/protectify/presentation/auth/login/LoginViewModel.kt:70-72 | only the email changes |
| LoginViewModel.LoginViewModel.SetPassword | app/src/main/java/com/example/protectify/presentation/auth/login/LoginViewModel.kt:74-76 | only the password changes |
| LoginViewModel.LoginViewModel.CheckUser | app/src/main/java/com/example/protectify/presentation/auth/login/LoginViewModel.kt:79 | the state becomes loading-only |
| LoginViewModel.LoginViewModel.CompleteCheckUser | app/src/main/java/com/example/protectify/presentation/auth/login/LoginViewModel.kt:80-95 | a stored user is copied into the session, home opens when usable, and the state always ends "Error al recuperar usuario"; no stored user ends idle |
| LoginViewModel.LoginViewModel.GoToSignUpScreen | app/src/main/java/com/example/protectify/presentation/auth/login/LoginViewModel.kt:103-105 | navigates to sign-up |
| LoginViewModel.LoginViewModel.TogglePasswordVisibility | app/src/main/java/com/example/protectify/presentation/auth/login/LoginViewModel.kt:107-109 | the flag flips and nothing else changes, so two toggles restore it |
| RegisterViewModel.RegisterViewModel.GetProfile | app/src/main/java/com/example/protectify/presentation/auth/register/RegisterViewModel.kt:39-50 | the draft has the session's user id, the typed names and phone, birth date "" and no description, photo or address |
| RegisterViewModel.RegisterViewModel.GotoBack | app/src/main/java/com/example/protectify/presentation/auth/register/RegisterViewModel.kt:52-54 | pops the back stack |
| RegisterViewModel.RegisterViewModel.SignInAfterSignUp | app/src/main/java/com/example/protectify/presentation/auth/register/RegisterViewModel.kt:56-74 | a token sets the session's id and token and opens create-profile; a success without token "Error al obtener el token"; a failure its message or "Error al iniciar sesión" |
| RegisterViewModel.RegisterViewModel.SignUp | app/src/main/java/com/example/protectify/presentation/auth/register/RegisterViewModel.kt:76-93 | loading first and roles exactly [ROLE_USER, ROLE_OWNER] before the request with the typed credentials; success stores Unit then signs in with the same credentials, and a token sets the session's token and user id to the response's; a sign-in without token or a failure leaves both unchanged; failure its message or "Error al registrarse", with the session's token and user id kept |
| RegisterViewModel.RegisterViewModel.GoToLoginScreen | app/src/main/java/com/example/protectify/presentation/auth/register/RegisterViewModel.kt:95-97 | navigates to login |
| RegisterViewModel.RegisterViewModel.ClearFields | app/src/main/java/com/example/protectify/presentation/auth/register/RegisterViewModel.kt:103-109 | all five fields become "" and the state is kept |
| CreateProfileViewModel.DateTextAccepted | app/src/main/java/com/example/protectify/presentation/createProfile/CreateProfileViewModel.kt:75-79 | every zero-padded year-month-day text is accepted and has length 10 |
| CreateProfileViewModel.AcceptedIsDateText | app/src/main/java/com/example/protectify/presentation/createProfile/CreateProfileViewModel.kt:75-79 | conversely every accepted text is four digits, "-", two digits, "-", two digits |
| CreateProfileViewModel.MonthAndDayUnchecked | app/src/main/java/com/example/protectify/presentation/createProfile/CreateProfileViewModel.kt:77-78 | "2024-13-45" is accepted; unpadded or padded-out texts are not |
| CreateProfileViewModel.CreateProfileViewModel.CreateProfile | app/src/main/java/com/example/protectify/presentation/createProfile/CreateProfileViewModel.kt:40-73 | blank token, then a bad date, each stop with their message as the state and no loading; otherwise loading, then the register draft (the session's user id and the typed names and phone) with this description, photo and birth date is sent; success stores the data, clears both view models' fields (the sign-up view model's state kept) and opens create-house; failure its message or "Error al crear perfil", fields kept |
| CreateProfileViewModel.CreateProfileViewModel.UploadImage | app/src/main/java/com/example/protectify/presentation/createProfile/CreateProfileViewModel.kt:87 | loading is shown at once |
| CreateProfileViewModel.CreateProfileViewModel.CompleteUploadImage | app/src/main/java/com/example/protectify/presentation/createProfile/CreateProfileViewModel.kt:88-97 | the file is named by the last path segment or "default_image_name"; the URL returned becomes the photo and loading ends; a throw shows "Error uploading image: " and its message |
| ImageUpload.UploadFileName | app/src/main/java/com/example/protectify/presentation/createProfile/CreateProfileViewModel.kt:90 | the last path segment, or "default_image_name" when there is none |
| ImageUpload.UploadErrorMessage | app/src/main/java/com/example/protectify/presentation/createProfile/CreateProfileViewModel.kt:95 | the prefix followed by the exception's message, "null" when absent |
| CreateHouseViewModel.CreateHouseOutcome | app/src/main/java/com/example/protectify/presentation/createHouse/CreateHouseViewModel.kt:40-85 | one message and nothing else iff the token is blank; otherwise loading then one final non-loading state; a request is sent only past the owner lookup and carries the typed fields; home is opened only after a sent request, with no message; without a request the final state has a message |
| CreateHouseViewModel.HouseRequest | app/src/main/java/com/example/protectify/presentation/createHouse/CreateHouseViewModel.kt:63-68 | the request carries the owner id and the current name, address and description |
| CreateHouseViewModel.UnexpectedMessage | app/src/main/java/com/example/protectify/presentation/createHouse/CreateHouseViewModel.kt:82 | "Error inesperado: " followed by the exception's message, "null" when absent |
| CreateHouseViewModel.CreateHouseViewModel.CreateHouse | app/src/main/java/com/example/protectify/presentation/createHouse/CreateHouseViewModel.kt:40-85 | a blank token stops with no loading and no lookup; then loading; an owner without id (an error included) gives its message; the request is sent; success stores the house and opens home, error its message or "Error al crear la casa", a throw from either call "Error inesperado: …"; the fields are kept |
| AddVisitorViewModel.FirstHouseId | app/src/main/java/com/example/protectify/presentation/addVisitor/AddVisitorViewModel.kt:41 | present iff the houses came back, the list is not empty and its first house has an id |
| AddVisitorViewModel.NewVisitor | app/src/main/java/com/example/protectify/presentation/addVisitor/AddVisitorViewModel.kt:43-50 | the visitor carries the house id and the current names and role, with photo "" and no last visit |
| AddVisitorViewModel.OnlyFirstHouseUsed | app/src/main/java/com/example/protectify/presentation/addVisitor/AddVisitorViewModel.kt:41 | a first house without id gives no house id even when later houses have one |
| AddVisitorViewModel.AddVisitorViewModel.OnFirstnameChange | app/src/main/java/com/example/protectify/presentation/addVisitor/AddVisitorViewModel.kt:30 | only the first name changes |
| AddVisitorViewModel.AddVisitorViewModel.OnLastnameChange | app/src/main/java/com/example/protectify/presentation/addVisitor/AddVisitorViewModel.kt:31 | only the last name changes |
| AddVisitorViewModel.AddVisitorViewModel.OnRoleChange | app/src/main/java/com/example/protectify/presentation/addVisitor/AddVisitorViewModel.kt:32 | only the role changes |
| AddVisitorViewModel.AddVisitorViewModel.GetVisitor | app/src/main/java/com/example/protectify/presentation/addVisitor/AddVisitorViewModel.kt:35-57 | the single value handed to the callback is a visitor iff the owner has an id and the first house has one, built from the current fields; otherwise null |
| AddVisitorViewModel.AddVisitorViewModel.ClearFields | app/src/main/java/com/example/protectify/presentation/addVisitor/AddVisitorViewModel.kt:59-63 | all three fields become "" |
| AddVisitorViewModel.AddVisitorViewModel.GoToAddVisitorImageScreen | app/src/main/java/com/example/protectify/presentation/addVisitor/AddVisitorViewModel.kt:65-67 | navigates to the visitor-photo screen |
| AddVisitorViewModel.AddVisitorViewModel.GoToVisitorsList | app/src/main/java/com/example/protectify/presentation/addVisitor/AddVisitorViewModel.kt:69-71 | navigates to the visitor list |
| AddVisitorImageViewModel.AddVisitorImageViewModel.CreateVisitor | app/src/main/java/com/example/protectify/presentation/addVisitorImage/AddVisitorImageViewModel.kt:32-63 | a blank token shows "Un token es requerido" as the state, with no loading; then loading; no visitor gives "No se pudo crear el visitante"; the visitor sent is the built one with only the photo replaced; success stores it, clears the photo and the first step's fields and opens the list; an error its message or "Error al crear visitante", photo kept |
| AddVisitorImageViewModel.AddVisitorImageViewModel.UploadImage | app/src/main/java/com/example/protectify/presentation/addVisitorImage/AddVisitorImageViewModel.kt:66 | loading is shown at once |
| AddVisitorImageViewModel.AddVisitorImageViewModel.CompleteUploadImage | app/src/main/java/com/example/protectify/presentation/addVisitorImage/AddVisitorImageViewModel.kt:67-76 | the URL returned becomes the photo and loading ends; a throw shows the upload error and keeps the photo |
| AddVisitorImageViewModel.AddVisitorImageViewModel.GoToVisitorsListScreen | app/src/main/java/com/example/protectify/presentation/addVisitorImage/AddVisitorImageViewModel.kt:79-81 | navigates to the visitor list |
| AddVisitorImageViewModel.AddVisitorImageViewModel.GoToAddVisitorScreen | app/src/main/java/com/example/protectify/presentation/addVisitorImage/AddVisitorImageViewModel.kt:83-85 | navigates to the add-visitor screen |

## Left out

- Compose rendering is left out: layouts, modifiers, icons, images and image pickers. Colours and icons appear only as tags. The camera icon colours (CamerasListScreen.kt:517-533) are not modelled because they carry no rule beyond the status chip's.
- Repositories, Retrofit services, the Room user table and the Firebase upload are foreign calls. Their answers are method parameters, and the stored user is an effect in `Session.Host`.
- `GlobalVariables.kt` is not part of this model. The initial token, user id and roles are constructor arguments of `Session.Globals`.
- Coroutines are left out. Every launch runs to completion in call order, with no interleaving. `withContext(Dispatchers.Main)` is an ordinary call.
- Navigation is a destination label. Which route string each label maps to is not modelled. Some routes navigated to are not declared in the route table.
- Dates and clocks are left out: "now", the elapsed milliseconds and the day difference are integer parameters. The platform's weekday, clock-time and full-date renderings are opaque strings.
- Text handling covers ASCII only. `uppercase`, `lowercase`, `isBlank` and `isDigit` on other characters are not modelled.
- Strings are sequences of Unicode characters, not UTF-16 units. The greeting's waving hand counts as one character, where Kotlin's `length` counts it as two.
- Logging (`Log.d`, `Log.e`) is left out.
- DTO mappers are left out. The domain records are datatype shapes only, with timestamps as integers.
- The home screen's alert cards reuse the alert list's label and colour functions. The two Kotlin copies (AlertsSection.kt:467-519 and AlertListScreen.kt:599-651) are textually identical, so each is defined once.
- CamerasListViewModel.CamerasListViewModel.DeleteCamera: requires that the id text parses as a `Long`. `toLong` throws an uncaught exception otherwise, and `ScreenDeletesTheCameraShown` shows that the screen's own text always parses.
- AddVisitorViewModel.AddVisitorViewModel.GetVisitor: the callback is modelled as the returned value, handed over once.
- CreateProfileViewModel.CreateProfileViewModel.CreateProfile: requires that it and the sign-up view model share one `Globals`, as they share `GlobalVariables` in the app.
- AddVisitorImageViewModel.AddVisitorImageViewModel.CreateVisitor: requires that both view models share one `Globals`, as they share `GlobalVariables` in the app. The nested launch runs at once.
- CreateHouseViewModel.CreateHouseScreen.OnContinueClick: the launch completes before the flag is lowered here. In the app the flag is lowered before the launched block runs, so the spinner barely shows, and this model does not capture that.
- Exceptions are modelled only where the source catches them (`createHouse`, `uploadImage`). Elsewhere a repository is assumed to answer with a `Resource`.
