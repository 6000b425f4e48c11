/**
 * The rules of the camera list screen (CamerasListScreen.kt): the status and
 * activity filters with the three-key sort, the location guessed from the
 * camera name, the device-type and status-chip labels, and which view the
 * screen shows.
 */
module CamerasListScreen {
  import opened Common
  import opened Text
  import opened Seqs
  import opened Ordering
  import opened Keywords
  import opened Domain

  const AllFilter := "TODOS"

  /** The status filter: "TODOS" or the upper-cased status. */
  predicate StatusMatch(statusFilter: string, d: Device) {
    statusFilter == AllFilter || Upper(d.status) == statusFilter
  }

  /** The activity filter; a value other than the three known ones lets everything through. */
  predicate ActiveMatch(activeFilter: string, d: Device) {
    if activeFilter == AllFilter then true
    else if activeFilter == "ACTIVE" then d.active
    else if activeFilter == "INACTIVE" then !d.active
    else true
  }

  predicate CameraMatches(statusFilter: string, activeFilter: string, d: Device) {
    StatusMatch(statusFilter, d) && ActiveMatch(activeFilter, d)
  }

  /**
   * `compareByDescending { active }.thenBy { status }.thenBy { name }`:
   * `a` may come before `b`. Each key decides when it differs.
   */
  predicate CameraLe(a: Device, b: Device) {
    if a.active != b.active then a.active
    else if a.status != b.status then StrLe(a.status, b.status)
    else StrLe(a.name, b.name)
  }

  /** The camera comparator is a valid Kotlin comparator. */
  lemma CameraLeIsTotalPreorder()
    ensures TotalPreorder(CameraLe)
  {
    forall a: Device, b: Device ensures CameraLe(a, b) || CameraLe(b, a) {
      StrLeTotal(a.status, b.status);
      StrLeTotal(a.name, b.name);
    }
    forall a: Device, b: Device, c: Device | CameraLe(a, b) && CameraLe(b, c)
      ensures CameraLe(a, c)
    {
      if a.active == b.active == c.active {
        if a.status == b.status == c.status {
          StrLeTransitive(a.name, b.name, c.name);
        } else if a.status != b.status && b.status != c.status {
          StrLeTransitive(a.status, b.status, c.status);
          if a.status == c.status {
            StrLeAntisymmetric(a.status, b.status);
          }
        }
      }
    }
  }

  /** Two cameras compare equal exactly when they agree on all three keys. */
  lemma CameraTiedMeansSameKeys(a: Device, b: Device)
    ensures Tied(a, b, CameraLe) <==> a.active == b.active && a.status == b.status && a.name == b.name
  {
    StrLeReflexive(a.name);
    if Tied(a, b, CameraLe) {
      if a.status != b.status {
        StrLeAntisymmetric(a.status, b.status);
      }
      StrLeAntisymmetric(a.name, b.name);
    }
  }

  /** `filterCameras(cameras, statusFilter, activeFilter)` */
  function FilterCameras(cameras: seq<Device>, statusFilter: string, activeFilter: string): seq<Device> {
    SortBy(Filter(cameras, d => CameraMatches(statusFilter, activeFilter, d)), CameraLe)
  }

  /**
   * Every camera shown passes both filters, the result is a permutation of
   * the cameras that pass them, and so it is never longer than the input.
   */
  lemma FilterCamerasContents(cameras: seq<Device>, statusFilter: string, activeFilter: string)
    ensures forall d :: d in FilterCameras(cameras, statusFilter, activeFilter) <==>
      d in cameras && StatusMatch(statusFilter, d) && ActiveMatch(activeFilter, d)
    ensures multiset(FilterCameras(cameras, statusFilter, activeFilter))
         == multiset(Filter(cameras, d => CameraMatches(statusFilter, activeFilter, d)))
    ensures |FilterCameras(cameras, statusFilter, activeFilter)| <= |cameras|
  {
    FilterThenSort(cameras, d => CameraMatches(statusFilter, activeFilter, d), CameraLe);
  }

  /**
   * With the status filter on "TODOS" and the activity filter on "TODOS" or
   * any value it does not recognise, every camera is shown, only reordered.
   */
  lemma FilterCamerasKeepsAll(cameras: seq<Device>, activeFilter: string)
    requires activeFilter != "ACTIVE" && activeFilter != "INACTIVE"
    ensures multiset(FilterCameras(cameras, AllFilter, activeFilter)) == multiset(cameras)
  {
    var p := d => CameraMatches(AllFilter, activeFilter, d);
    FilterAllPass(cameras, p);
    SortByPermutes(cameras, CameraLe);
  }

  /**
   * The order of the result: active cameras before inactive ones, then by
   * raw (case-sensitive) status, then by name; cameras equal on all three
   * keys keep their input order.
   */
  lemma FilterCamerasOrder(cameras: seq<Device>, statusFilter: string, activeFilter: string)
    ensures var r := FilterCameras(cameras, statusFilter, activeFilter);
      forall i, j :: 0 <= i < j < |r| ==>
        (r[i].active || !r[j].active) &&
        (r[i].active == r[j].active ==> StrLe(r[i].status, r[j].status)) &&
        (r[i].active == r[j].active && r[i].status == r[j].status ==> StrLe(r[i].name, r[j].name))
    ensures var kept := Filter(cameras, d => CameraMatches(statusFilter, activeFilter, d));
      forall k :: TiedWith(FilterCameras(cameras, statusFilter, activeFilter), k, CameraLe) == TiedWith(kept, k, CameraLe)
  {
    var kept := Filter(cameras, d => CameraMatches(statusFilter, activeFilter, d));
    CameraLeIsTotalPreorder();
    SortBySorted(kept, CameraLe);
    var r := SortBy(kept, CameraLe);
    forall i, j | 0 <= i < j < |r|
      ensures r[i].active == r[j].active ==> StrLe(r[i].status, r[j].status)
      ensures r[i].active == r[j].active && r[i].status == r[j].status ==> StrLe(r[i].name, r[j].name)
    {
      StrLeReflexive(r[i].status);
    }
    forall k {
      SortByStable(kept, k, CameraLe);
    }
  }

  // ---------------------------------------------------------------------
  // Labels

  /** The location rules of `getCameraLocationFromName`, in the order they are tried. */
  const LocationRules: seq<Rule<string>> := [
    Rule(["entrada"], "Entrada Principal"),
    Rule(["jardin"], "Jardín"),
    Rule(["garage"], "Garaje"),
    Rule(["cocina"], "Cocina"),
    Rule(["sala"], "Sala de Estar"),
    Rule(["dormitorio"], "Dormitorio"),
    Rule(["patio"], "Patio"),
    Rule(["exterior"], "Área Exterior")
  ]

  const UnknownLocation := "Ubicación no especificada"

  /** `getCameraLocationFromName` */
  function CameraLocation(name: string): string {
    FirstMatch(name, LocationRules, UnknownLocation)
  }

  /**
   * The location is the label of the first keyword, in the order entrada,
   * jardin, garage, cocina, sala, dormitorio, patio, exterior, that occurs in
   * the name ignoring case; "Ubicación no especificada" exactly when none does.
   */
  lemma CameraLocationIsFirstMatch(name: string)
    ensures forall i :: FirstMatching(name, LocationRules, i) ==> CameraLocation(name) == LocationRules[i].outcome
    ensures (forall i :: 0 <= i < |LocationRules| ==> !ContainsIgnoreCase(name, LocationRules[i].keywords[0]))
      <==> CameraLocation(name) == UnknownLocation
  {
    DefaultIffNoKeyword(name, LocationRules, UnknownLocation);
  }

  /** `getDeviceTypeDisplayName` */
  function DeviceTypeDisplayName(deviceType: string): string {
    var u := Upper(deviceType);
    if u == "CAMERA" then "Cámara"
    else if u == "SENSOR" then "Sensor"
    else if u == "ALARM" then "Alarma"
    else if u == "DOOR" then "Puerta"
    else if u == "OTHER" then "Otro"
    else TitleWord(deviceType)
  }

  /** The device-type label depends on the type only up to letter case. */
  lemma DeviceTypeDisplayNameIgnoresCase(deviceType: string)
    ensures DeviceTypeDisplayName(Upper(deviceType)) == DeviceTypeDisplayName(deviceType)
    ensures DeviceTypeDisplayName(Lower(deviceType)) == DeviceTypeDisplayName(deviceType)
  {
    UpperIdempotent(deviceType);
    UpperOfLower(deviceType);
    LowerOfUpper(deviceType);
    LowerIdempotent(deviceType);
  }

  /**
   * An unknown type is shown lower-cased with its first letter upper-cased,
   * keeping its length; the empty type stays empty.
   */
  lemma DeviceTypeFallback(deviceType: string)
    requires Upper(deviceType) !in ["CAMERA", "SENSOR", "ALARM", "DOOR", "OTHER"]
    ensures var r := DeviceTypeDisplayName(deviceType);
      |r| == |deviceType| &&
      (|r| > 0 ==> r[0] == UpperChar(LowerChar(deviceType[0]))) &&
      forall i :: 1 <= i < |r| ==> r[i] == LowerChar(deviceType[i])
  {
  }

  /** The status chip's text (`CameraStatusChip`). */
  function StatusChipText(status: string, isActive: bool): string {
    if !isActive then "Inactiva"
    else if Upper(status) == "ONLINE" then "En línea"
    else if Upper(status) == "OFFLINE" then "Desconectada"
    else if Upper(status) == "ERROR" then "Error"
    else if Upper(status) == "MAINTENANCE" then "Mantenimiento"
    else status
  }

  /**
   * An inactive camera shows "Inactiva" whatever its status; an active one
   * shows a fixed label for the four known statuses in any letter case, and
   * its raw status otherwise.
   */
  lemma StatusChipRules(status: string, isActive: bool)
    ensures !isActive ==> StatusChipText(status, isActive) == "Inactiva"
    ensures isActive && Upper(status) in ["ONLINE", "OFFLINE", "ERROR", "MAINTENANCE"] ==>
      StatusChipText(status, isActive) == StatusChipText(Upper(status), isActive) &&
      StatusChipText(status, isActive) in ["En línea", "Desconectada", "Error", "Mantenimiento"]
    ensures isActive && Upper(status) !in ["ONLINE", "OFFLINE", "ERROR", "MAINTENANCE"] ==>
      StatusChipText(status, isActive) == status
  {
    UpperIdempotent(status);
  }

  // ---------------------------------------------------------------------
  // The list area

  datatype CamerasView = LoadingView | EmptyView(hasFilters: bool) | ListView(cameras: seq<Device>)

  /** `hasFilters`: some filter is set to something other than "TODOS". */
  predicate HasFilters(statusFilter: string, activeFilter: string) {
    statusFilter != AllFilter || activeFilter != AllFilter
  }

  /** What the list area shows for a camera state and the two filters. */
  function CamerasListView(state: UIState<seq<Device>>, statusFilter: string, activeFilter: string): (v: CamerasView)
    ensures state.isLoading <==> v.LoadingView?
    ensures v.EmptyView? ==> (v.hasFilters <==> statusFilter != AllFilter || activeFilter != AllFilter)
    ensures !state.isLoading ==>
      (v.EmptyView? <==> FilterCameras(state.data.GetOr([]), statusFilter, activeFilter) == [])
    ensures v.ListView? ==> v.cameras == FilterCameras(state.data.GetOr([]), statusFilter, activeFilter)
  {
    if state.isLoading then LoadingView
    else
      var shown := FilterCameras(state.data.GetOr([]), statusFilter, activeFilter);
      if shown == [] then EmptyView(HasFilters(statusFilter, activeFilter)) else ListView(shown)
  }

  /** With both filters on "TODOS", the list is empty only when there are no cameras at all. */
  lemma NoFiltersEmptyOnlyWhenNoCameras(state: UIState<seq<Device>>)
    requires !state.isLoading
    ensures CamerasListView(state, AllFilter, AllFilter).EmptyView? <==> state.data.GetOr([]) == []
  {
    var cams := state.data.GetOr([]);
    FilterCamerasKeepsAll(cams, AllFilter);
  }

  /**
   * The delete button passes `camera.id` through `toString()`, and the view
   * model reads it back with `toLong()`: the id that reaches the repository
   * is the camera's own.
   */
  lemma CameraIdRoundTrip(d: Device)
    requires d.id.Some? && InLongRange(d.id.value)
    ensures ParseLong(LongToString(d.id.value)) == d.id
  {
    LongRoundTrip(d.id.value);
  }
}
