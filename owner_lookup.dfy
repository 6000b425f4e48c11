/**
 * The chain four view models repeat: look the owner up by the session's user
 * id, then fetch a list by the owner's id, and turn the outcome into the
 * screen's `UIState`. Each copy is proved equal to `ChainState` of `Lookup`.
 */
module OwnerLookup {
  import opened Common
  import opened Domain
  import opened Seqs

  const NoOwnerMessage := "No se encontró el propietario"

  /** `ownerResult.data?.id`: null on an error outcome, on absent data and on an owner without id. */
  function OwnerIdOf(owner: Resource<Owner>): (id: Option<int>)
    ensures id.Some? <==> owner.Success? && owner.data.Some? && owner.data.value.id.Some?
    ensures id.Some? ==> id == owner.data.value.id
  {
    match owner.Data()
    case None => None
    case Some(o) => o.id
  }

  /** The four ways the chain can end. */
  datatype Step<+T> =
    | OwnerFailed(ownerMessage: Option<string>)
    | OwnerMissing
    | FetchFailed(fetchMessage: Option<string>)
    | Fetched(data: Option<T>)

  /**
   * Where the chain ends, given the owner outcome and the fetch, which is
   * asked with the owner's id and the token only when the owner has an id.
   */
  function Lookup<T>(owner: Resource<Owner>, fetch: (int, string) -> Resource<T>, token: string): (step: Step<T>)
    ensures step.OwnerFailed? <==> owner.Error?
    ensures step.OwnerFailed? ==> step.ownerMessage == owner.message
    ensures step.OwnerMissing? <==> owner.Success? && OwnerIdOf(owner).None?
    ensures step.FetchFailed? <==> OwnerIdOf(owner).Some? && fetch(OwnerIdOf(owner).value, token).Error?
    ensures step.FetchFailed? ==> step.fetchMessage == fetch(OwnerIdOf(owner).value, token).message
    ensures step.Fetched? <==> OwnerIdOf(owner).Some? && fetch(OwnerIdOf(owner).value, token).Success?
    ensures step.Fetched? ==> step.data == fetch(OwnerIdOf(owner).value, token).data
  {
    match owner
    case Error(m) => OwnerFailed(m)
    case Success(_) =>
      match OwnerIdOf(owner)
      case None => OwnerMissing
      case Some(id) =>
        match fetch(id, token)
        case Success(d) => Fetched(d)
        case Error(m) => FetchFailed(m)
  }

  /**
   * The state the chain leaves: each failure its message or its default,
   * a success the fetched data passed through `keep`.
   */
  function ChainState<T, U>(step: Step<T>, ownerDefault: string, fetchDefault: string, keep: Option<T> -> Option<U>): (s: UIState<U>)
    ensures !s.isLoading
    ensures s.data.Some? ==> step.Fetched? && s.message == ""
    ensures step.Fetched? ==> s == WithData(keep(step.data))
    ensures step.OwnerMissing? ==> s == WithMessage(NoOwnerMessage)
    ensures step.OwnerFailed? ==> s == WithMessage(MessageOr(step.ownerMessage, ownerDefault))
    ensures step.FetchFailed? ==> s == WithMessage(MessageOr(step.fetchMessage, fetchDefault))
  {
    match step
    case OwnerFailed(m) => WithMessage(MessageOr(m, ownerDefault))
    case OwnerMissing => WithMessage(NoOwnerMessage)
    case FetchFailed(m) => WithMessage(MessageOr(m, fetchDefault))
    case Fetched(d) => WithData(keep(d))
  }

  /**
   * Every chain ends in exactly one of the four outcomes, not loading; with
   * non-empty defaults, the screen is left with neither data nor message
   * only when the fetch succeeded with nothing to keep or a repository sent
   * an empty message.
   */
  lemma ChainEndsOnce<T, U>(owner: Resource<Owner>, fetch: (int, string) -> Resource<T>, token: string,
                             ownerDefault: string, fetchDefault: string, keep: Option<T> -> Option<U>)
    requires ownerDefault != "" && fetchDefault != ""
    ensures var step := Lookup(owner, fetch, token);
      (if step.OwnerFailed? then 1 else 0) + (if step.OwnerMissing? then 1 else 0) +
      (if step.FetchFailed? then 1 else 0) + (if step.Fetched? then 1 else 0) == 1
    ensures var step := Lookup(owner, fetch, token);
      var s := ChainState(step, ownerDefault, fetchDefault, keep);
      !s.isLoading &&
      (s.data.None? && s.message == "" ==>
        (step.Fetched? && keep(step.data).None?) ||
        (step.OwnerFailed? && step.ownerMessage == Some("")) ||
        (step.FetchFailed? && step.fetchMessage == Some("")))
  {
  }

  // ---------------------------------------------------------------------
  // The defaults of the copies

  const OwnerErrorDefault := "Error al obtener propietario"
  const CamerasOwnerErrorDefault := "Error al obtener el propietario"
  const VisitorsErrorDefault := "Error al obtener visitantes"
  const AlertsErrorDefault := "Error al obtener las alertas"
  const DevicesErrorDefault := "Error al obtener los dispositivos"

  // ---------------------------------------------------------------------
  // What the copies keep of a successful fetch

  /** `it.type == "CAMERA"`, case-sensitive. */
  predicate IsCamera(d: Device) {
    d.deviceType == "CAMERA"
  }

  /** `result.data?.filter { it.type == "CAMERA" } ?: emptyList()` */
  function CamerasOf(devices: Option<seq<Device>>): Option<seq<Device>> {
    Some(Filter(devices.GetOr([]), IsCamera))
  }

  /** `result.data ?: emptyList()` */
  function ListOrEmptyData<T>(items: Option<seq<T>>): Option<seq<T>> {
    Some(items.GetOr([]))
  }

  /** What the cameras state keeps: exactly the CAMERA devices, each as often and in the order fetched. */
  lemma CamerasOfKeepsCameras(devices: Option<seq<Device>>)
    ensures CamerasOf(devices).Some?
    ensures devices.None? ==> CamerasOf(devices) == Some([])
    ensures devices.Some? ==>
      (forall d :: d in CamerasOf(devices).value <==> d in devices.value && d.deviceType == "CAMERA") &&
      (forall d: Device :: d.deviceType == "CAMERA" ==> multiset(CamerasOf(devices).value)[d] == multiset(devices.value)[d])
    ensures devices.Some? && (forall i :: 0 <= i < |devices.value| ==> IsCamera(devices.value[i])) ==>
      CamerasOf(devices) == devices
  {
    FilterContents(devices.GetOr([]), IsCamera);
    if devices.Some? && (forall i :: 0 <= i < |devices.value| ==> IsCamera(devices.value[i])) {
      FilterAllPass(devices.value, IsCamera);
    }
  }
}
