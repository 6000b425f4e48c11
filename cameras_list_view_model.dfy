/**
 * The camera list's view model (CamerasListViewModel.kt): the owner chain
 * that loads the CAMERA devices, and a deletion by the id the screen hands
 * over as text, which reloads the list on success.
 */
module CamerasListViewModel {
  import opened Common
  import opened Text
  import opened Domain
  import opened Session
  import opened OwnerLookup
  import CamerasListScreen

  const DeleteErrorDefault := "Error al eliminar la cámara"

  class CamerasListViewModel {
    /** `_state` is declared but never assigned after construction. */
    const state: UIState<seq<Visitor>>
    var cameraState: UIState<seq<Device>>
    const globals: Globals
    const host: Host

    constructor(globals: Globals, host: Host)
      ensures state == Idle() && cameraState == Idle()
      ensures this.globals == globals && this.host == host
    {
      state := Idle();
      cameraState := Idle();
      this.globals, this.host := globals, host;
    }

    method GoToBack()
      modifies host
      ensures host.effects == old(host.effects) + [PopBack]
    {
      host.PopBackStack();
    }

    /** `getCameras`, up to the launch. */
    method GetCameras()
      modifies this
      ensures cameraState == Loading()
    {
      cameraState := Loading();
    }

    /** The launched block of `getCameras`: only the CAMERA devices are kept. */
    method CompleteGetCameras(ownerOf: (int, string) -> Resource<Owner>, devicesOf: (int, string) -> Resource<seq<Device>>)
      modifies this
      ensures cameraState == ChainState(Lookup(ownerOf(globals.userId, globals.token), devicesOf, globals.token),
                                        CamerasOwnerErrorDefault, DevicesErrorDefault, CamerasOf)
    {
      var ownerResult := ownerOf(globals.userId, globals.token);
      match ownerResult {
        case Success(_) =>
          var ownerId := OwnerIdOf(ownerResult);
          if ownerId.Some? {
            var result := devicesOf(ownerId.value, globals.token);
            if result.Success? {
              var cameras := Seqs.Filter(result.data.GetOr([]), IsCamera);
              cameraState := WithData(Some(cameras));
            } else if result.Error? {
              cameraState := WithMessage(MessageOr(result.message, DevicesErrorDefault));
            }
          } else {
            cameraState := WithMessage(NoOwnerMessage);
          }
        case Error(message) =>
          cameraState := WithMessage(MessageOr(message, CamerasOwnerErrorDefault));
      }
    }

    /**
     * `deleteCamera`: the id text is parsed with `toLong` (which throws on
     * anything but a `Long`, so callers pass a number's own text) and the
     * parsed id is the one deleted; success reloads the whole list, failure
     * leaves its message or the default.
     */
    method DeleteCamera(deviceId: string, deleteOf: (int, string) -> Resource<()>,
                        ownerOf: (int, string) -> Resource<Owner>, devicesOf: (int, string) -> Resource<seq<Device>>)
      returns (deletedId: int)
      requires ParseLong(deviceId).Some?
      modifies this
      ensures Some(deletedId) == ParseLong(deviceId)
      ensures var result := deleteOf(deletedId, globals.token);
        cameraState == (if result.Success?
                        then ChainState(Lookup(ownerOf(globals.userId, globals.token), devicesOf, globals.token),
                                        CamerasOwnerErrorDefault, DevicesErrorDefault, CamerasOf)
                        else WithMessage(MessageOr(result.message, DeleteErrorDefault)))
    {
      deletedId := ParseLong(deviceId).value;
      var result := deleteOf(deletedId, globals.token);
      if result.Success? {
        GetCameras();
        CompleteGetCameras(ownerOf, devicesOf);
      } else if result.Error? {
        cameraState := WithMessage(MessageOr(result.message, DeleteErrorDefault));
      }
    }
  }

  /**
   * The screen passes `camera.id.toString()`: that text always parses, and
   * the id deleted is the camera's own.
   */
  lemma ScreenDeletesTheCameraShown(camera: Device)
    requires camera.id.Some? && InLongRange(camera.id.value)
    ensures ParseLong(LongToString(camera.id.value)) == camera.id
  {
    CamerasListScreen.CameraIdRoundTrip(camera);
  }
}
