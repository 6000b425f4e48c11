/**
 * The second step of adding a visitor (AddVisitorImageViewModel.kt): the
 * photo, and `createVisitor`, which completes the first step's visitor with
 * the photo and sends it. Every write of the state is also appended to the
 * ghost log `writes`.
 */
module AddVisitorImageViewModel {
  import opened Common
  import opened Text
  import opened Domain
  import opened Session
  import opened OwnerLookup
  import opened ImageUpload
  import AddVisitorViewModel

  const TokenRequiredMessage := "Un token es requerido"
  const NoVisitorMessage := "No se pudo crear el visitante"
  const CreateErrorDefault := "Error al crear visitante"

  class AddVisitorImageViewModel {
    var photoUrl: string
    var state: UIState<Visitor>
    ghost var writes: seq<UIState<Visitor>>
    const addVisitor: AddVisitorViewModel.AddVisitorViewModel
    const globals: Globals
    const host: Host

    constructor(addVisitor: AddVisitorViewModel.AddVisitorViewModel, globals: Globals, host: Host)
      requires addVisitor.globals == globals
      ensures photoUrl == "" && state == Idle() && writes == []
      ensures this.addVisitor == addVisitor && this.globals == globals && this.host == host
    {
      photoUrl, state := "", Idle();
      writes := [];
      this.addVisitor, this.globals, this.host := addVisitor, globals, host;
    }

    method SetState(s: UIState<Visitor>)
      modifies this
      ensures state == s && writes == old(writes) + [s] && photoUrl == old(photoUrl)
    {
      state := s;
      writes := writes + [s];
    }

    /**
     * `createVisitor`. A blank token stops before loading. Otherwise loading
     * is shown and the first step builds the visitor; with none, its message
     * is shown. The visitor sent is the built one with the current photo.
     * Success stores it, clears the photo and the first step's fields, and
     * opens the visitor list; an error shows its message (or the default)
     * and keeps the photo. `sent` is the visitor sent, if any.
     */
    method CreateVisitor(ownerOf: (int, string) -> Resource<Owner>,
                         housesOf: (int, string) -> Resource<seq<House>>,
                         createOf: (CreateVisitor, string) -> Resource<Visitor>)
      returns (sent: Option<CreateVisitor>)
      requires addVisitor.globals == globals
      modifies this, addVisitor, host
      ensures IsBlank(old(globals.token)) ==>
        sent.None? && writes == old(writes) + [WithMessage(TokenRequiredMessage)] &&
        state == WithMessage(TokenRequiredMessage) &&
        photoUrl == old(photoUrl) && unchanged(addVisitor) && host.effects == old(host.effects)
      ensures !IsBlank(old(globals.token)) ==>
        var ownerId := OwnerIdOf(ownerOf(old(globals.userId), old(globals.token)));
        var built := if ownerId.None? then None
          else match AddVisitorViewModel.FirstHouseId(housesOf(ownerId.value, old(globals.token)))
            case None => None
            case Some(houseId) =>
              Some(AddVisitorViewModel.NewVisitor(houseId, old(addVisitor.firstname), old(addVisitor.lastname), old(addVisitor.role)));
        |writes| == |old(writes)| + 2 && writes[|old(writes)|] == Loading() && writes[|writes| - 1] == state &&
        if built.None? then
          sent.None? && state == WithMessage(NoVisitorMessage) &&
          photoUrl == old(photoUrl) && unchanged(addVisitor) && host.effects == old(host.effects)
        else
          sent == Some(built.value.(photo := old(photoUrl))) &&
          var result := createOf(sent.value, old(globals.token));
          if result.Success? then
            state == WithData(result.data) && photoUrl == "" &&
            addVisitor.firstname == "" && addVisitor.lastname == "" && addVisitor.role == "" &&
            host.effects == old(host.effects) + [NavigateTo(VisitorsListRoute)]
          else
            state == WithMessage(MessageOr(result.message, CreateErrorDefault)) &&
            photoUrl == old(photoUrl) && unchanged(addVisitor) && host.effects == old(host.effects)
    {
      var token := globals.token;
      if IsBlank(token) {
        SetState(WithMessage(TokenRequiredMessage));
        return None;
      }
      SetState(Loading());
      var visitor := addVisitor.GetVisitor(ownerOf, housesOf);
      if visitor.None? {
        SetState(WithMessage(NoVisitorMessage));
        return None;
      }
      var withPhoto := visitor.value.(photo := photoUrl);
      sent := Some(withPhoto);
      var result := createOf(withPhoto, token);
      if result.Success? {
        SetState(WithData(result.data));
        photoUrl := "";
        addVisitor.ClearFields();
        GoToVisitorsListScreen();
      } else {
        SetState(WithMessage(MessageOr(result.message, CreateErrorDefault)));
      }
    }

    /** `uploadImage`, up to the launch: loading is shown at once. */
    method UploadImage()
      modifies this
      ensures writes == old(writes) + [Loading()] && state == Loading() && photoUrl == old(photoUrl)
    {
      SetState(Loading());
    }

    /**
     * The launched block of `uploadImage`: the returned URL becomes the
     * photo and loading ends; a throw shows its message and keeps the photo.
     */
    method CompleteUploadImage(lastPathSegment: Option<string>, uploadOf: string -> Call<string>)
      returns (filename: string)
      modifies this
      ensures filename == UploadFileName(lastPathSegment)
      ensures match uploadOf(filename)
        case Returned(url) => photoUrl == url && state == Idle() && writes == old(writes) + [Idle()]
        case Threw(m) =>
          photoUrl == old(photoUrl) && state == WithMessage(UploadErrorMessage(m)) && writes == old(writes) + [state]
    {
      filename := UploadFileName(lastPathSegment);
      match uploadOf(filename) {
        case Returned(url) =>
          photoUrl := url;
          SetState(Idle());
        case Threw(m) =>
          SetState(WithMessage(UploadErrorMessage(m)));
      }
    }

    method GoToVisitorsListScreen()
      modifies host
      ensures host.effects == old(host.effects) + [NavigateTo(VisitorsListRoute)]
    {
      host.Navigate(VisitorsListRoute);
    }

    method GoToAddVisitorScreen()
      modifies host
      ensures host.effects == old(host.effects) + [NavigateTo(AddVisitorRoute)]
    {
      host.Navigate(AddVisitorRoute);
    }
  }
}
