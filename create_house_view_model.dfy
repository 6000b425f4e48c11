/**
 * House creation: the view model (CreateHouseViewModel.kt), whose guard chain
 * looks the owner up and sends the house typed in, and the rules of its
 * screen (CreateHouseScreen.kt): when Continue is enabled and how its click
 * handler toggles the screen's own loading flag. Every write of the view
 * model's state is also appended to the ghost log `writes`.
 */
module CreateHouseViewModel {
  import opened Common
  import opened Text
  import opened Domain
  import opened Session
  import opened OwnerLookup

  const TokenRequiredMessage := "Token requerido para crear la casa"
  const OwnerInfoMissingMessage := "No se pudo obtener la información del propietario"
  const CreateErrorDefault := "Error al crear la casa"
  const UnexpectedPrefix := "Error inesperado: "

  /** The request built from the owner id and the three fields; the description is always sent. */
  function HouseRequest(ownerId: int, name: string, address: string, description: string): (request: CreateHouse)
    ensures request.ownerId == ownerId && request.name == name && request.address == address
    ensures request.description == Some(description)
  {
    CreateHouse(ownerId, address, name, Some(description))
  }

  /** The message shown for an exception thrown by either repository call. */
  function UnexpectedMessage(m: Option<string>): (message: string)
    ensures |message| >= |UnexpectedPrefix| && message[..|UnexpectedPrefix|] == UnexpectedPrefix
    ensures m.Some? ==> message[|UnexpectedPrefix|..] == m.value
    ensures m.None? ==> message[|UnexpectedPrefix|..] == "null"
  {
    UnexpectedPrefix + NullableToString(m)
  }

  /**
   * What one `createHouse` call does: the states it shows in order, the
   * request it sends, if any, and the navigation requests it makes.
   */
  datatype HouseOutcome = HouseOutcome(states: seq<UIState<House>>, submitted: Option<CreateHouse>, effects: seq<Effect>)

  /**
   * The outcome of `createHouse` for the session's token and user id, the
   * three fields and the two repository answers. A blank token shows one
   * message and nothing else; otherwise loading comes first and one final,
   * non-loading state follows. Only a request that was sent can lead home,
   * and the request always carries the fields as typed.
   */
  function CreateHouseOutcome(token: string, userId: int, name: string, address: string, description: string,
                              ownerOf: (int, string) -> Call<Resource<Owner>>,
                              createOf: (CreateHouse, string) -> Call<Resource<House>>): (o: HouseOutcome)
    ensures 1 <= |o.states| <= 2 && !o.states[|o.states| - 1].isLoading
    ensures IsBlank(token) <==> |o.states| == 1
    ensures |o.states| == 2 ==> o.states[0] == Loading()
    ensures IsBlank(token) ==> o.submitted.None? && o.effects == []
    ensures o.submitted.Some? ==>
      o.submitted.value.name == name && o.submitted.value.address == address &&
      o.submitted.value.description == Some(description)
    ensures o.effects == [] || (o.effects == [NavigateTo(HomeRoute)] && o.submitted.Some? &&
                                o.states[|o.states| - 1].message == "")
    ensures o.submitted.None? ==> o.effects == [] && o.states[|o.states| - 1].message != ""
  {
    if IsBlank(token) then HouseOutcome([WithMessage(TokenRequiredMessage)], None, [])
    else
      match ownerOf(userId, token)
      case Threw(m) => HouseOutcome([Loading(), WithMessage(UnexpectedMessage(m))], None, [])
      case Returned(owner) =>
        if OwnerIdOf(owner).None? then HouseOutcome([Loading(), WithMessage(OwnerInfoMissingMessage)], None, [])
        else
          var request := HouseRequest(OwnerIdOf(owner).value, name, address, description);
          match createOf(request, token)
          case Threw(m) => HouseOutcome([Loading(), WithMessage(UnexpectedMessage(m))], Some(request), [])
          case Returned(result) =>
            if result.Success? then HouseOutcome([Loading(), WithData(result.data)], Some(request), [NavigateTo(HomeRoute)])
            else HouseOutcome([Loading(), WithMessage(MessageOr(result.message, CreateErrorDefault))], Some(request), [])
  }

  class CreateHouseViewModel {
    var name: string
    var address: string
    var description: string
    var state: UIState<House>
    ghost var writes: seq<UIState<House>>
    const globals: Globals
    const host: Host

    constructor(globals: Globals, host: Host)
      ensures name == "" && address == "" && description == "" && state == Idle() && writes == []
      ensures this.globals == globals && this.host == host
    {
      name, address, description, state := "", "", "", Idle();
      writes := [];
      this.globals, this.host := globals, host;
    }

    method SetState(s: UIState<House>)
      modifies this
      ensures state == s && writes == old(writes) + [s]
      ensures name == old(name) && address == old(address) && description == old(description)
    {
      state := s;
      writes := writes + [s];
    }

    /**
     * `createHouse`. A blank token stops before loading and before any
     * lookup. Otherwise loading is shown, then the owner is looked up: no
     * owner id (an error result included) stops with its message; with one,
     * the house is sent. Success stores the house and opens the home screen;
     * an error shows its message or the default; an exception from either
     * call shows "Error inesperado: " and its message. `submitted` is the
     * request sent, if any. The fields are never cleared.
     */
    method CreateHouse(ownerOf: (int, string) -> Call<Resource<Owner>>,
                       createOf: (CreateHouse, string) -> Call<Resource<House>>)
      returns (submitted: Option<CreateHouse>)
      modifies this, host
      ensures name == old(name) && address == old(address) && description == old(description)
      ensures IsBlank(old(globals.token)) ==>
        submitted.None? && writes == old(writes) + [WithMessage(TokenRequiredMessage)] &&
        host.effects == old(host.effects)
      ensures !IsBlank(old(globals.token)) ==>
        |writes| == |old(writes)| + 2 && writes[|old(writes)|] == Loading() && writes[|writes| - 1] == state &&
        match ownerOf(old(globals.userId), old(globals.token))
        case Threw(m) =>
          submitted.None? && state == WithMessage(UnexpectedMessage(m)) && host.effects == old(host.effects)
        case Returned(owner) =>
          if OwnerIdOf(owner).None? then
            submitted.None? && state == WithMessage(OwnerInfoMissingMessage) && host.effects == old(host.effects)
          else
            submitted == Some(HouseRequest(OwnerIdOf(owner).value, old(name), old(address), old(description))) &&
            match createOf(submitted.value, old(globals.token))
            case Threw(m) => state == WithMessage(UnexpectedMessage(m)) && host.effects == old(host.effects)
            case Returned(result) =>
              if result.Success? then
                state == WithData(result.data) && host.effects == old(host.effects) + [NavigateTo(HomeRoute)]
              else
                state == WithMessage(MessageOr(result.message, CreateErrorDefault)) && host.effects == old(host.effects)
      ensures var o := CreateHouseOutcome(old(globals.token), old(globals.userId), old(name), old(address), old(description),
                                          ownerOf, createOf);
        writes == old(writes) + o.states && state == o.states[|o.states| - 1] &&
        submitted == o.submitted && host.effects == old(host.effects) + o.effects
    {
      var token := globals.token;
      var userId := globals.userId;
      if IsBlank(token) {
        SetState(WithMessage(TokenRequiredMessage));
        return None;
      }
      SetState(Loading());
      match ownerOf(userId, token) {
        case Threw(m) =>
          SetState(WithMessage(UnexpectedMessage(m)));
          return None;
        case Returned(owner) =>
          var ownerId := OwnerIdOf(owner);
          if ownerId.None? {
            SetState(WithMessage(OwnerInfoMissingMessage));
            return None;
          }
          var request := HouseRequest(ownerId.value, name, address, description);
          submitted := Some(request);
          match createOf(request, token) {
            case Threw(m) =>
              SetState(WithMessage(UnexpectedMessage(m)));
            case Returned(result) =>
              if result.Success? {
                SetState(WithData(result.data));
                host.Navigate(HomeRoute);
              } else {
                SetState(WithMessage(MessageOr(result.message, CreateErrorDefault)));
              }
          }
      }
    }
  }

  // ---------------------------------------------------------------------
  // The screen

  /** Continue needs a name and an address, not a description, and no click in progress. */
  predicate ContinueEnabled(name: string, address: string, isLoading: bool) {
    !IsBlank(name) && !IsBlank(address) && !isLoading
  }

  /** The form fields accept input only while no click is in progress. */
  predicate FieldsEnabled(isLoading: bool) {
    !isLoading
  }

  /** A blank name or address disables Continue whatever the description says. */
  lemma ContinueRules(name: string, address: string, isLoading: bool)
    ensures ContinueEnabled(name, address, isLoading) ==> FieldsEnabled(isLoading)
    ensures ContinueEnabled(name, address, isLoading) <==>
      !isLoading && (exists i :: 0 <= i < |name| && !IsWhitespace(name[i])) &&
      (exists j :: 0 <= j < |address| && !IsWhitespace(address[j]))
  {
  }

  /** The screen: its own loading flag, and the view model it edits. */
  class CreateHouseScreen {
    var isLoading: bool
    const vm: CreateHouseViewModel

    constructor(vm: CreateHouseViewModel)
      ensures !isLoading && this.vm == vm
    {
      isLoading := false;
      this.vm := vm;
    }

    /**
     * The Continue handler: the flag is raised, the launch is started and
     * the flag is lowered as soon as the launch returns, so it is down after
     * every click (the launch runs to completion here). The view model's
     * log, state and navigation requests are those of one `createHouse`.
     */
    method OnContinueClick(ownerOf: (int, string) -> Call<Resource<Owner>>,
                           createOf: (CreateHouse, string) -> Call<Resource<House>>)
      modifies this, vm, vm.host
      ensures !isLoading
      ensures vm.name == old(vm.name) && vm.address == old(vm.address) && vm.description == old(vm.description)
      ensures var o := CreateHouseOutcome(old(vm.globals.token), old(vm.globals.userId),
                                          old(vm.name), old(vm.address), old(vm.description), ownerOf, createOf);
        vm.writes == old(vm.writes) + o.states && vm.state == o.states[|o.states| - 1] &&
        vm.host.effects == old(vm.host.effects) + o.effects
    {
      isLoading := true;
      var _ := vm.CreateHouse(ownerOf, createOf);
      isLoading := false;
    }

    /** Each edit writes its field of the view model and nothing else. */
    method OnNameChange(value: string)
      modifies vm
      ensures vm.name == value && vm.address == old(vm.address) && vm.description == old(vm.description)
      ensures vm.state == old(vm.state) && vm.writes == old(vm.writes)
    {
      vm.name := value;
    }

    method OnAddressChange(value: string)
      modifies vm
      ensures vm.address == value && vm.name == old(vm.name) && vm.description == old(vm.description)
      ensures vm.state == old(vm.state) && vm.writes == old(vm.writes)
    {
      vm.address := value;
    }

    method OnDescriptionChange(value: string)
      modifies vm
      ensures vm.description == value && vm.name == old(vm.name) && vm.address == old(vm.address)
      ensures vm.state == old(vm.state) && vm.writes == old(vm.writes)
    {
      vm.description := value;
    }
  }
}
