/**
 * The visitor list's view model (VisitorsListViewModel.kt): the owner chain
 * that loads the visitors, and a deletion that reloads them on success and
 * only logs a failure.
 */
module VisitorsListViewModel {
  import opened Common
  import opened Domain
  import opened Session
  import opened OwnerLookup

  class VisitorsListViewModel {
    var state: UIState<seq<Visitor>>
    const globals: Globals
    const host: Host

    constructor(globals: Globals, host: Host)
      ensures state == Idle() && this.globals == globals && this.host == host
    {
      state := Idle();
      this.globals, this.host := globals, host;
    }

    /** `getVisitors`, up to the launch. */
    method GetVisitors()
      modifies this
      ensures state == Loading()
    {
      state := Loading();
    }

    /** The launched block of `getVisitors`; the fetched data is stored as it came, null included. */
    method CompleteGetVisitors(ownerOf: (int, string) -> Resource<Owner>, visitorsOf: (int, string) -> Resource<seq<Visitor>>)
      modifies this
      ensures state == ChainState(Lookup(ownerOf(globals.userId, globals.token), visitorsOf, globals.token),
                                  OwnerErrorDefault, VisitorsErrorDefault, d => d)
    {
      var token := globals.token;
      var ownerResult := ownerOf(globals.userId, token);
      match ownerResult {
        case Success(_) =>
          var ownerId := OwnerIdOf(ownerResult);
          if ownerId.Some? {
            var visitorsResult := visitorsOf(ownerId.value, token);
            match visitorsResult {
              case Success(data) => state := WithData(data);
              case Error(message) => state := WithMessage(MessageOr(message, VisitorsErrorDefault));
            }
          } else {
            state := WithMessage(NoOwnerMessage);
          }
        case Error(message) =>
          state := WithMessage(MessageOr(message, OwnerErrorDefault));
      }
    }

    method GoToAddVisitorScreen()
      modifies host
      ensures host.effects == old(host.effects) + [NavigateTo(AddVisitorRoute)]
    {
      host.Navigate(AddVisitorRoute);
    }

    method GoToHome()
      modifies host
      ensures host.effects == old(host.effects) + [NavigateTo(HomeRoute)]
    {
      host.Navigate(HomeRoute);
    }

    /** `deleteVisitor`: success reloads the list; a failure is only logged and the state is kept. */
    method DeleteVisitor(visitorId: int, deleteOf: (int, string) -> Resource<()>,
                         ownerOf: (int, string) -> Resource<Owner>, visitorsOf: (int, string) -> Resource<seq<Visitor>>)
      modifies this
      ensures var result := deleteOf(visitorId, globals.token);
        state == (if result.Success?
                  then ChainState(Lookup(ownerOf(globals.userId, globals.token), visitorsOf, globals.token),
                                  OwnerErrorDefault, VisitorsErrorDefault, d => d)
                  else old(state))
    {
      var result := deleteOf(visitorId, globals.token);
      match result {
        case Success(_) =>
          GetVisitors();
          CompleteGetVisitors(ownerOf, visitorsOf);
        case Error(_) =>
      }
    }
  }
}
