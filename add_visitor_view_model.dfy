/**
 * The first step of adding a visitor (AddVisitorViewModel.kt): the name and
 * role typed in, and `getVisitor`, which looks up the owner and the owner's
 * houses and builds the visitor for the first house.
 */
module AddVisitorViewModel {
  import opened Common
  import opened Domain
  import opened Session
  import opened OwnerLookup

  /** `housesResult.data?.firstOrNull()?.id` */
  function FirstHouseId(houses: Resource<seq<House>>): (id: Option<int>)
    ensures id.Some? <==> houses.Success? && houses.data.Some? && houses.data.value != [] &&
                          houses.data.value[0].id.Some?
    ensures id.Some? ==> id == houses.data.value[0].id
  {
    match houses.Data()
    case None => None
    case Some(hs) => if hs == [] then None else hs[0].id
  }

  /** The visitor for house `houseId`: no photo yet and never visited. */
  function NewVisitor(houseId: int, firstname: string, lastname: string, role: string): (v: CreateVisitor)
    ensures v.houseId == houseId && v.firstname == firstname && v.lastname == lastname && v.role == role
    ensures v.photo == "" && v.lastVisit.None?
  {
    CreateVisitor(houseId, firstname, lastname, "", role, None)
  }

  class AddVisitorViewModel {
    var firstname: string
    var lastname: string
    var role: string
    const globals: Globals
    const host: Host

    constructor(globals: Globals, host: Host)
      ensures firstname == "" && lastname == "" && role == ""
      ensures this.globals == globals && this.host == host
    {
      firstname, lastname, role := "", "", "";
      this.globals, this.host := globals, host;
    }

    method OnFirstnameChange(value: string)
      modifies this
      ensures firstname == value && lastname == old(lastname) && role == old(role)
    {
      firstname := value;
    }

    method OnLastnameChange(value: string)
      modifies this
      ensures lastname == value && firstname == old(firstname) && role == old(role)
    {
      lastname := value;
    }

    method OnRoleChange(value: string)
      modifies this
      ensures role == value && firstname == old(firstname) && lastname == old(lastname)
    {
      role := value;
    }

    /**
     * `getVisitor`: the value handed to the callback, which is called once.
     * There is a visitor exactly when the owner has an id and the owner's
     * first house has one; it carries the current fields. The houses are
     * asked for only when the owner id is known.
     */
    method GetVisitor(ownerOf: (int, string) -> Resource<Owner>, housesOf: (int, string) -> Resource<seq<House>>)
      returns (visitor: Option<CreateVisitor>)
      ensures var ownerId := OwnerIdOf(ownerOf(globals.userId, globals.token));
        visitor.Some? <==> ownerId.Some? && FirstHouseId(housesOf(ownerId.value, globals.token)).Some?
      ensures visitor.Some? ==>
        var ownerId := OwnerIdOf(ownerOf(globals.userId, globals.token)).value;
        visitor.value == NewVisitor(FirstHouseId(housesOf(ownerId, globals.token)).value, firstname, lastname, role)
    {
      var ownerId := OwnerIdOf(ownerOf(globals.userId, globals.token));
      if ownerId.Some? {
        var houseId := FirstHouseId(housesOf(ownerId.value, globals.token));
        if houseId.Some? {
          return Some(NewVisitor(houseId.value, firstname, lastname, role));
        }
      }
      return None;
    }

    method ClearFields()
      modifies this
      ensures firstname == "" && lastname == "" && role == ""
    {
      firstname, lastname, role := "", "", "";
    }

    method GoToAddVisitorImageScreen()
      modifies host
      ensures host.effects == old(host.effects) + [NavigateTo(AddVisitorImageRoute)]
    {
      host.Navigate(AddVisitorImageRoute);
    }

    method GoToVisitorsList()
      modifies host
      ensures host.effects == old(host.effects) + [NavigateTo(VisitorsListRoute)]
    {
      host.Navigate(VisitorsListRoute);
    }
  }

  /**
   * Only the first house counts: an owner whose first house lacks an id gets
   * no visitor even when a later house has one.
   */
  lemma OnlyFirstHouseUsed(houses: seq<House>)
    requires houses != [] && houses[0].id.None?
    ensures FirstHouseId(Success(Some(houses))) == None
  {
  }
}
