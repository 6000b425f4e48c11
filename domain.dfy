/**
 * The app's domain records (package `domain`). Timestamps and dates are
 * integers: the model compares and subtracts them but never formats them.
 */
module Domain {
  import opened Common

  datatype Device = Device(
    id: Option<int>,
    houseId: int,
    name: string,
    deviceType: string,
    ipAddress: string,
    port: int,
    status: string,
    active: bool,
    apiKey: string)

  datatype Alert = Alert(
    id: Option<int>,
    houseId: int,
    alertType: string,
    message: string,
    status: string,
    timestamp: int,
    imageUrl: string)

  datatype Notification = Notification(
    id: Option<int>,
    userId: int,
    title: string,
    message: string,
    date: int)

  datatype Visitor = Visitor(
    id: Option<int>,
    houseId: int,
    firstname: string,
    lastname: string,
    photo: string,
    role: string,
    lastVisit: Option<int>)

  datatype CreateVisitor = CreateVisitor(
    houseId: int,
    firstname: string,
    lastname: string,
    photo: string,
    role: string,
    lastVisit: Option<int>)

  datatype Profile = Profile(
    id: Option<int>,
    userId: int,
    firstName: string,
    lastName: string,
    birthDate: string,
    description: Option<string>,
    photo: Option<string>,
    address: Option<string>,
    phone: Option<string>)

  datatype CreateProfile = CreateProfile(
    userId: int,
    firstName: string,
    lastName: string,
    birthDate: string,
    description: Option<string>,
    photo: Option<string>,
    phone: Option<string>,
    address: Option<string>)

  datatype House = House(
    id: Option<int>,
    ownerId: int,
    address: string,
    name: string,
    description: Option<string>)

  datatype CreateHouse = CreateHouse(
    ownerId: int,
    address: string,
    name: string,
    description: Option<string>)

  /** The owner record is not among the shown files; only its nullable id is read. */
  datatype Owner = Owner(id: Option<int>, userId: int)

  /** What sign-in returns. */
  datatype AuthenticationResponse = AuthenticationResponse(id: int, username: string, token: Option<string>)

  /** What sign-up returns. */
  datatype SignUpResponse = SignUpResponse(id: int, username: string, roles: seq<string>)

  /** The user row kept in the local database (`UserEntity`). */
  datatype StoredUser = StoredUser(id: int, token: string)

  /** Id selectors, used as function values by the list removals. */
  function AlertId(a: Alert): Option<int> { a.id }

  function NotificationId(n: Notification): Option<int> { n.id }
}
