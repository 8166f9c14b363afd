/** Values shared by every page of the client: optional values, the signed-in user and the
    commercial space record as the client receives it from the server. */
module Common {

  datatype Option<+T> = None | Some(value: T)

  /** The `role` string stored with the signed-in user. */
  datatype Role = Tenant | Owner | Admin | OtherRole

  /** The user record kept in local storage under the key `user`. */
  datatype User = User(id: int, role: Role, name: string, email: string, phone: string)

  /** `user?.role === r`: false when nobody is signed in. */
  predicate HasRole(user: Option<User>, r: Role)
  {
    user.Some? && user.value.role == r
  }

  /** A commercial space as the client receives it. Optional strings (`spaceType`,
      `building?.name`) hold "" when the server sent null or nothing, which the source's
      truthiness tests treat alike. `ownerId` is `space.owner?.id`; a coordinate is None when it
      is missing or not a number. */
  datatype Space = Space(
    id: int,
    name: string,
    pricePerMonth: int,
    area: int,
    spaceType: string,
    available: bool,
    buildingName: string,
    ownerId: Option<int>,
    latitude: Option<int>,
    longitude: Option<int>)

  /** `space.owner && space.owner.id === user.id` */
  predicate OwnedBy(s: Space, userId: int)
  {
    s.ownerId == Some(userId)
  }
}
