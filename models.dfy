/** Records shared by the trip screens. Their Swift declarations are not part
    of this model; the fields below are the ones the modelled code reads or
    writes. Dates are integer timestamps, and a coordinate is a pair of
    numbers that is only ever compared for equality. */
module Models {
  import opened Wrappers

  type Date = int

  datatype Coordinate = Coordinate(latitude: real, longitude: real)

  datatype Location = Location(address: string, coordinate: Coordinate)

  /** Activity categories; only `.attraction` is named by the modelled code. */
  datatype Category = Attraction | OtherCategory(name: string)

  datatype TripActivity = TripActivity(
    id: string,
    city: Option<string>,
    category: Category,
    title: Option<string>,
    description: string,
    price: Option<int>,
    location: Location,
    createdDate: Date,
    startDate: Date,
    endDate: Date,
    peopleCount: int,
    isUserActivity: bool,
    author: Option<string>)

  /** A person `userId` registered to an activity by the acting user `byUserId`. */
  datatype TripActivityRegistration = TripActivityRegistration(
    id: string, userId: string, byUserId: string, activityId: string)

  /** Permissions of the signed-in user (the session user, not `User`). */
  datatype Permission = Checkins | OtherPermission(name: string)

  /** The failure of a backend call; its transport is not modelled. */
  datatype ApiError = ApiError(description: string)

  /** The signed-in user as kept by the session manager. */
  datatype SessionUser = SessionUser(id: string, permissions: set<Permission>)
}
