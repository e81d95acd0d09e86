/** The registration screen of a trip activity: all users sorted by full
    name, a checkmark on those registered, and a tap that adds or removes a
    registration. */
module Registration {
  import opened Wrappers
  import opened Models
  import opened Sequences
  import opened UserModel

  // ---- Ordering users by full name ----

  /** `a < b` on strings: lexicographic by character. */
  predicate LexLess(a: string, b: string)
    ensures LexLess(a, b) ==> a != b
    ensures |a| < |b| && a == b[..|a|] ==> LexLess(a, b)
    decreases |a|
  {
    if |b| == 0 then false
    else if |a| == 0 then true
    else if a[0] != b[0] then a[0] < b[0]
    else LexLess(a[1..], b[1..])
  }

  /** `!(b < a)`. */
  predicate LexLeq(a: string, b: string) {
    !LexLess(b, a)
  }

  lemma {:induction false} LexLessAsymmetric(a: string, b: string)
    ensures !(LexLess(a, b) && LexLess(b, a))
  {
    if |a| > 0 && |b| > 0 && a[0] == b[0] {
      LexLessAsymmetric(a[1..], b[1..]);
    }
  }

  lemma {:induction false} LexLeqTransitive(a: string, b: string, c: string)
    requires LexLeq(a, b) && LexLeq(b, c)
    ensures LexLeq(a, c)
  {
    if |a| > 0 && |b| > 0 && |c| > 0 && a[0] == b[0] == c[0] {
      LexLeqTransitive(a[1..], b[1..], c[1..]);
    }
  }

  /** `us` is ordered by `fullName`: no later user's name sorts before an
      earlier one's. */
  predicate SortedBy(us: seq<User>, fullName: User -> string) {
    forall i, j :: 0 <= i < j < |us| ==> LexLeq(fullName(us[i]), fullName(us[j]))
  }

  function Insert(x: User, us: seq<User>, fullName: User -> string): (r: seq<User>)
    requires SortedBy(us, fullName)
    ensures multiset(r) == multiset(us) + multiset{x}
    ensures SortedBy(r, fullName)
  {
    if us == [] then [x]
    else if LexLeq(fullName(x), fullName(us[0])) then
      assert forall j :: 0 <= j < |us| ==> LexLeq(fullName(x), fullName(us[j])) by {
        forall j | 0 <= j < |us| ensures LexLeq(fullName(x), fullName(us[j])) {
          if j > 0 { LexLeqTransitive(fullName(x), fullName(us[0]), fullName(us[j])); }
        }
      }
      [x] + us
    else
      assert us == [us[0]] + us[1..];
      var rest := Insert(x, us[1..], fullName);
      LexLessAsymmetric(fullName(x), fullName(us[0]));
      assert forall j :: 0 <= j < |rest| ==> LexLeq(fullName(us[0]), fullName(rest[j])) by {
        forall j | 0 <= j < |rest| ensures LexLeq(fullName(us[0]), fullName(rest[j])) {
          assert rest[j] in multiset(rest);
          if rest[j] != x {
            assert rest[j] in multiset(us[1..]);
            var k :| 0 <= k < |us[1..]| && us[1..][k] == rest[j];
            assert us[k + 1] == rest[j];
          }
        }
      }
      [us[0]] + rest
  }

  /** `users.sorted { $0.fullName < $1.fullName }`: the same users, ordered
      by full name. How users with equal names are ordered is not promised. */
  function SortByFullName(users: seq<User>, fullName: User -> string): (r: seq<User>)
    ensures multiset(r) == multiset(users)
    ensures SortedBy(r, fullName)
  {
    if users == [] then []
    else
      assert users == [users[0]] + users[1..];
      Insert(users[0], SortByFullName(users[1..], fullName), fullName)
  }

  // ---- Checkmarks and taps ----

  /** Some registration is for the user with this id. */
  predicate IsRegistered(registrations: seq<TripActivityRegistration>, userId: string) {
    exists i :: 0 <= i < |registrations| && registrations[i].userId == userId
  }

  datatype AccessoryType = Checkmark | NoAccessory

  /** The accessory of the row showing `user`. */
  function AccessoryFor(registrations: seq<TripActivityRegistration>, user: User): (a: AccessoryType)
    ensures a == Checkmark <==> IsRegistered(registrations, user.id)
  {
    if ContainsWhere(registrations, (r: TripActivityRegistration) => user.id == r.userId) then Checkmark
    else NoAccessory
  }

  /** The backend call a tap makes. */
  datatype RegistrationEffect =
    | RemoveActivityRegistration(registrationId: string, activityId: string)
    | AddActivityRegistration(userId: string, byUserId: string, activityId: string)

  /** `didSelectRowAt` for the user `user`: without an acting user nothing
      happens; a registered user loses the first registration for them; an
      unregistered user is registered by the acting user. */
  function TapEffect(registrations: seq<TripActivityRegistration>, user: User,
                     actingUser: Option<SessionUser>, activityId: string): (e: Option<RegistrationEffect>)
    ensures e.Some? <==> actingUser.Some?
    ensures e.Some? && !IsRegistered(registrations, user.id) ==>
      e.value == AddActivityRegistration(user.id, actingUser.value.id, activityId)
    ensures e.Some? && IsRegistered(registrations, user.id) ==>
      && e.value.RemoveActivityRegistration? && e.value.activityId == activityId
      && exists k :: 0 <= k < |registrations| && registrations[k].userId == user.id
           && registrations[k].id == e.value.registrationId
           && forall j :: 0 <= j < k ==> registrations[j].userId != user.id
  {
    if actingUser.None? then None
    else
      var isFor := (r: TripActivityRegistration) => user.id == r.userId;
      match FirstWhere(registrations, isFor)
      case Some(registration) => Some(RemoveActivityRegistration(registration.id, activityId))
      case None => Some(AddActivityRegistration(user.id, actingUser.value.id, activityId))
  }

  /** The registrations the subscription delivers once `e` is stored, given
      the id the backend assigns to a new registration. */
  function AfterEffect(registrations: seq<TripActivityRegistration>, e: RegistrationEffect, newId: string): seq<TripActivityRegistration> {
    match e
    case AddActivityRegistration(userId, byUserId, activityId) =>
      registrations + [TripActivityRegistration(newId, userId, byUserId, activityId)]
    case RemoveActivityRegistration(registrationId, _) =>
      Filter(registrations, (r: TripActivityRegistration) => r.id != registrationId)
  }

  /** Each user is registered at most once. */
  predicate OneRegistrationPerUser(registrations: seq<TripActivityRegistration>) {
    forall i, j :: 0 <= i < j < |registrations| ==> registrations[i].userId != registrations[j].userId
  }

  /** A tap by a signed-in user flips the row's checkmark once the backend
      has applied it. */
  lemma TapTogglesCheckmark(registrations: seq<TripActivityRegistration>, user: User,
                            actingUser: SessionUser, activityId: string, newId: string)
    requires OneRegistrationPerUser(registrations)
    ensures var e := TapEffect(registrations, user, Some(actingUser), activityId);
      e.Some? && (IsRegistered(AfterEffect(registrations, e.value, newId), user.id) <==> !IsRegistered(registrations, user.id))
  {
    var e := TapEffect(registrations, user, Some(actingUser), activityId).value;
    var after := AfterEffect(registrations, e, newId);
    if IsRegistered(registrations, user.id) {
      var k :| 0 <= k < |registrations| && registrations[k].userId == user.id
           && registrations[k].id == e.registrationId;
      forall i | 0 <= i < |after| ensures after[i].userId != user.id {
        assert after[i] in registrations && after[i].id != e.registrationId;
        var m :| 0 <= m < |registrations| && registrations[m] == after[i];
        assert m != k;
      }
    } else {
      assert after[|registrations|].userId == user.id;
    }
  }

  /** The registration screen's state. `activity` is the trip store's
      selection when the screen is opened. */
  class RegistrationTableViewController {
    const activity: Option<TripActivity>
    var users: seq<User>
    var registrations: seq<TripActivityRegistration>
    var dismissed: bool

    /** Opening the screen; `viewDidLoad` dismisses it when nothing is selected. */
    constructor (activity: Option<TripActivity>)
      ensures this.activity == activity
      ensures users == [] && registrations == []
      ensures dismissed == activity.None?
    {
      this.activity := activity;
      users := [];
      registrations := [];
      dismissed := activity.None?;
    }

    /** The completion of `fetchUsers`: a success sorts and shows the users,
        a failure dismisses the screen and keeps the users. */
    method UsersFetched(result: Result<seq<User>, ApiError>, fullName: User -> string)
      modifies this
      ensures result.Success? ==> users == SortByFullName(result.value, fullName) && dismissed == old(dismissed)
      ensures result.Failure? ==> users == old(users) && dismissed
      ensures registrations == old(registrations)
    {
      match result
      case Success(fetched) =>
        users := SortByFullName(fetched, fullName);
      case Failure(_) =>
        dismissed := true;
    }

    /** The registration subscription delivers a new list. */
    method RegistrationsPushed(list: seq<TripActivityRegistration>)
      modifies this
      ensures registrations == list && users == old(users) && dismissed == old(dismissed)
    {
      registrations := list;
    }

    /** `numberOfRowsInSection`: one row per user. */
    function NumberOfRows(): (n: nat)
      reads this
      ensures n == |users|
    {
      |users|
    }

    /** `cellForRowAt`: the row is checked iff its user is registered. */
    function Accessory(row: nat): (a: AccessoryType)
      requires row < NumberOfRows()
      reads this
      ensures a == Checkmark <==> exists i :: 0 <= i < |registrations| && registrations[i].userId == users[row].id
    {
      AccessoryFor(registrations, users[row])
    }

    /** `didSelectRowAt`; the screen is only shown with an activity. */
    function DidSelectRow(row: nat, actingUser: Option<SessionUser>): (e: Option<RegistrationEffect>)
      requires row < NumberOfRows() && activity.Some?
      reads this
      ensures e.Some? <==> actingUser.Some?
      ensures e.Some? ==> e.value.activityId == activity.value.id
      ensures e.Some? ==> (e.value.AddActivityRegistration? <==> !IsRegistered(registrations, users[row].id))
    {
      TapEffect(registrations, users[row], actingUser, activity.value.id)
    }
  }
}
