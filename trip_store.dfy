/** The trip feature's state container: the state record, the closed set of
    actions, the pure reducer and the single command it can produce, and a
    store object that applies the reducer on every dispatch. */
module Trip {
  import opened Wrappers
  import opened Models
  import opened Sequences
  import opened UserModel

  datatype DrawerPage = Schedule | Plans | Information

  datatype DrawerPosition = Collapsed | PartiallyRevealed | Open

  /** `drawerBottomSafeArea` is a `Float` in the app; here it is an opaque
      number that is only stored and replaced. */
  datatype TripState = TripState(
    activities: seq<TripActivity>,
    users: seq<User>,
    selectedActivity: Option<TripActivity>,
    drawerPosition: DrawerPosition,
    drawerBottomSafeArea: real,
    drawerPage: DrawerPage)

  datatype TripAction =
    | SelectActivity(activity: Option<TripActivity>)
    | ChangeDrawerPosition(position: DrawerPosition)
    | UpdateActivities(list: seq<TripActivity>)
    | SetDrawerBottomSafeArea(safeArea: real)
    | ChangeDrawerPage(page: DrawerPage)
    | FetchUsers
    | UpdateUsers(newUsers: seq<User>)

  /** The only command the reducer builds: ask the backend for all users. */
  datatype Command = FetchUsersCommand

  /** The default-initialised `TripState()`. */
  function InitialState(): (s: TripState)
    ensures s.activities == [] && s.users == [] && s.selectedActivity == None
    ensures s.drawerPosition == PartiallyRevealed && s.drawerPage == Schedule
    ensures s.drawerBottomSafeArea == 0.0
  {
    TripState([], [], None, PartiallyRevealed, 0.0, Schedule)
  }

  /** `activities.first { selected.id == $0.id }`. */
  function FirstWithId(activities: seq<TripActivity>, id: string): Option<TripActivity> {
    FirstWhere(activities, (a: TripActivity) => a.id == id)
  }

  /** The reducer given to the store in `TripStore.init`. */
  function Reduce(s: TripState, action: TripAction): (r: (TripState, Option<Command>))
    ensures r.1.Some? <==> action.FetchUsers?
  {
    match action
    case SelectActivity(activity) => (s.(selectedActivity := activity), None)
    case ChangeDrawerPosition(position) => (s.(drawerPosition := position), None)
    case UpdateActivities(list) =>
      var selection := if s.selectedActivity.Some? then FirstWithId(list, s.selectedActivity.value.id) else None;
      (s.(activities := list, selectedActivity := selection), None)
    case ChangeDrawerPage(page) => (s.(drawerPage := page), None)
    case SetDrawerBottomSafeArea(value) => (s.(drawerBottomSafeArea := value), None)
    case UpdateUsers(users) => (s.(users := users), None)
    case FetchUsers => (s, Some(FetchUsersCommand))
  }

  /** Completing a command: on success it emits exactly one `updateUsers`
      with the fetched list; on failure (only logged) it emits nothing. */
  function Complete(c: Command, response: Result<seq<User>, ApiError>): (emitted: Option<TripAction>)
    ensures response.Success? <==> emitted.Some?
    ensures emitted.Some? ==> emitted.value == UpdateUsers(response.value)
  {
    match response
    case Success(users) => Some(UpdateUsers(users))
    case Failure(_) => None
  }

  // ---- Properties of the reducer ----

  /** A selection, if any, is one of the listed activities. */
  predicate SelectionIsListed(s: TripState) {
    s.selectedActivity.Some? ==> s.selectedActivity.value in s.activities
  }

  /** Selecting sets the selection to exactly the given value, without any
      membership check, and changes nothing else. */
  lemma SelectActivitySetsSelection(s: TripState, a: Option<TripActivity>)
    ensures Reduce(s, SelectActivity(a)).0.selectedActivity == a
    ensures Reduce(s, SelectActivity(a)).0 == s.(selectedActivity := a)
  {
  }

  /** Replacing the activities re-resolves the selection by id: the first
      activity of the new list with the old selection's id, or none. */
  lemma {:induction false} UpdateActivitiesResolvesSelection(s: TripState, list: seq<TripActivity>)
    ensures var t := Reduce(s, UpdateActivities(list)).0;
      && t.activities == list
      && t == s.(activities := list, selectedActivity := t.selectedActivity)
      && (s.selectedActivity.None? ==> t.selectedActivity.None?)
      && (s.selectedActivity.Some? ==>
            && (t.selectedActivity.None? <==> forall i :: 0 <= i < |list| ==> list[i].id != s.selectedActivity.value.id)
            && (t.selectedActivity.Some? ==>
                  exists k :: 0 <= k < |list| && t.selectedActivity.value == list[k]
                    && list[k].id == s.selectedActivity.value.id
                    && forall j :: 0 <= j < k ==> list[j].id != s.selectedActivity.value.id))
  {
    var t := Reduce(s, UpdateActivities(list)).0;
    if s.selectedActivity.Some? {
      var id := s.selectedActivity.value.id;
      var p := (a: TripActivity) => a.id == id;
      assert t.selectedActivity == FirstWhere(list, p);
      assert forall i :: 0 <= i < |list| ==> (p(list[i]) <==> list[i].id == id);
    }
  }

  /** After an activities update no dangling selection remains: any selection
      is listed and keeps the id of the one before. */
  lemma SelectionListedAfterUpdate(s: TripState, list: seq<TripActivity>)
    ensures SelectionIsListed(Reduce(s, UpdateActivities(list)).0)
    ensures var t := Reduce(s, UpdateActivities(list)).0;
      t.selectedActivity.Some? ==> s.selectedActivity.Some? && t.selectedActivity.value.id == s.selectedActivity.value.id
  {
    UpdateActivitiesResolvesSelection(s, list);
  }

  /** Each of these actions replaces its own field and nothing else. */
  lemma SingleFieldActions(s: TripState, pos: DrawerPosition, page: DrawerPage, safeArea: real, users: seq<User>)
    ensures Reduce(s, ChangeDrawerPosition(pos)) == (s.(drawerPosition := pos), None)
    ensures Reduce(s, ChangeDrawerPage(page)) == (s.(drawerPage := page), None)
    ensures Reduce(s, SetDrawerBottomSafeArea(safeArea)) == (s.(drawerBottomSafeArea := safeArea), None)
    ensures Reduce(s, UpdateUsers(users)) == (s.(users := users), None)
  {
  }

  /** Dispatching the same `updateUsers` twice gives the same state as once. */
  lemma UpdateUsersIdempotent(s: TripState, users: seq<User>)
    ensures Reduce(Reduce(s, UpdateUsers(users)).0, UpdateUsers(users)).0 == Reduce(s, UpdateUsers(users)).0
  {
  }

  /** `fetchUsers` leaves the state as it is and yields the fetch command;
      running it to success then sets exactly the fetched users. */
  lemma FetchUsersRoundTrip(s: TripState, response: Result<seq<User>, ApiError>)
    ensures Reduce(s, FetchUsers) == (s, Some(FetchUsersCommand))
    ensures response.Failure? ==> Complete(FetchUsersCommand, response) == None
    ensures response.Success? ==>
      Reduce(s, Complete(FetchUsersCommand, response).value).0 == s.(users := response.value)
  {
  }

  /** Selecting an activity that is not (yet) listed is kept as is. */
  lemma SelectUnlistedActivity(a: TripActivity)
    ensures Reduce(InitialState(), SelectActivity(Some(a))).0.selectedActivity == Some(a)
  {
  }

  /** update [A, B], select A, update [B]: the selection is dropped. */
  lemma SelectionDroppedWhenActivityVanishes(a: TripActivity, b: TripActivity)
    requires a.id != b.id
    ensures
      var s1 := Reduce(InitialState(), UpdateActivities([a, b])).0;
      var s2 := Reduce(s1, SelectActivity(Some(a))).0;
      var s3 := Reduce(s2, UpdateActivities([b])).0;
      s3.selectedActivity == None
  {
    var s1 := Reduce(InitialState(), UpdateActivities([a, b])).0;
    var s2 := Reduce(s1, SelectActivity(Some(a))).0;
    UpdateActivitiesResolvesSelection(s2, [b]);
  }

  /** The trip store: one state value, changed only by dispatching actions
      through `Reduce`. Commands it has been handed and that have not yet
      completed are kept in `pending`; completions may arrive in any order. */
  class TripStore {
    var state: TripState
    var pending: seq<Command>

    /** `init`: start from the default state and dispatch `fetchUsers`. */
    constructor ()
      ensures state == InitialState()
      ensures pending == [FetchUsersCommand]
    {
      state := InitialState();
      pending := [];
      new;
      var _ := Dispatch(FetchUsers);
    }

    method Dispatch(action: TripAction) returns (command: Option<Command>)
      modifies this
      ensures (state, command) == Reduce(old(state), action)
      ensures pending == old(pending) + (if command.Some? then [command.value] else [])
    {
      var next := Reduce(state, action);
      state := next.0;
      command := next.1;
      if command.Some? {
        pending := pending + [command.value];
      }
    }

    /** What the store does when an activities list is dispatched as
        `updateActivities`: the selection is re-resolved and stays listed.
        (The store's own lazy activities subscription is never started, so
        such lists reach the store only through explicit dispatches.) */
    method DispatchActivities(list: seq<TripActivity>)
      modifies this
      ensures state == Reduce(old(state), UpdateActivities(list)).0
      ensures pending == old(pending)
      ensures SelectionIsListed(state)
    {
      var _ := Dispatch(UpdateActivities(list));
      SelectionListedAfterUpdate(old(state), list);
    }

    /** The k-th pending command finishes with `response`; its follow-up
        action, if any, is dispatched. */
    method CommandCompleted(k: nat, response: Result<seq<User>, ApiError>)
      requires k < |pending|
      modifies this
      ensures pending == old(pending[..k] + pending[k + 1..])
      ensures response.Success? ==> state == old(state).(users := response.value)
      ensures response.Failure? ==> state == old(state)
    {
      var c := pending[k];
      pending := pending[..k] + pending[k + 1..];
      var emitted := Complete(c, response);
      if emitted.Some? {
        var _ := Dispatch(emitted.value);
      }
    }
  }
}
