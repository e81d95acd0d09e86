/** The trip-activity editor's submit step: trim and check the form in a
    fixed order, then build the activity to store and the calls to make. */
module ActivityEditor {
  import opened Wrappers
  import opened Models

  // ---- Trimming `.whitespacesAndNewlines` ----

  /** Members of Foundation's `CharacterSet.whitespacesAndNewlines`: the
      Unicode space separators (category Zs), line and paragraph separators,
      tab, U+000A to U+000D and U+0085. */
  predicate IsWhitespaceOrNewline(c: char) {
    var n := c as int;
    || n == 0x20 || (0x09 <= n <= 0x0D) || n == 0x85 || n == 0xA0 || n == 0x1680
    || (0x2000 <= n <= 0x200A) || n == 0x2028 || n == 0x2029 || n == 0x202F
    || n == 0x205F || n == 0x3000
  }

  /** Drops the leading whitespace. */
  function TrimLeading(s: string): (r: string)
    ensures |r| <= |s| && r == s[|s| - |r|..]
    ensures forall k :: 0 <= k < |s| - |r| ==> IsWhitespaceOrNewline(s[k])
    ensures r != [] ==> !IsWhitespaceOrNewline(r[0])
  {
    if |s| > 0 && IsWhitespaceOrNewline(s[0]) then TrimLeading(s[1..]) else s
  }

  /** Drops the trailing whitespace. */
  function TrimTrailing(s: string): (r: string)
    ensures |r| <= |s| && r == s[..|r|]
    ensures forall k :: |r| <= k < |s| ==> IsWhitespaceOrNewline(s[k])
    ensures r != [] ==> !IsWhitespaceOrNewline(r[|r| - 1])
  {
    if |s| > 0 && IsWhitespaceOrNewline(s[|s| - 1]) then TrimTrailing(s[..|s| - 1]) else s
  }

  /** `r` is the slice of `s` starting at `i`, and everything of `s` before
      and after that slice is whitespace or newline. */
  predicate SliceBetweenWhitespace(s: string, r: string, i: int) {
    && 0 <= i <= |s| - |r| && s[i..][..|r|] == r
    && (forall k :: 0 <= k < i ==> IsWhitespaceOrNewline(s[k]))
    && (forall k :: i + |r| <= k < |s| ==> IsWhitespaceOrNewline(s[k]))
  }

  /** Trimming the leading whitespace first, then the trailing whitespace,
      leaves the slice between the two. */
  lemma TrimmedSlice(s: string, head: string, r: string)
    requires head == TrimLeading(s) && r == TrimTrailing(head)
    ensures SliceBetweenWhitespace(s, r, |s| - |head|)
  {
    var i := |s| - |head|;
    assert s[i..][..|r|] == r;
    forall k | i + |r| <= k < |s| ensures IsWhitespaceOrNewline(s[k]) {
      assert s[k] == head[k - i];
    }
  }

  /** A slice between whitespace that is itself empty leaves only whitespace,
      and a non-empty one that neither starts nor ends with whitespace does not. */
  lemma EmptySliceIffAllWhitespace(s: string, r: string, i: int)
    requires SliceBetweenWhitespace(s, r, i)
    requires r != [] ==> !IsWhitespaceOrNewline(r[0])
    ensures r == [] <==> forall k :: 0 <= k < |s| ==> IsWhitespaceOrNewline(s[k])
  {
    if r != [] {
      assert s[i] == r[0];
    }
  }

  /** `s.trimmingCharacters(in: .whitespacesAndNewlines)`: the slice of `s`
      between its leading and trailing whitespace. */
  function Trim(s: string): (r: string)
    ensures r == [] <==> forall k :: 0 <= k < |s| ==> IsWhitespaceOrNewline(s[k])
    ensures r != [] ==> !IsWhitespaceOrNewline(r[0]) && !IsWhitespaceOrNewline(r[|r| - 1])
    ensures exists i :: SliceBetweenWhitespace(s, r, i)
  {
    var head := TrimLeading(s);
    var r := TrimTrailing(head);
    TrimmedSlice(s, head, r);
    assert r != [] ==> r[0] == head[0];
    EmptySliceIffAllWhitespace(s, r, |s| - |head|);
    r
  }

  // ---- The guard chain ----

  /** What the editor table holds when Done is tapped. */
  datatype EditorForm = EditorForm(
    activityTitle: string,
    address: Option<string>,
    location: Option<Coordinate>,
    startDate: Date,
    endDate: Date,
    activityCategory: Category)

  /** The four input errors, in the order they are checked. */
  datatype InputError = EmptyTitle | EmptyAddress | NoCoordinates | StartNotBeforeEnd

  function Message(e: InputError): string {
    match e
    case EmptyTitle => "Activity title cannot be empty!"
    case EmptyAddress => "Address cannot be empty!"
    case NoCoordinates => "No coordinates available for address. Be more specific!"
    case StartNotBeforeEnd => "Activity has to start before it ends!"
  }

  function Rank(e: InputError): nat {
    match e
    case EmptyTitle => 0
    case EmptyAddress => 1
    case NoCoordinates => 2
    case StartNotBeforeEnd => 3
  }

  /** Whether the form fails check `e`, looked at on its own. */
  predicate Fails(form: EditorForm, e: InputError) {
    match e
    case EmptyTitle => Trim(form.activityTitle) == []
    case EmptyAddress => form.address.None? || form.address.value == []
    case NoCoordinates => form.location.None?
    case StartNotBeforeEnd => !(form.startDate < form.endDate)
  }

  /** The checked input the activity is built from. */
  datatype ValidInput = ValidInput(
    title: string, address: string, coordinate: Coordinate,
    startDate: Date, endDate: Date, category: Category)

  /** The guards of `validateAndSubmit`: the first failing check is reported
      and only it; when none fails, the trimmed title and the form's values
      are handed on. */
  function Validate(form: EditorForm): (r: Result<ValidInput, InputError>)
    ensures r.Success? <==> forall e :: !Fails(form, e)
    ensures r.Failure? ==> Fails(form, r.error) && forall e :: Rank(e) < Rank(r.error) ==> !Fails(form, e)
    ensures r.Success? ==>
      && r.value.title == Trim(form.activityTitle) && r.value.title != []
      && form.address == Some(r.value.address) && r.value.address != []
      && form.location == Some(r.value.coordinate)
      && r.value.startDate == form.startDate < form.endDate == r.value.endDate
      && r.value.category == form.activityCategory
  {
    var title := Trim(form.activityTitle);
    if title == [] then assert Fails(form, EmptyTitle); Failure(EmptyTitle)
    else if form.address.None? || form.address.value == [] then assert Fails(form, EmptyAddress); Failure(EmptyAddress)
    else if form.location.None? then assert Fails(form, NoCoordinates); Failure(NoCoordinates)
    else if !(form.startDate < form.endDate) then assert Fails(form, StartNotBeforeEnd); Failure(StartNotBeforeEnd)
    else Success(ValidInput(title, form.address.value, form.location.value,
                            form.startDate, form.endDate, form.activityCategory))
  }

  /** Equal start and end times are refused, with the time error unless an
      earlier check already failed. */
  lemma EqualTimesRejected(form: EditorForm)
    requires form.startDate == form.endDate
    ensures Validate(form).Failure?
    ensures Validate(form).error == StartNotBeforeEnd <==>
      !Fails(form, EmptyTitle) && !Fails(form, EmptyAddress) && !Fails(form, NoCoordinates)
  {
    assert Fails(form, StartNotBeforeEnd);
  }

  // ---- Building and submitting the activity ----

  /** `isCreating`: no activity was handed in for editing. */
  predicate IsCreating(editingActivity: Option<TripActivity>)
    ensures IsCreating(editingActivity) <==> editingActivity == None
  {
    editingActivity.None?
  }

  /** `defaultNewActivity`; the fresh UUID and the current time are parameters. */
  function DefaultNewActivity(newId: string, now: Date, user: Option<SessionUser>): (a: TripActivity)
    ensures a.id == newId && a.isUserActivity && a.peopleCount == 0 && a.category == Attraction
    ensures a.author == (if user.Some? then Some(user.value.id) else None)
    ensures a.title == None && a.city == None && a.price == None && a.description == ""
    ensures a.location == Location("", Coordinate(0.0, 0.0))
    ensures a.createdDate == a.startDate == a.endDate == now
  {
    TripActivity(newId, None, Attraction, None, "", None, Location("", Coordinate(0.0, 0.0)),
                 now, now, now, 0, true, if user.Some? then Some(user.value.id) else None)
  }

  /** The calls `validateAndSubmit` makes, in order. */
  datatype Effect =
    | ShowErrorPopup(message: string)
    | AddOrUpdateActivity(activity: TripActivity)
    | AddActivityRegistration(userId: string, byUserId: string, activityId: string)
    | Dismiss

  /** `submitted` is `base` with the five edited fields taken from `input`
      and every other field kept. */
  predicate IsEditOf(submitted: TripActivity, base: TripActivity, input: ValidInput) {
    && submitted.description == input.title
    && submitted.location == Location(input.address, input.coordinate)
    && submitted.startDate == input.startDate
    && submitted.endDate == input.endDate
    && submitted.category == input.category
    && submitted.(description := base.description, location := base.location,
                  startDate := base.startDate, endDate := base.endDate,
                  category := base.category) == base
  }

  /** `validateAndSubmit`. On an input error only the popup for the first
      failed check is shown. Otherwise the edited (or a new default) activity
      is stored; a new activity also registers its creator, if signed in;
      then the editor is dismissed. */
  method ValidateAndSubmit(form: EditorForm, editingActivity: Option<TripActivity>,
                           user: Option<SessionUser>, newId: string, now: Date)
    returns (effects: seq<Effect>)
    ensures Validate(form).Failure? ==> effects == [ShowErrorPopup(Message(Validate(form).error))]
    ensures Validate(form).Success? ==>
      && 2 <= |effects| <= 3
      && effects[0].AddOrUpdateActivity?
      && effects[|effects| - 1] == Dismiss
      && IsEditOf(effects[0].activity,
                  if editingActivity.Some? then editingActivity.value else DefaultNewActivity(newId, now, user),
                  Validate(form).value)
      && (|effects| == 3 <==> IsCreating(editingActivity) && user.Some?)
      && (|effects| == 3 ==>
            effects[1] == AddActivityRegistration(user.value.id, user.value.id, effects[0].activity.id))
  {
    var checked := Validate(form);
    if checked.Failure? {
      return [ShowErrorPopup(Message(checked.error))];
    }
    var input := checked.value;
    var activity := if editingActivity.Some? then editingActivity.value else DefaultNewActivity(newId, now, user);
    activity := activity.(description := input.title);
    activity := activity.(location := activity.location.(address := input.address));
    activity := activity.(location := Location(input.address, input.coordinate));
    activity := activity.(startDate := input.startDate);
    activity := activity.(endDate := input.endDate);
    activity := activity.(category := input.category);

    effects := [AddOrUpdateActivity(activity)];
    if IsCreating(editingActivity) && user.Some? {
      effects := effects + [AddActivityRegistration(user.value.id, user.value.id, activity.id)];
    }
    effects := effects + [Dismiss];
  }
}
