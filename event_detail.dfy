/** The event detail screen: which survey buttons are shown, whether the
    check-in manager button stays, and which survey a tap opens. */
module EventDetail {
  import opened Wrappers
  import opened Models

  /** The event fields this screen reads; survey lists hold URL strings. */
  datatype Event = Event(
    id: string,
    companyName: Option<string>,
    beforeSurveys: Option<seq<string>>,
    afterSurveys: Option<seq<string>>,
    date: Option<Date>)

  /** `list?.isEmpty ?? true`. */
  predicate AbsentOrEmpty(list: Option<seq<string>>) {
    list.None? || list.value == []
  }

  /** The event starts strictly after `now`. */
  predicate IsUpcoming(event: Event, now: Date) {
    event.date.Some? && event.date.value > now
  }

  /** The before-survey button is hidden when there is no before survey, or
      when the event has a date that is not in the future. */
  predicate BeforeSurveyHidden(event: Event, now: Date)
    ensures !BeforeSurveyHidden(event, now) ==> SurveyToOpen(event.beforeSurveys).Some?
    ensures IsUpcoming(event, now) ==> (BeforeSurveyHidden(event, now) <==> AbsentOrEmpty(event.beforeSurveys))
  {
    AbsentOrEmpty(event.beforeSurveys) || (event.date.Some? && !IsUpcoming(event, now))
  }

  /** The after-survey button is hidden when there is no after survey, or when
      the event is still to come. */
  predicate AfterSurveyHidden(event: Event, now: Date)
    ensures !AfterSurveyHidden(event, now) ==> SurveyToOpen(event.afterSurveys).Some?
    ensures IsUpcoming(event, now) ==> AfterSurveyHidden(event, now)
  {
    AbsentOrEmpty(event.afterSurveys) || IsUpcoming(event, now)
  }

  /** With a date, at most one survey button shows; without one, only the
      lists decide. */
  lemma SurveyButtonsExclusive(event: Event, now: Date)
    ensures event.date.Some? ==> BeforeSurveyHidden(event, now) || AfterSurveyHidden(event, now)
    ensures event.date.None? ==>
      && (BeforeSurveyHidden(event, now) <==> AbsentOrEmpty(event.beforeSurveys))
      && (AfterSurveyHidden(event, now) <==> AbsentOrEmpty(event.afterSurveys))
  {
  }

  /** The check-in manager button is removed only for a signed-in user
      without the check-in permission. */
  predicate KeepsCheckinButton(user: Option<SessionUser>)
    ensures user.None? ==> KeepsCheckinButton(user)
    ensures user.Some? ==> (KeepsCheckinButton(user) <==> Checkins in user.value.permissions)
  {
    user.None? || Checkins in user.value.permissions
  }

  /** A survey tap opens the first URL of the list, if there is one. */
  function SurveyToOpen(surveys: Option<seq<string>>): (url: Option<string>)
    ensures url.None? <==> AbsentOrEmpty(surveys)
    ensures url.Some? ==> url.value == surveys.value[0]
  {
    if surveys.Some? && |surveys.value| > 0 then Some(surveys.value[0]) else None
  }

  class EventDetailViewController {
    const event: Event
    var beforeSurveyHidden: bool
    var afterSurveyHidden: bool
    /** `navigationItem.rightBarButtonItem` is still set. */
    var hasCheckinButton: bool

    /** The screen as loaded from the storyboard, buttons visible. */
    constructor (event: Event)
      ensures this.event == event
      ensures !beforeSurveyHidden && !afterSurveyHidden && hasCheckinButton
    {
      this.event := event;
      beforeSurveyHidden := false;
      afterSurveyHidden := false;
      hasCheckinButton := true;
    }

    /** `configureSurveyButtons`: the lists decide first, then a known date
        overrides one of the two. */
    method ConfigureSurveyButtons(now: Date)
      modifies this
      ensures beforeSurveyHidden == BeforeSurveyHidden(event, now)
      ensures afterSurveyHidden == AfterSurveyHidden(event, now)
      ensures hasCheckinButton == old(hasCheckinButton)
    {
      beforeSurveyHidden := AbsentOrEmpty(event.beforeSurveys);
      afterSurveyHidden := AbsentOrEmpty(event.afterSurveys);
      if event.date.Some? {
        var date := event.date.value;
        if date > now {
          afterSurveyHidden := true;
        } else {
          beforeSurveyHidden := true;
        }
      }
    }

    /** The non-UI part of `viewDidLoad`: survey buttons, then the
        permission rule for the check-in manager button. */
    method ViewDidLoad(now: Date, user: Option<SessionUser>)
      modifies this
      ensures beforeSurveyHidden == BeforeSurveyHidden(event, now)
      ensures afterSurveyHidden == AfterSurveyHidden(event, now)
      ensures hasCheckinButton == (old(hasCheckinButton) && KeepsCheckinButton(user))
    {
      ConfigureSurveyButtons(now);
      if user.Some? && Checkins !in user.value.permissions {
        hasCheckinButton := false;
      }
    }

    /** `beforeSurveyTapped`: the URL handed to `openURL`, if any. */
    function BeforeSurveyTapped(): (url: Option<string>)
      reads this
      ensures url.Some? <==> !AbsentOrEmpty(event.beforeSurveys)
      ensures url.Some? ==> url.value == event.beforeSurveys.value[0]
    {
      SurveyToOpen(event.beforeSurveys)
    }

    /** `afterSurveyTapped`: the URL handed to `openURL`, if any. */
    function AfterSurveyTapped(): (url: Option<string>)
      reads this
      ensures url.Some? <==> !AbsentOrEmpty(event.afterSurveys)
      ensures url.Some? ==> url.value == event.afterSurveys.value[0]
    {
      SurveyToOpen(event.afterSurveys)
    }
  }
}
