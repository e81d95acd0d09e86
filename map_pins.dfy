/** The map screen: one pin per activity, an update that only removes and
    adds the pins that changed, a zoom that happens on the first update only,
    and the three-way location tracking toggle. */
module MapPins {
  import opened Wrappers
  import opened Models
  import opened Sequences

  /** An `MKPointAnnotation` as the map screen fills it in. */
  datatype Pin = Pin(coordinate: Coordinate, title: Option<string>, subtitle: Option<string>)

  function PinFor(a: TripActivity): Pin {
    Pin(a.location.coordinate, a.title, Some(a.location.address))
  }

  /** The `newPins` of `updateActivityPins`: one pin per activity, in order. */
  function PinsFor(activities: seq<TripActivity>): (pins: seq<Pin>)
    ensures |pins| == |activities|
    ensures forall i :: 0 <= i < |activities| ==>
      && pins[i].coordinate == activities[i].location.coordinate
      && pins[i].title == activities[i].title
      && pins[i].subtitle == Some(activities[i].location.address)
  {
    if |activities| == 0 then [] else [PinFor(activities[0])] + PinsFor(activities[1..])
  }

  /** The overridden `isEqual`: same latitude, longitude and title; the
      subtitle plays no part. */
  predicate PinEqual(p: Pin, q: Pin)
    ensures PinEqual(p, q) <==> p.coordinate == q.coordinate && p.title == q.title
  {
    && p.coordinate.latitude == q.coordinate.latitude
    && p.coordinate.longitude == q.coordinate.longitude
    && p.title == q.title
  }

  /** `PinEqual` is an equivalence that ignores subtitles and tells apart pins
      with different coordinates or titles. */
  lemma PinEqualIsEquivalence(p: Pin, q: Pin, r: Pin, subtitle: Option<string>)
    ensures PinEqual(p, p)
    ensures PinEqual(p, q) ==> PinEqual(q, p)
    ensures PinEqual(p, q) && PinEqual(q, r) ==> PinEqual(p, r)
    ensures PinEqual(p, p.(subtitle := subtitle))
    ensures PinEqual(p, q) <==> p.coordinate == q.coordinate && p.title == q.title
  {
  }

  /** `pins.contains(p)`, which compares with `isEqual`. */
  predicate Contains(pins: seq<Pin>, p: Pin) {
    exists q :: q in pins && PinEqual(q, p)
  }

  /** The pins of `pins` that have no equal pin in `others`. */
  function Unmatched(pins: seq<Pin>, others: seq<Pin>): (r: seq<Pin>)
    ensures forall p :: p in r <==> p in pins && !Contains(others, p)
    ensures |r| <= |pins|
  {
    Filter(pins, (p: Pin) => !Contains(others, p))
  }

  /** `mapView.removeAnnotations(drop)`: the annotations not listed in `drop`. */
  function Without(annotations: seq<Pin>, drop: seq<Pin>): (r: seq<Pin>)
    ensures forall p :: p in r <==> p in annotations && p !in drop
  {
    Filter(annotations, (p: Pin) => p !in drop)
  }

  /** The map's pins after one update from `onMap` towards `newPins`. */
  function Updated(onMap: seq<Pin>, newPins: seq<Pin>): (r: seq<Pin>)
    ensures forall p :: p in r <==>
      (p in onMap && Contains(newPins, p)) || (p in newPins && !Contains(onMap, p))
  {
    Without(onMap, Unmatched(onMap, newPins)) + Unmatched(newPins, onMap)
  }

  /** After the update the map shows the new pins up to pin equality; pins
      present before and after are kept, and no pin that was already
      matched on the map is added again. */
  lemma {:induction false} UpdateMatchesNewPins(onMap: seq<Pin>, newPins: seq<Pin>)
    ensures forall p :: p in Updated(onMap, newPins) ==> Contains(newPins, p)
    ensures forall q :: q in newPins ==> Contains(Updated(onMap, newPins), q)
    ensures forall p :: p in onMap && Contains(newPins, p) ==> p in Updated(onMap, newPins)
    ensures forall q :: q in Unmatched(newPins, onMap) ==> !Contains(onMap, q)
  {
    var toRemove := Unmatched(onMap, newPins);
    var toAdd := Unmatched(newPins, onMap);
    var kept := Without(onMap, toRemove);
    assert Updated(onMap, newPins) == kept + toAdd;
    forall p | p in kept + toAdd ensures Contains(newPins, p) {
      if p in kept {
        assert p in onMap && p !in toRemove;
      } else {
        assert p in newPins && PinEqual(p, p);
      }
    }
    forall q | q in newPins ensures Contains(kept + toAdd, q) {
      if Contains(onMap, q) {
        var p :| p in onMap && PinEqual(p, q);
        assert PinEqual(q, p);
        assert Contains(newPins, p);
        assert p in kept;
      } else {
        assert q in toAdd && PinEqual(q, q);
      }
    }
  }

  datatype UserTrackingMode = NoTracking | Follow | FollowWithHeading

  /** The mode `toggleLocationMode` switches to. */
  function NextTrackingMode(m: UserTrackingMode): (n: UserTrackingMode)
    ensures n != m
    ensures m == NoTracking ==> n == Follow
    ensures m == Follow ==> n == FollowWithHeading
    ensures m == FollowWithHeading ==> n == NoTracking
  {
    match m
    case NoTracking => Follow
    case Follow => FollowWithHeading
    case FollowWithHeading => NoTracking
  }

  /** Three toggles bring back the mode one started from. */
  lemma ThreeTogglesRestore(m: UserTrackingMode)
    ensures NextTrackingMode(NextTrackingMode(NextTrackingMode(m))) == m
  {
  }

  /** The map screen's state: the point annotations on the map view, the
      one-shot zoom flag, the tracking mode and the activities last shown. */
  class MapViewController {
    var annotations: seq<Pin>
    var shouldZoomToPins: bool
    var userTrackingMode: UserTrackingMode
    var activities: seq<TripActivity>

    constructor ()
      ensures annotations == [] && shouldZoomToPins && userTrackingMode == NoTracking && activities == []
    {
      annotations := [];
      shouldZoomToPins := true;
      userTrackingMode := NoTracking;
      activities := [];
    }

    /** Setting `activities` runs `updateActivityPins`. `zoomedTo` is the list
        `showAnnotations` was called with, on the first update only. */
    method SetActivities(list: seq<TripActivity>) returns (zoomedTo: Option<seq<Pin>>)
      modifies this
      ensures activities == list
      ensures annotations == Updated(old(annotations), PinsFor(list))
      ensures userTrackingMode == old(userTrackingMode)
      ensures !shouldZoomToPins
      ensures zoomedTo.Some? <==> old(shouldZoomToPins)
      ensures zoomedTo.Some? ==> zoomedTo.value == Unmatched(PinsFor(list), old(annotations))
    {
      activities := list;
      var newPins := PinsFor(activities);
      var pinsOnMap := annotations;
      var annotationsToRemove := Unmatched(pinsOnMap, newPins);
      var annotationsToAdd := Unmatched(newPins, pinsOnMap);
      annotations := Without(annotations, annotationsToRemove);
      annotations := annotations + annotationsToAdd;
      zoomedTo := None;
      if shouldZoomToPins {
        zoomedTo := Some(annotationsToAdd);
        shouldZoomToPins := false;
      }
    }

    method ToggleLocationMode()
      modifies this
      ensures userTrackingMode == NextTrackingMode(old(userTrackingMode))
      ensures annotations == old(annotations) && shouldZoomToPins == old(shouldZoomToPins)
      ensures activities == old(activities)
    {
      userTrackingMode := NextTrackingMode(userTrackingMode);
    }
  }
}
