/**
  The user-location tracker: a start/stop pair of buttons around one geolocation watch,
  a status box, one user marker created on the first fix and moved afterwards, and a map
  view that is centred on the first fix after each start. The geolocation API is reduced to
  its observable effect: the set of watch ids the browser is running.
 */
module LocationTracking {
  import opened Wrappers
  import opened Text

  datatype LatLng = LatLng(lat: real, lng: real)

  /** Paris, zoom 13: the view before any fix; zoom 16 on the first fix. */
  const DefaultCoords := LatLng(48.8566, 2.3522)
  const DefaultZoom := 13
  const FirstFixZoom := 16

  /** The codes of `GeolocationPositionError`. */
  const PermissionDenied := 1
  const PositionUnavailable := 2
  const Timeout := 3

  /** The three states of the status box. */
  const StatusStates: set<string> := {"waiting", "tracking", "error"}

  const UnsupportedTitle := "Géolocalisation non disponible"
  const UnsupportedMessage := "Votre navigateur ne supporte pas l'API de géolocalisation."
  const RequestingTitle := "Demande d'autorisation..."
  const RequestingMessage :=
    "Le navigateur va vous demander l'autorisation d'accéder à votre position."
  const TrackingTitle := "Suivi actif"
  const AccuracyPrefix := "Position mise à jour avec succès (précision : "
  /** The message of a fix, with its accuracy rounded to whole metres. */
  function AccuracyMessage(roundedAccuracy: int): string {
    AccuracyPrefix + IntToString(roundedAccuracy) + "m)"
  }
  const ErrorTitle := "Erreur de géolocalisation"
  const StoppedTitle := "Suivi arrêté"
  const StoppedMessage := "Cliquez " + "sur \U{22}Démarrer le suivi\U{22} pour recommencer."

  const PermissionDeniedMessage :=
    "Vous " + "avez refusé l'accès à votre position. " +
    "Autorisez la géolocalisation dans les paramètres de votre navigateur."
  const PositionUnavailableMessage :=
    "Impossible " + "de déterminer votre position. " +
    "Vérifiez que le GPS est activé et que vous êtes dans une zone couverte."
  const TimeoutMessage := "La " + "demande de position a expiré. " + "Réessayez dans quelques instants."
  const UnknownErrorMessage := "Une erreur inconnue s'est produite."

  /** The message `errorCallback` picks for an error code. */
  function ErrorMessage(code: int): string {
    if code == PermissionDenied then PermissionDeniedMessage
    else if code == PositionUnavailable then PositionUnavailableMessage
    else if code == Timeout then TimeoutMessage
    else UnknownErrorMessage
  }

  /** Which of the four cases of the `switch` a code falls in (0 for `default`). */
  function ErrorKind(code: int): (k: int)
    ensures 0 <= k <= 3
  {
    if code == PermissionDenied || code == PositionUnavailable || code == Timeout then code
    else 0
  }

  /** The four cases give four different messages, none of them the stopped message. (The
      messages are written with their first word apart: the proof reads only first letters.) */
  lemma ErrorMessagesDistinct(c1: int, c2: int)
    ensures ErrorMessage(c1) == ErrorMessage(c2) <==> ErrorKind(c1) == ErrorKind(c2)
    ensures ErrorMessage(c1) != StoppedMessage
  {
    assert PermissionDeniedMessage[0] == 'V' && PositionUnavailableMessage[0] == 'I';
    assert TimeoutMessage[0] == 'L' && UnknownErrorMessage[0] == 'U' && StoppedMessage[0] == 'C';
  }

  /** `Math.round`: the nearest integer, halves rounded up. */
  function MathRound(x: real): (r: int)
    ensures (r as real) - 0.5 <= x < (r as real) + 0.5
  {
    (x + 0.5).Floor
  }

  /** The icon `updateStatus` shows for a state; another state leaves the icon as it was. */
  function StatusIcon(state: string, previous: string): string {
    if state == "waiting" then "⏳"
    else if state == "tracking" then "✅"
    else if state == "error" then "❌"
    else previous
  }

  class Tracker {
    var watchId: Option<int>
    /** The ids of the watches the browser is running. */
    var activeWatches: set<int>
    /** `userMarker`: its position, or null. */
    var userMarker: Option<LatLng>
    /** The number of user markers added to the map. */
    var markersCreated: nat
    var isFirstPosition: bool
    var startDisabled: bool
    var stopDisabled: bool
    /** The status box: its classes, icon, title and message. */
    var statusClasses: set<string>
    var statusIcon: string
    var statusTitle: string
    var statusMessage: string
    /** The map view. */
    var center: LatLng
    var zoom: int

    /** At most one user marker exists, and it exists once a fix has been shown. */
    predicate MarkerInvariant()
      reads this
    {
      markersCreated <= 1 && (userMarker.Some? <==> markersCreated == 1)
    }

    /** The script's variables at load; the buttons and the status box are as the page has
        them. */
    constructor (startDisabled0: bool, stopDisabled0: bool, statusClasses0: set<string>,
                 statusIcon0: string, statusTitle0: string, statusMessage0: string)
      ensures watchId == None && activeWatches == {} && isFirstPosition
      ensures userMarker == None && markersCreated == 0 && MarkerInvariant()
      ensures center == DefaultCoords && zoom == DefaultZoom
      ensures startDisabled == startDisabled0 && stopDisabled == stopDisabled0
      ensures statusClasses == statusClasses0 && statusIcon == statusIcon0
      ensures statusTitle == statusTitle0 && statusMessage == statusMessage0
    {
      watchId := None;
      activeWatches := {};
      userMarker := None;
      markersCreated := 0;
      isFirstPosition := true;
      startDisabled := startDisabled0;
      stopDisabled := stopDisabled0;
      statusClasses := statusClasses0;
      statusIcon := statusIcon0;
      statusTitle := statusTitle0;
      statusMessage := statusMessage0;
      center := DefaultCoords;
      zoom := DefaultZoom;
    }

    /** `updateStatus`: the box carries exactly the new state among the three. */
    method UpdateStatus(state: string, title: string, message: string)
      modifies this`statusClasses, this`statusIcon, this`statusTitle, this`statusMessage
      ensures statusClasses == old(statusClasses) - StatusStates + {state}
      ensures state in StatusStates ==> statusClasses * StatusStates == {state}
      ensures statusIcon == StatusIcon(state, old(statusIcon))
      ensures statusTitle == title && statusMessage == message
    {
      statusClasses := statusClasses - StatusStates;
      statusClasses := statusClasses + {state};
      statusTitle := title;
      statusMessage := message;
      if state == "waiting" {
        statusIcon := "⏳";
      } else if state == "tracking" {
        statusIcon := "✅";
      } else if state == "error" {
        statusIcon := "❌";
      }
    }

    /** `startTracking`. `geolocationSupported` is `navigator.geolocation` being there and
        `newWatchId` the id `watchPosition` returns. */
    method StartTracking(geolocationSupported: bool, newWatchId: int)
      modifies this
      ensures !geolocationSupported ==>
                statusClasses == old(statusClasses) - StatusStates + {"error"} &&
                statusClasses * StatusStates == {"error"} && statusIcon == "❌" &&
                statusTitle == UnsupportedTitle && statusMessage == UnsupportedMessage &&
                watchId == old(watchId) && activeWatches == old(activeWatches) &&
                startDisabled == old(startDisabled) && stopDisabled == old(stopDisabled)
      ensures geolocationSupported ==>
                statusClasses == old(statusClasses) - StatusStates + {"waiting"} &&
                statusClasses * StatusStates == {"waiting"} && statusIcon == "⏳" &&
                statusTitle == RequestingTitle && statusMessage == RequestingMessage &&
                watchId == Some(newWatchId) && activeWatches == old(activeWatches) + {newWatchId} &&
                startDisabled && !stopDisabled
      ensures userMarker == old(userMarker) && markersCreated == old(markersCreated)
      ensures isFirstPosition == old(isFirstPosition)
      ensures center == old(center) && zoom == old(zoom)
    {
      if !geolocationSupported {
        UpdateStatus("error", UnsupportedTitle, UnsupportedMessage);
        return;
      }
      UpdateStatus("waiting", RequestingTitle, RequestingMessage);
      startDisabled := true;
      stopDisabled := false;
      watchId := Some(newWatchId);
      activeWatches := activeWatches + {newWatchId};
    }

    /** `stopTracking`: the watch is cleared when there is one; everything else is reset to
        the same values whatever the state, so a second stop changes nothing. */
    method StopTracking()
      modifies this
      ensures watchId == None
      ensures activeWatches ==
                (if old(watchId).Some? then old(activeWatches) - {old(watchId).value}
                 else old(activeWatches))
      ensures !startDisabled && stopDisabled && isFirstPosition
      ensures statusClasses * StatusStates == {"waiting"}
      ensures statusClasses == old(statusClasses) - StatusStates + {"waiting"}
      ensures statusIcon == "⏳" && statusTitle == StoppedTitle && statusMessage == StoppedMessage
      ensures userMarker == old(userMarker) && markersCreated == old(markersCreated)
      ensures center == old(center) && zoom == old(zoom)
    {
      if watchId.Some? {
        activeWatches := activeWatches - {watchId.value};
        watchId := None;
      }
      UpdateStatus("waiting", StoppedTitle, StoppedMessage);
      startDisabled := false;
      stopDisabled := true;
      isFirstPosition := true;
    }

    /** `updateMapMarker`: the first call creates the marker, later calls move it. */
    method UpdateMapMarker(position: LatLng)
      requires MarkerInvariant()
      modifies this`userMarker, this`markersCreated
      ensures MarkerInvariant() && userMarker == Some(position)
      ensures markersCreated == 1
    {
      if userMarker.None? {
        userMarker := Some(position);
        markersCreated := markersCreated + 1;
      } else {
        userMarker := Some(position);
      }
    }

    /** `successCallback` for a fix at `position` with `accuracy` metres. The panel of
        coordinates is not modelled. */
    method SuccessCallback(position: LatLng, accuracy: real)
      requires MarkerInvariant()
      modifies this
      ensures MarkerInvariant() && userMarker == Some(position)
      ensures statusClasses == old(statusClasses) - StatusStates + {"tracking"}
      ensures statusClasses * StatusStates == {"tracking"} && statusTitle == TrackingTitle
      ensures statusIcon == "✅" && markersCreated == 1
      ensures statusMessage == AccuracyMessage(MathRound(accuracy))
      ensures !isFirstPosition
      ensures old(isFirstPosition) ==> center == position && zoom == FirstFixZoom
      ensures !old(isFirstPosition) ==> center == old(center) && zoom == old(zoom)
      ensures watchId == old(watchId) && activeWatches == old(activeWatches)
      ensures startDisabled == old(startDisabled) && stopDisabled == old(stopDisabled)
    {
      UpdateStatus("tracking", TrackingTitle, AccuracyMessage(MathRound(accuracy)));
      UpdateMapMarker(position);
      if isFirstPosition {
        center := position;
        zoom := FirstFixZoom;
        isFirstPosition := false;
      }
    }

    /** `errorCallback` as written: the error is put in the status box and then tracking is
        stopped, whose own status update replaces it, so the box ends up saying that tracking
        stopped and the error message is gone. */
    method ErrorCallback(code: int)
      modifies this
      ensures watchId == None && !startDisabled && stopDisabled && isFirstPosition
      ensures activeWatches ==
                (if old(watchId).Some? then old(activeWatches) - {old(watchId).value}
                 else old(activeWatches))
      ensures statusClasses == old(statusClasses) - StatusStates + {"waiting"}
      ensures statusClasses * StatusStates == {"waiting"} && statusIcon == "⏳"
      ensures statusTitle == StoppedTitle && statusMessage == StoppedMessage
      ensures statusMessage != ErrorMessage(code)
      ensures userMarker == old(userMarker) && markersCreated == old(markersCreated)
      ensures center == old(center) && zoom == old(zoom)
    {
      UpdateStatus("error", ErrorTitle, ErrorMessage(code));
      StopTracking();
      ErrorMessagesDistinct(code, code);
    }

    /** `errorCallback` with the stop first: tracking stops the same way and the box shows
        the error and its message. */
    method ErrorCallbackStopFirst(code: int)
      modifies this
      ensures watchId == None && !startDisabled && stopDisabled && isFirstPosition
      ensures activeWatches ==
                (if old(watchId).Some? then old(activeWatches) - {old(watchId).value}
                 else old(activeWatches))
      ensures statusClasses == old(statusClasses) - StatusStates + {"error"}
      ensures statusClasses * StatusStates == {"error"}
      ensures statusIcon == "❌" && statusTitle == ErrorTitle && statusMessage == ErrorMessage(code)
      ensures userMarker == old(userMarker) && markersCreated == old(markersCreated)
      ensures center == old(center) && zoom == old(zoom)
    {
      StopTracking();
      UpdateStatus("error", ErrorTitle, ErrorMessage(code));
    }

    /** The `beforeunload` listener: the running watch is cleared; `watchId` is left as is. */
    method BeforeUnload()
      modifies this`activeWatches
      ensures activeWatches ==
                (if watchId.Some? then old(activeWatches) - {watchId.value} else old(activeWatches))
    {
      if watchId.Some? {
        activeWatches := activeWatches - {watchId.value};
      }
    }
  }

  /** Between a start and the next stop only the first fix centres the map: two fixes after a
      start leave the view on the first one at zoom 16 and the single marker on the second. */
  method FirstFixCentresOnce(t: Tracker, first: LatLng, second: LatLng, newWatchId: int)
    requires t.MarkerInvariant()
    modifies t
    ensures t.center == first && t.zoom == FirstFixZoom
    ensures t.userMarker == Some(second) && t.markersCreated == 1
    ensures t.watchId == Some(newWatchId)
  {
    t.StopTracking();
    t.StartTracking(true, newWatchId);
    t.SuccessCallback(first, 10.0);
    t.SuccessCallback(second, 10.0);
  }

  /** As written, every error path ends with the stopped status: for each of the four codes
      the status box a user sees does not carry the error. */
  method ErrorStatusLost(code: int) returns (shownTitle: string, shownState: set<string>)
    ensures shownTitle == StoppedTitle && shownState == {"waiting"}
  {
    var t := new Tracker(false, true, {}, "", "", "");
    t.StartTracking(true, 1);
    t.ErrorCallback(code);
    shownTitle := t.statusTitle;
    shownState := t.statusClasses * StatusStates;
  }

  /** With the stop first, the error is what the box shows. */
  method ErrorStatusShown(code: int) returns (shownTitle: string, shownState: set<string>, shownMessage: string)
    ensures shownTitle == ErrorTitle && shownState == {"error"} && shownMessage == ErrorMessage(code)
  {
    var t := new Tracker(false, true, {}, "", "", "");
    t.StartTracking(true, 1);
    t.ErrorCallbackStopFirst(code);
    shownTitle := t.statusTitle;
    shownState := t.statusClasses * StatusStates;
    shownMessage := t.statusMessage;
  }
}
