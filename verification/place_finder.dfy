/**
 * The place-finder screen: a geocoder outcome (for a typed address or a
 * long-pressed map point) is classified as an unknown error, "not found" or a
 * candidate place; a candidate is handed to the delegate list only when the
 * user confirms it.
 */
module PlaceFinder {
  import opened Domain
  import opened PlacesTable

  /** A geocoder result: its optional name and country, optional location and formatted address. */
  datatype Placemark = Placemark(
    name: Option<string>,
    country: Option<string>,
    location: Option<Coordinate>,
    formattedAddress: string)

  /** What a geocoder completion receives: an error, or an optional list of placemarks. */
  datatype GeocodeOutcome = GeocodeFailed | Geocoded(placemarks: Option<seq<Placemark>>)

  /** How a geocoder outcome is judged. */
  datatype Classification = UnknownError | NotFound | Candidate(place: Place)

  /** The two kinds of message the screen shows. */
  datatype FinderMessage = ErrorMessage(text: string) | Confirmation(name: string)

  /** The states a long-press gesture reports. */
  datatype GestureState = Possible | Began | Changed | Ended | Cancelled | Failed

  const UnknownErrorText: string := "Erro desconhecido"
  const NotFoundText: string := "Não foi encontrado nenhum local com esse nome"
  const UnknownName: string := "Desconhecido"

  /** `placemarks?.first`: nothing when the list is absent or empty. */
  function First(placemarks: Option<seq<Placemark>>): (r: Option<Placemark>)
    ensures r.Some? <==> placemarks.Some? && |placemarks.value| > 0
    ensures r.Some? ==> r.value == placemarks.value[0]
  {
    match placemarks
    case Some(ps) => if |ps| > 0 then Some(ps[0]) else None
    case None => None
  }

  /** The candidate's name: the placemark's name, else its country, else "Desconhecido". */
  function CandidateName(pm: Placemark): (r: string)
    ensures pm.name.Some? ==> r == pm.name.value
    ensures pm.name.None? && pm.country.Some? ==> r == pm.country.value
    ensures pm.name.None? && pm.country.None? ==> r == UnknownName
  {
    match pm.name
    case Some(n) => n
    case None =>
      match pm.country
      case Some(c) => c
      case None => UnknownName
  }

  /** The place built from a placemark that has a location. */
  function CandidatePlace(pm: Placemark): (p: Place)
    requires pm.location.Some?
    ensures p.Location() == pm.location.value
    ensures p.name == CandidateName(pm) && p.address == pm.formattedAddress
  {
    Place(CandidateName(pm), pm.location.value.latitude, pm.location.value.longitude, pm.formattedAddress)
  }

  /** The decision `setMapLocation` and `savePlace` make together. */
  function Classify(outcome: GeocodeOutcome): (c: Classification)
    ensures c == UnknownError <==> outcome.GeocodeFailed?
    ensures c.Candidate? <==>
      outcome.Geocoded? && First(outcome.placemarks).Some? && First(outcome.placemarks).value.location.Some?
    ensures c.Candidate? ==> c.place == CandidatePlace(First(outcome.placemarks).value)
  {
    match outcome
    case GeocodeFailed => UnknownError
    case Geocoded(ps) =>
      match First(ps)
      case None => NotFound
      case Some(pm) => if pm.location.Some? then Candidate(CandidatePlace(pm)) else NotFound
  }

  /** The message shown for each classification. */
  function MessageFor(c: Classification): (m: FinderMessage)
    ensures c == UnknownError ==> m == ErrorMessage(UnknownErrorText)
    ensures c == NotFound ==> m == ErrorMessage(NotFoundText)
    ensures c.Candidate? ==> m == Confirmation(c.place.name)
  {
    match c
    case UnknownError => ErrorMessage(UnknownErrorText)
    case NotFound => ErrorMessage(NotFoundText)
    case Candidate(p) => Confirmation(p.name)
  }

  /** `showMessage(type:)`: the alert for a message. */
  function FinderAlert(m: FinderMessage): (a: Alert)
    ensures m.Confirmation? ==> a.title == "Local encontrado" && a.message == "Deseja adicionar " + m.name + "?"
    ensures m.ErrorMessage? ==> a.title == "Erro" && a.message == m.text
    ensures |a.actions| > 0 && a.actions[0] == Cancel
    ensures OpenSettings !in a.actions
    ensures Confirm in a.actions <==> m.Confirmation?
    ensures ActionTitle(a.actions[0]) == "Cancelar"
    ensures m.Confirmation? ==> ActionTitle(a.actions[1]) == "Ok"
    ensures m.Confirmation? ==> a.actions == [Cancel, Confirm]
    ensures m.ErrorMessage? ==> a.actions == [Cancel]
  {
    match m
    case Confirmation(name) => Alert("Local encontrado", "Deseja adicionar " + name + "?", [Cancel, Confirm])
    case ErrorMessage(text) => Alert("Erro", text, [Cancel])
  }

  /** Only a candidate gets a confirmation alert, and its message names the candidate. */
  lemma OnlyCandidateOffersConfirm(outcome: GeocodeOutcome)
    ensures Confirm in FinderAlert(MessageFor(Classify(outcome))).actions <==> Classify(outcome).Candidate?
    ensures Classify(outcome).Candidate? ==>
      FinderAlert(MessageFor(Classify(outcome))).message == "Deseja adicionar " + Classify(outcome).place.name + "?"
  {
  }

  /** The name falls back to "Desconhecido" only when the placemark has neither name nor country. */
  lemma NameFallbackOrder(pm: Placemark)
    ensures CandidateName(pm) in
      (if pm.name.Some? then {pm.name.value} else {}) +
      (if pm.country.Some? then {pm.country.value} else {}) + {UnknownName}
    ensures CandidateName(pm) != UnknownName ==> pm.name.Some? || pm.country.Some?
  {
  }

  class PlaceFinderController {
    /** The candidate place of the latest successful geocode (nil until one). */
    var place: Option<Place>
    /** The list that receives confirmed places (a weak reference, so possibly nil). */
    var delegate: PlacesTableController?
    /** `viLoading.isHidden`. */
    var loadingHidden: bool
    /** Whether the activity indicator animates. */
    var animating: bool
    /** The message currently presented, if any. */
    var presented: Option<FinderMessage>
    /** The centre of the region the map was moved to for the latest candidate. */
    var regionCenter: Option<Coordinate>
    /** Whether the screen has been dismissed. */
    var dismissed: bool

    /** A presented confirmation always names the stored candidate. */
    ghost predicate Valid()
      reads this
    {
      presented.Some? && presented.value.Confirmation? ==>
        place.Some? && presented.value.name == place.value.name
    }

    constructor (delegate: PlacesTableController?)
      ensures Valid()
      ensures this.delegate == delegate && place == None && presented == None
      ensures regionCenter == None && !dismissed
    {
      this.delegate := delegate;
      place := None;
      loadingHidden := true;
      animating := false;
      presented := None;
      regionCenter := None;
      dismissed := false;
    }

    /** `load(show:)`: the loading view is hidden exactly when `show` is false. */
    method Load(show: bool)
      modifies this`loadingHidden, this`animating
      ensures loadingHidden == !show && animating == show
    {
      loadingHidden := !show;
      animating := show;
    }

    /**
     * `getLocation`: a long press starts a reverse geocode of the pressed
     * coordinate only when the gesture has just begun.
     */
    method LongPress(state: GestureState, pressed: Coordinate) returns (request: Option<Coordinate>)
      modifies this`loadingHidden, this`animating
      ensures request.Some? <==> state == Began
      ensures request.Some? ==> request.value == pressed && !loadingHidden && animating
      ensures state != Began ==> loadingHidden == old(loadingHidden) && animating == old(animating)
    {
      if state == Began {
        Load(true);
        request := Some(pressed);
      } else {
        request := None;
      }
    }

    /** `findCity`: shows the loading view and geocodes the typed address. */
    method FindCity(text: string) returns (query: string)
      modifies this`loadingHidden, this`animating
      ensures query == text && !loadingHidden && animating
    {
      Load(true);
      query := text;
    }

    /** `showMessage(type:)`: a confirmation always names the stored candidate. */
    method ShowMessage(m: FinderMessage)
      requires m.Confirmation? ==> place.Some? && m.name == place.value.name
      modifies this`presented
      ensures Valid()
      ensures presented == Some(m)
    {
      presented := Some(m);
    }

    /**
     * `savePlace(with:)`: builds the candidate from a placemark with a
     * location, moves the map to it and asks for confirmation; without a
     * placemark or a location it changes nothing and answers false.
     */
    method SavePlace(pm: Option<Placemark>) returns (saved: bool)
      requires Valid()
      modifies this`place, this`regionCenter, this`presented
      ensures Valid()
      ensures saved <==> pm.Some? && pm.value.location.Some?
      ensures saved ==> place == Some(CandidatePlace(pm.value))
      ensures saved ==> regionCenter == pm.value.location && presented == Some(Confirmation(place.value.name))
      ensures !saved ==>
        place == old(place) && regionCenter == old(regionCenter) && presented == old(presented)
    {
      if pm.None? || pm.value.location.None? {
        return false;
      }
      var p := pm.value;
      var name := CandidateName(p);
      var coordinate := p.location.value;
      place := Some(Place(name, coordinate.latitude, coordinate.longitude, p.formattedAddress));
      regionCenter := Some(coordinate);
      ShowMessage(Confirmation(place.value.name));
      saved := true;
    }

    /**
     * `setMapLocation(with:error:)`: hides the loading view first, then shows
     * the message that the outcome's classification calls for; only a
     * candidate changes the stored place.
     */
    method SetMapLocation(outcome: GeocodeOutcome)
      requires Valid()
      modifies this`loadingHidden, this`animating, this`place, this`regionCenter, this`presented
      ensures Valid()
      ensures loadingHidden && !animating
      ensures presented == Some(MessageFor(Classify(outcome)))
      ensures Classify(outcome).Candidate? ==>
        place == Some(Classify(outcome).place) && regionCenter == Some(Classify(outcome).place.Location())
      ensures !Classify(outcome).Candidate? ==> place == old(place) && regionCenter == old(regionCenter)
    {
      Load(false);
      if outcome.Geocoded? {
        var saved := SavePlace(First(outcome.placemarks));
        if !saved {
          ShowMessage(ErrorMessage(NotFoundText));
        }
      } else {
        ShowMessage(ErrorMessage(UnknownErrorText));
      }
    }

    /**
     * The user taps a button of the presented alert. "Ok" hands the stored
     * place to the delegate once and dismisses the screen; "Cancelar" only
     * closes the alert.
     */
    method Tap(action: AlertAction)
      requires Valid()
      requires presented.Some? && action in FinderAlert(presented.value).actions
      modifies this`presented, this`dismissed, delegate
      ensures Valid() && presented == None
      ensures action == Confirm ==> dismissed
      ensures action == Confirm && delegate != null ==>
        && delegate.places == AddIfAbsent(old(delegate.places), place.value)
        && delegate.saveCount == old(delegate.saveCount) + (if place.value in old(delegate.places) then 0 else 1)
        && delegate.lastSaved == (if place.value in old(delegate.places) then old(delegate.lastSaved)
                                  else Some(delegate.places))
      ensures action == Cancel ==> dismissed == old(dismissed)
      ensures action == Cancel && delegate != null ==>
        && delegate.places == old(delegate.places)
        && delegate.saveCount == old(delegate.saveCount)
        && delegate.lastSaved == old(delegate.lastSaved)
      ensures action == Confirm && delegate != null && place.value !in old(delegate.places) ==>
        delegate.showAllButton && !delegate.emptyHintShown
      ensures delegate != null && (action == Cancel || place.value in old(delegate.places)) ==>
        delegate.showAllButton == old(delegate.showAllButton) && delegate.emptyHintShown == old(delegate.emptyHintShown)
    {
      presented := None;
      if action == Confirm {
        if delegate != null {
          delegate.AddPlace(place.value);
        }
        dismissed := true;
      }
    }

    /** `close`: dismisses the screen. */
    method Close()
      modifies this`dismissed
      ensures dismissed
    {
      dismissed := true;
    }
  }
}
