/**
 * The map screen: pins the places it was given, dispatches on the location
 * authorization, guards and frames routes, replaces the point-of-interest
 * pins after a search, and picks alert texts and marker styles.
 */
module MapView {
  import opened Domain

  /** The variant tag of the app's own annotations. */
  datatype AnnotationKind = PlaceKind | PoiKind

  /**
   * An annotation on the map: one of the app's own (`PlaceAnnotation`) or
   * any other, such as the user-location dot the map adds by itself.
   */
  datatype Annotation =
    | PlaceAnnotation(kind: AnnotationKind, coordinate: Coordinate,
                      title: Option<string>, subtitle: Option<string>, address: Option<string>)
    | OtherAnnotation(coordinate: Coordinate)

  /** A local-search result: name, phone number, coordinate and formatted address. */
  datatype MapItem = MapItem(name: Option<string>, phoneNumber: Option<string>,
                             coordinate: Coordinate, formattedAddress: string)

  /** What the local-search completion receives. */
  datatype SearchOutcome = SearchFailed | NoSearchResponse | SearchResponse(items: seq<MapItem>)

  /** A drawn route line; its geometry is opaque. */
  datatype Polyline = Polyline(points: seq<Coordinate>)

  /** What the directions completion receives: an error, no response, or the routes found. */
  datatype RouteOutcome = RouteFailed | NoRouteResponse | RouteResponse(routes: seq<Polyline>)

  /** A directions request: from the user's location to the selected annotation. */
  datatype RouteRequest = RouteRequest(source: Coordinate, destination: Coordinate)

  /** The location authorization states. */
  datatype AuthorizationStatus = NotDetermined | Restricted | Denied | AuthorizedAlways | AuthorizedWhenInUse

  /** What `requestUserLocationAuthorization` does. */
  datatype AuthorizationResponse = AddTrackingButton | WarnAboutAuthorization | AskWhenInUse | DoNothing

  /** The two alerts of the map screen. */
  datatype MapMessage = RouteError | AuthorizationWarning

  datatype Tint = MainTint | PoiTint
  datatype Glyph = PlaceGlyph | PoiGlyph
  datatype DisplayPriority = DefaultHigh | Required

  /** How a marker view is configured. */
  datatype MarkerStyle = MarkerStyle(reuseIdentifier: string, tint: Tint, glyph: Glyph,
                                     priority: DisplayPriority, canShowCallout: bool)

  const AllPlacesTitle: string := "Meus lugares"

  /** True of the app's point-of-interest annotations. */
  predicate IsPoi(a: Annotation)
  {
    a.PlaceAnnotation? && a.kind == PoiKind
  }

  /** The screen title: the place's name when there is exactly one place. */
  function MapTitle(places: seq<Place>): (t: string)
    ensures |places| == 1 ==> t == places[0].name
    ensures |places| != 1 ==> t == AllPlacesTitle
  {
    if |places| == 1 then places[0].name else AllPlacesTitle
  }

  /** `addToMap`: the annotation pinned for a saved place. */
  function PlaceAnnotationFor(p: Place): (a: Annotation)
    ensures a.PlaceAnnotation? && a.kind == PlaceKind && !IsPoi(a)
    ensures a.coordinate == p.Location() && a.title == Some(p.name) && a.address == Some(p.address)
    ensures a.subtitle == None
  {
    PlaceAnnotation(PlaceKind, p.Location(), Some(p.name), None, Some(p.address))
  }

  /** The annotation made for a search result. */
  function PoiAnnotationFor(item: MapItem): (a: Annotation)
    ensures IsPoi(a) && a.coordinate == item.coordinate
    ensures a.title == item.name && a.subtitle == item.phoneNumber && a.address == Some(item.formattedAddress)
  {
    PlaceAnnotation(PoiKind, item.coordinate, item.name, item.phoneNumber, Some(item.formattedAddress))
  }

  /** One place annotation per place, in order. */
  function PlaceAnnotations(places: seq<Place>): (r: seq<Annotation>)
    ensures |r| == |places|
    ensures forall a :: a in r ==> a.PlaceAnnotation? && a.kind == PlaceKind
  {
    if places == [] then []
    else PlaceAnnotations(places[..|places| - 1]) + [PlaceAnnotationFor(places[|places| - 1])]
  }

  /** One point-of-interest annotation per search result, in order. */
  function PoiAnnotations(items: seq<MapItem>): (r: seq<Annotation>)
    ensures |r| == |items|
    ensures forall a :: a in r ==> IsPoi(a)
  {
    if items == [] then []
    else PoiAnnotations(items[..|items| - 1]) + [PoiAnnotationFor(items[|items| - 1])]
  }

  /** Every place contributes exactly one annotation, at its own position, carrying its name and address. */
  lemma {:induction false} PlaceAnnotationsAt(places: seq<Place>)
    ensures |PlaceAnnotations(places)| == |places|
    ensures forall k :: 0 <= k < |places| ==> PlaceAnnotations(places)[k] == PlaceAnnotationFor(places[k])
  {
    if places != [] {
      var init := places[..|places| - 1];
      PlaceAnnotationsAt(init);
      assert forall k :: 0 <= k < |init| ==> init[k] == places[k];
    }
  }

  /** Every search result contributes exactly one POI annotation, at its own position. */
  lemma {:induction false} PoiAnnotationsAt(items: seq<MapItem>)
    ensures |PoiAnnotations(items)| == |items|
    ensures forall k :: 0 <= k < |items| ==> PoiAnnotations(items)[k] == PoiAnnotationFor(items[k])
  {
    if items != [] {
      var init := items[..|items| - 1];
      PoiAnnotationsAt(init);
      assert forall k :: 0 <= k < |init| ==> init[k] == items[k];
    }
  }

  /** `removeAnnotations(removed)`: the annotations not among `removed`, in order. */
  function Without(annotations: seq<Annotation>, removed: seq<Annotation>): (r: seq<Annotation>)
    ensures |r| <= |annotations|
    ensures forall a :: a in r ==> a in annotations && a !in removed
  {
    if annotations == [] then []
    else if annotations[0] in removed then Without(annotations[1..], removed)
    else [annotations[0]] + Without(annotations[1..], removed)
  }

  /** Removal keeps exactly the annotations that were not removed. */
  lemma {:induction false} WithoutMembers(annotations: seq<Annotation>, removed: seq<Annotation>)
    ensures forall a :: a in Without(annotations, removed) <==> a in annotations && a !in removed
  {
    if annotations != [] {
      WithoutMembers(annotations[1..], removed);
      assert annotations == [annotations[0]] + annotations[1..];
    }
  }

  /** The annotations that are not the app's own (the route filter). */
  function NonPlaceAnnotations(annotations: seq<Annotation>): (r: seq<Annotation>)
    ensures |r| <= |annotations|
    ensures forall a :: a in r ==> a in annotations && a.OtherAnnotation?
  {
    if annotations == [] then []
    else if annotations[0].PlaceAnnotation? then NonPlaceAnnotations(annotations[1..])
    else [annotations[0]] + NonPlaceAnnotations(annotations[1..])
  }

  /** The route filter keeps exactly the annotations that are not the app's own. */
  lemma {:induction false} NonPlaceAnnotationsMembers(annotations: seq<Annotation>)
    ensures forall a :: a in NonPlaceAnnotations(annotations) <==> a in annotations && a.OtherAnnotation?
  {
    if annotations != [] {
      NonPlaceAnnotationsMembers(annotations[1..]);
      assert annotations == [annotations[0]] + annotations[1..];
    }
  }

  /** The annotations a successful route is framed with: the non-place ones, then the selected one. */
  function RouteFraming(annotations: seq<Annotation>, selected: Annotation): (r: seq<Annotation>)
    ensures |r| > 0 && r[|r| - 1] == selected
    ensures forall a :: a in r <==> (a in annotations && a.OtherAnnotation?) || a == selected
  {
    NonPlaceAnnotationsMembers(annotations);
    NonPlaceAnnotations(annotations) + [selected]
  }

  /** `requestUserLocationAuthorization`: the response to the services switch and the status. */
  function AuthorizationDispatch(servicesEnabled: bool, status: AuthorizationStatus): (r: AuthorizationResponse)
    ensures r == AddTrackingButton <==>
      servicesEnabled && (status == AuthorizedWhenInUse || status == AuthorizedAlways)
    ensures r == WarnAboutAuthorization <==> servicesEnabled && status == Denied
    ensures r == AskWhenInUse <==> servicesEnabled && status == NotDetermined
    ensures r == DoNothing <==> !servicesEnabled || status == Restricted
  {
    if !servicesEnabled then DoNothing
    else match status
      case AuthorizedWhenInUse => AddTrackingButton
      case AuthorizedAlways => AddTrackingButton
      case Denied => WarnAboutAuthorization
      case NotDetermined => AskWhenInUse
      case Restricted => DoNothing
  }

  /**
   * The guard of `showRoute`: only "authorized when in use" lets a route be
   * requested; every other status, "authorized always" included, is refused.
   */
  predicate RouteAllowed(status: AuthorizationStatus): (r: bool)
    ensures status == NotDetermined || status == Restricted || status == Denied ==> !r
    ensures status == AuthorizedAlways ==> !r
    ensures status == AuthorizedWhenInUse ==> r
  {
    status == AuthorizedWhenInUse
  }

  /**
   * "Authorized always" gets the tracking button like "when in use", yet
   * `showRoute` refuses it.
   */
  lemma AlwaysAuthorizationCannotRoute()
    ensures AuthorizationDispatch(true, AuthorizedAlways) == AuthorizationDispatch(true, AuthorizedWhenInUse)
    ensures !RouteAllowed(AuthorizedAlways) && RouteAllowed(AuthorizedWhenInUse)
  {
  }

  /** `showMessage(type:)`: the alert for each message. */
  function MapAlert(m: MapMessage): (a: Alert)
    ensures m == AuthorizationWarning ==> a.title == "Aviso" && a.actions == [Cancel, OpenSettings]
    ensures m == RouteError ==> a.title == "Erro" && a.actions == [Cancel]
    ensures m == RouteError ==> a.message == "Não foi possível encontrar essa rota"
    ensures Confirm !in a.actions
    ensures ActionTitle(a.actions[0]) == "Cancelar"
    ensures m == AuthorizationWarning ==> ActionTitle(a.actions[1]) == "Ir para ajustes"
  {
    if m == AuthorizationWarning then
      Alert("Aviso", "Para usar os recursos de localização do App você precisa permitir o usar na tela de Ajustes",
            [Cancel, OpenSettings])
    else
      Alert("Erro", "Não foi possível encontrar essa rota", [Cancel])
  }

  /** `mapView(_:viewFor:)`: the app's own annotations get a marker styled by their kind; others the default view. */
  function MarkerStyleFor(a: Annotation): (s: Option<MarkerStyle>)
    ensures s.Some? <==> a.PlaceAnnotation?
    ensures s.Some? && a.kind == PoiKind ==>
      s.value.priority == DefaultHigh && s.value.tint == PoiTint && s.value.glyph == PoiGlyph
    ensures s.Some? && a.kind == PlaceKind ==>
      s.value.priority == Required && s.value.tint == MainTint && s.value.glyph == PlaceGlyph
    ensures s.Some? ==> s.value.canShowCallout
  {
    match a
    case OtherAnnotation(_) => None
    case PlaceAnnotation(kind, _, _, _, _) =>
      if kind == PoiKind then Some(MarkerStyle("poi", PoiTint, PoiGlyph, DefaultHigh, true))
      else Some(MarkerStyle("place", MainTint, PlaceGlyph, Required, true))
  }

  /**
   * A reused marker view is configured alike: two of the app's annotations
   * share a reuse identifier exactly when they get the same style.
   */
  lemma ReuseIdentifierDeterminesStyle(a: Annotation, b: Annotation)
    requires a.PlaceAnnotation? && b.PlaceAnnotation?
    ensures MarkerStyleFor(a).value.reuseIdentifier == MarkerStyleFor(b).value.reuseIdentifier
        <==> MarkerStyleFor(a) == MarkerStyleFor(b)
  {
  }

  class MapController {
    /** The places this screen was opened with. */
    var places: seq<Place>
    var title: string
    /** `mapView.annotations`. */
    var annotations: seq<Annotation>
    /** `mapView.overlays`. */
    var overlays: seq<Polyline>
    /** The current point-of-interest annotations. */
    var poi: seq<Annotation>
    var selected: Option<Annotation>
    /** The annotations the map was last asked to show. */
    var framed: seq<Annotation>
    var cameraCenter: Option<Coordinate>
    var trackingButtonShown: bool
    var showsUserLocation: bool
    var updatingLocation: bool
    /** How many times when-in-use permission has been asked for. */
    var permissionRequests: nat
    /** The alert presented last, if any. */
    var presented: Option<MapMessage>
    var loading: bool
    var searchBarHidden: bool
    var infoHidden: bool
    var infoName: string
    var infoAddress: string

    /** `poi` is exactly the set of POI annotations on the map. */
    ghost predicate Valid()
      reads this
    {
      && (forall a :: a in poi ==> IsPoi(a) && a in annotations)
      && (forall a :: a in annotations && IsPoi(a) ==> a in poi)
    }

    /** The screen as the list's segue leaves it: given its places, with an empty map. */
    constructor (places: seq<Place>)
      ensures Valid()
      ensures this.places == places && annotations == [] && overlays == [] && poi == []
      ensures selected == None && presented == None && permissionRequests == 0
      ensures !trackingButtonShown && !showsUserLocation && !updatingLocation && !loading
    {
      this.places := places;
      title := "";
      annotations := [];
      overlays := [];
      poi := [];
      selected := None;
      framed := [];
      cameraCenter := None;
      trackingButtonShown := false;
      showsUserLocation := false;
      updatingLocation := false;
      permissionRequests := 0;
      presented := None;
      loading := false;
      searchBarHidden := false;
      infoHidden := false;
      infoName := "";
      infoAddress := "";
    }

    /** `addToMap`: pins one place. */
    method AddToMap(p: Place)
      requires Valid()
      modifies this`annotations
      ensures Valid()
      ensures annotations == old(annotations) + [PlaceAnnotationFor(p)]
    {
      annotations := annotations + [PlaceAnnotationFor(p)];
    }

    /** `showMessage(type:)`. */
    method ShowMessage(m: MapMessage)
      modifies this`presented
      ensures presented == Some(m)
    {
      presented := Some(m);
    }

    /** `requestUserLocationAuthorization`, with the services switch and status as inputs. */
    method RequestUserLocationAuthorization(servicesEnabled: bool, status: AuthorizationStatus)
      modifies this`trackingButtonShown, this`presented, this`permissionRequests
      ensures var r := AuthorizationDispatch(servicesEnabled, status);
        && trackingButtonShown == (old(trackingButtonShown) || r == AddTrackingButton)
        && presented == (if r == WarnAboutAuthorization then Some(AuthorizationWarning) else old(presented))
        && permissionRequests == old(permissionRequests) + (if r == AskWhenInUse then 1 else 0)
    {
      if servicesEnabled {
        match status
        case AuthorizedWhenInUse => trackingButtonShown := true;
        case AuthorizedAlways => trackingButtonShown := true;
        case Denied => ShowMessage(AuthorizationWarning);
        case NotDetermined => permissionRequests := permissionRequests + 1;
        case Restricted =>
      }
    }

    /**
     * `viewDidLoad`: hides the search bar and info panel, sets the title,
     * pins every place, frames all annotations and dispatches on the
     * location authorization.
     */
    method ViewDidLoad(servicesEnabled: bool, status: AuthorizationStatus)
      requires Valid()
      modifies this`searchBarHidden, this`infoHidden, this`title, this`annotations, this`framed
      modifies this`trackingButtonShown, this`presented, this`permissionRequests
      ensures Valid()
      ensures searchBarHidden && infoHidden
      ensures title == MapTitle(places)
      ensures annotations == old(annotations) + PlaceAnnotations(places)
      ensures framed == annotations
      ensures var r := AuthorizationDispatch(servicesEnabled, status);
        && trackingButtonShown == (old(trackingButtonShown) || r == AddTrackingButton)
        && presented == (if r == WarnAboutAuthorization then Some(AuthorizationWarning) else old(presented))
        && permissionRequests == old(permissionRequests) + (if r == AskWhenInUse then 1 else 0)
    {
      searchBarHidden := true;
      infoHidden := true;
      if |places| == 1 {
        title := places[0].name;
      } else {
        title := AllPlacesTitle;
      }
      var i := 0;
      while i < |places|
        invariant 0 <= i <= |places|
        invariant Valid()
        invariant annotations == old(annotations) + PlaceAnnotations(places[..i])
        modifies this`annotations
      {
        AddToMap(places[i]);
        assert places[..i + 1][..i] == places[..i];
        i := i + 1;
      }
      assert places[..|places|] == places;
      framed := annotations;
      RequestUserLocationAuthorization(servicesEnabled, status);
    }

    /**
     * `showRoute`: unless the status is exactly "authorized when in use" it
     * warns and requests nothing; otherwise it asks for directions from the
     * user's location to the selected annotation.
     */
    method ShowRoute(status: AuthorizationStatus, userLocation: Option<Coordinate>) returns (request: Option<RouteRequest>)
      requires RouteAllowed(status) ==> selected.Some? && userLocation.Some?
      modifies this`presented
      ensures !RouteAllowed(status) ==> request == None && presented == Some(AuthorizationWarning)
      ensures RouteAllowed(status) ==>
        && request == Some(RouteRequest(userLocation.value, selected.value.coordinate))
        && presented == old(presented)
    {
      if status != AuthorizedWhenInUse {
        ShowMessage(AuthorizationWarning);
        return None;
      }
      request := Some(RouteRequest(userLocation.value, selected.value.coordinate));
    }

    /**
     * The directions completion: on success the first route replaces every
     * overlay and the map frames the non-place annotations with the selected
     * one; on error the route alert is shown; no response changes nothing.
     */
    method RouteCompleted(outcome: RouteOutcome)
      requires outcome.RouteResponse? ==> |outcome.routes| > 0 && selected.Some?
      modifies this`overlays, this`framed, this`presented
      ensures outcome.RouteResponse? ==>
        && overlays == [outcome.routes[0]]
        && framed == RouteFraming(annotations, selected.value)
        && presented == old(presented)
      ensures outcome.RouteFailed? ==>
        overlays == old(overlays) && framed == old(framed) && presented == Some(RouteError)
      ensures outcome.NoRouteResponse? ==>
        overlays == old(overlays) && framed == old(framed) && presented == old(presented)
    {
      match outcome
      case RouteFailed => ShowMessage(RouteError);
      case NoRouteResponse =>
      case RouteResponse(routes) =>
        overlays := [];
        overlays := overlays + [routes[0]];
        framed := NonPlaceAnnotations(annotations) + [selected.value];
    }

    /** `showSearchBar`: toggles the search bar. */
    method ToggleSearchBar()
      modifies this`searchBarHidden
      ensures searchBarHidden == !old(searchBarHidden)
    {
      searchBarHidden := !searchBarHidden;
    }

    /** `searchBarSearchButtonClicked`: hides the bar and starts the loading indicator. */
    method SearchButtonClicked()
      modifies this`searchBarHidden, this`loading
      ensures searchBarHidden && loading
    {
      searchBarHidden := true;
      loading := true;
    }

    /**
     * The local-search completion: the loading indicator stops on every
     * path; a response replaces the old POI annotations by one per result,
     * in order, adds them to the map and frames them.
     */
    method SearchCompleted(outcome: SearchOutcome)
      requires Valid()
      modifies this`annotations, this`poi, this`framed, this`loading
      ensures Valid() && !loading
      ensures outcome.SearchResponse? ==>
        && poi == PoiAnnotations(outcome.items)
        && annotations == Without(old(annotations), old(poi)) + poi
        && framed == poi
      ensures !outcome.SearchResponse? ==>
        annotations == old(annotations) && poi == old(poi) && framed == old(framed)
    {
      if outcome.SearchResponse? {
        var items := outcome.items;
        WithoutMembers(annotations, poi);
        annotations := Without(annotations, poi);
        poi := [];
        var i := 0;
        while i < |items|
          invariant 0 <= i <= |items|
          invariant poi == PoiAnnotations(items[..i])
          invariant annotations == Without(old(annotations), old(poi))
        {
          poi := poi + [PoiAnnotationFor(items[i])];
          assert items[..i + 1][..i] == items[..i];
          i := i + 1;
        }
        assert items[..|items|] == items;
        PoiAnnotationsAt(items);
        annotations := annotations + poi;
        framed := poi;
      }
      loading := false;
    }

    /** `didChangeAuthorization`: an authorized status turns on location tracking and its button. */
    method DidChangeAuthorization(status: AuthorizationStatus)
      modifies this`showsUserLocation, this`trackingButtonShown, this`updatingLocation
      ensures status == AuthorizedAlways || status == AuthorizedWhenInUse ==>
        showsUserLocation && trackingButtonShown && updatingLocation
      ensures !(status == AuthorizedAlways || status == AuthorizedWhenInUse) ==>
        && showsUserLocation == old(showsUserLocation)
        && trackingButtonShown == old(trackingButtonShown)
        && updatingLocation == old(updatingLocation)
    {
      if status == AuthorizedAlways || status == AuthorizedWhenInUse {
        showsUserLocation := true;
        trackingButtonShown := true;
        updatingLocation := true;
      }
    }

    /**
     * `mapView(_:didSelect:)`: centres the camera on the annotation, makes it
     * the selected one and shows its name and address in the info panel.
     */
    method DidSelect(a: Annotation)
      requires a.PlaceAnnotation? && a.title.Some? && a.address.Some?
      modifies this`cameraCenter, this`selected, this`infoHidden, this`infoName, this`infoAddress
      ensures cameraCenter == Some(a.coordinate) && selected == Some(a)
      ensures !infoHidden && infoName == a.title.value && infoAddress == a.address.value
    {
      cameraCenter := Some(a.coordinate);
      selected := Some(a);
      infoHidden := false;
      infoAddress := a.address.value;
      infoName := a.title.value;
    }
  }

  /**
   * After a search response the map holds exactly the annotations it had
   * that were not POIs, plus the new POIs: saved-place pins survive and no
   * stale POI remains.
   */
  lemma SearchReplacesOnlyPois(annotations: seq<Annotation>, poi: seq<Annotation>, items: seq<MapItem>)
    requires forall a :: a in poi ==> IsPoi(a)
    requires forall a :: a in annotations && IsPoi(a) ==> a in poi
    ensures forall a :: a in Without(annotations, poi) + PoiAnnotations(items) <==>
      (a in annotations && !IsPoi(a)) || a in PoiAnnotations(items)
  {
    WithoutMembers(annotations, poi);
  }
}
