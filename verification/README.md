# QueroConhecer — a verified model of its place logic

QueroConhecer is an iOS app for bookmarking places, seeing them on a map,
searching points of interest nearby and drawing a route to a chosen place.
Almost all of it calls UIKit and MapKit. This project models in Dafny the small
amount of logic underneath. Every platform service is an input.

- **Saved-places list** (`PlacesTable`, from `PlacesTableViewController`).
  - `places` is an ordered list.
  - Its insert skips a place that is already present, by value (`AddIfAbsent`).
  - Its delete removes one row (`RemoveAt`).
  - A save is recorded after every delete and every insert that took effect.
  - `Prepare` decides what the map is given: one place for a selected row, all places for "show all".
  - The class `PlacesTableController` holds this state. Lemmas prove:
    - inserting is idempotent;
    - both operations keep a duplicate-free list duplicate-free;
    - a deleted place is gone;
    - deleting the row an insert just added restores the list.
- **Place finder** (`PlaceFinder`, from `PlaceFinderViewController`).
  - `Classify` turns a geocoder outcome into one of three results: unknown error, not found, or a candidate `Place`.
  - The candidate's name is the placemark's name, else its country, else `"Desconhecido"`.
  - `PlaceFinderController` models the loading indicator, the stored candidate and the presented alert.
  - Tapping "Ok" hands the candidate to the delegate list's `AddPlace` once. Tapping "Cancelar" leaves the list alone.
- **Map screen** (`MapView`, from `MapViewController`).
  - It covers the title rule, one pin per place, and the location-authorization dispatch.
  - The route guard accepts only "authorized when in use".
  - A successful route replaces the overlays and frames the map as described in the table below.
  - A search response replaces the POI pins one per result, in order. Saved-place pins stay.
  - It also covers the alert texts and the marker styles.
  - `MapController` holds the map's annotations, overlays and POI list as sequences. Its invariant says that `poi` holds exactly the POI pins on the map.
- **Flows** ties the screens together:
  - selecting a row titles the map with that place;
  - the "Paris" scenario: geocode, confirm, and the list holds exactly that place, saved once;
  - a not-found result or a declined candidate adds nothing.

Swift force-unwraps and forced casts stop the program when their value is nil or of the wrong type. The model states them as preconditions:

- `segue.identifier!` needs the segue to have an identifier;
- `places[indexPath.row]` and `remove(at:)` need a valid row;
- `self.place` must be set when "Ok" is tapped, which `PlaceFinderController.Valid` guarantees;
- `route!` needs at least one route;
- `selectedAnnotation!` and `locationManager.location!` must be present;
- `as! PlaceAnnotation`, `title!` and `address!` need the selected annotation to be one of the app's pins with a title and an address. The source does not guarantee this; see `DidSelect` under "## Left out".

A missing key or a failed decode leaves `places` as it was (`PlacesTableViewController.swift:29-39`). `loadPlaces` runs only from `viewDidLoad`, while the list is still empty, so the list stays empty.

A loaded list is taken as decoded, without checking it for duplicates. So "no duplicates" is not a class invariant. It is proved to be preserved by insert and delete.

## Model

| member | source | states |
|---|---|---|
| `PlacesTable.AddIfAbsent` | QueroConhecer/PlacesTableViewController.swift:112-113 | the place is present afterwards; members are the old ones plus it; length grows by one exactly when it was absent; the old entries keep their order as a prefix and the new one is last |
| `PlacesTable.RemoveAt` | QueroConhecer/PlacesTableViewController.swift:101 | length drops by one; entries before the row keep their index, entries after it shift down by one; the multiset loses exactly the removed entry |
| `PlacesTable.AddIsIdempotent` | QueroConhecer/PlacesTableViewController.swift:112-113 | adding the same place twice equals adding it once |
| `PlacesTable.AddKeepsNoDuplicates` | QueroConhecer/PlacesTableViewController.swift:112-113 | a duplicate-free list stays duplicate-free after an insert |
| `PlacesTable.RemoveKeepsNoDuplicates` | QueroConhecer/PlacesTableViewController.swift:99-103 | a duplicate-free list stays duplicate-free after a delete |
| `PlacesTable.RemovedPlaceIsGone` | QueroConhecer/PlacesTableViewController.swift:101 | in a duplicate-free list the deleted place no longer occurs |
| `PlacesTable.RemoveUndoesAdd` | QueroConhecer/PlacesTableViewController.swift:99-116 | deleting the last row right after an effective insert gives back the original list |
| `PlacesTable.Prepare` | QueroConhecer/PlacesTableViewController.swift:41-54 | a segue other than "mapSegue" opens the finder; "mapSegue" with a place sender gives the map that one place, with any other sender the whole list |
| `PlacesTable.PlacesTableController.constructor` | QueroConhecer/PlacesTableViewController.swift:13 | the list starts empty with nothing saved |
| `PlacesTable.PlacesTableController.LoadPlaces` | QueroConhecer/PlacesTableViewController.swift:29-39 | a decoded list replaces `places` and the reloaded table recounts: "show all" exactly when the list is non-empty, the empty hint exactly when it is empty; missing data or a failed decode changes neither the list nor the two views |
| `PlacesTable.PlacesTableController.SavePlaces` | QueroConhecer/PlacesTableViewController.swift:56-59 | one more save, and it wrote the current list |
| `PlacesTable.PlacesTableController.AddPlace` | QueroConhecer/PlacesTableViewController.swift:111-117 | `places` becomes `AddIfAbsent(old places, p)`; a save happens exactly when `p` was absent, and it writes the new list, after which the reloaded table shows "show all" and hides the empty hint; a no-op insert saves nothing and leaves both views as they were |
| `PlacesTable.PlacesTableController.CommitEditing` | QueroConhecer/PlacesTableViewController.swift:99-105 | a delete of a valid row makes `places` `RemoveAt(old places, row)` and saves the new list, and the recount shows "show all" exactly when rows remain and the empty hint exactly when none do; other editing styles change nothing |
| `PlacesTable.PlacesTableController.NumberOfRows` | QueroConhecer/PlacesTableViewController.swift:70-82 | the row count is `places.count`; the "show all" button is present exactly when it is positive, the empty hint exactly when it is zero |
| `PlacesTable.PlacesTableController.SelectRow` | QueroConhecer/PlacesTableViewController.swift:95-97 | selecting row r opens the map with `[places[r]]` |
| `PlacesTable.PlacesTableController.ShowAll` | QueroConhecer/PlacesTableViewController.swift:66-68 | "show all" opens the map with the whole list |
| `PlaceFinder.First` | QueroConhecer/PlaceFinderViewController.swift:66 | `placemarks?.first` is present exactly when the list is present and non-empty, and is then its first element |
| `PlaceFinder.CandidateName` | QueroConhecer/PlaceFinderViewController.swift:80 | the name is the placemark's name if present, else its country if present, else "Desconhecido" |
| `PlaceFinder.CandidatePlace` | QueroConhecer/PlaceFinderViewController.swift:80-83 | the candidate lies at the placemark's coordinate, has the fallback name and the formatted address |
| `PlaceFinder.Classify` | QueroConhecer/PlaceFinderViewController.swift:61-92 | an error is "unknown error"; otherwise a candidate exists exactly when there is a first placemark with a location, and it is built from that placemark; every other case is "not found" |
| `PlaceFinder.MessageFor` | QueroConhecer/PlaceFinderViewController.swift:65-71 | unknown error shows "Erro desconhecido", not found shows the "not found" text, a candidate shows a confirmation naming it |
| `PlaceFinder.FinderAlert` | QueroConhecer/PlaceFinderViewController.swift:94-120 | confirmation: title "Local encontrado", message "Deseja adicionar <name>?"; error: title "Erro" with the error text; "Cancelar" always comes first; "Ok" is present exactly for a confirmation, second; no settings button; the buttons are exactly ["Cancelar", "Ok"] for a confirmation and ["Cancelar"] for an error |
| `PlaceFinder.OnlyCandidateOffersConfirm` | QueroConhecer/PlaceFinderViewController.swift:98-118 | an outcome's alert offers "Ok" exactly when the outcome is a candidate, and then names the candidate |
| `PlaceFinder.NameFallbackOrder` | QueroConhecer/PlaceFinderViewController.swift:80 | the name is one of name, country or "Desconhecido", and differs from "Desconhecido" only if a name or country was present |
| `PlaceFinder.PlaceFinderController.constructor` | QueroConhecer/PlaceFinderViewController.swift:23-24 | no candidate, no alert, the given delegate |
| `PlaceFinder.PlaceFinderController.Load` | QueroConhecer/PlaceFinderViewController.swift:122-129 | the loading view is hidden exactly when `show` is false; the indicator animates exactly when it is true |
| `PlaceFinder.PlaceFinderController.LongPress` | QueroConhecer/PlaceFinderViewController.swift:39-49 | a reverse geocode of the pressed point starts, with loading shown, only in the `.began` state; other states change nothing |
| `PlaceFinder.PlaceFinderController.FindCity` | QueroConhecer/PlaceFinderViewController.swift:51-59 | shows loading and geocodes the typed text |
| `PlaceFinder.PlaceFinderController.ShowMessage` | QueroConhecer/PlaceFinderViewController.swift:94-120 | the given message becomes the presented one; a confirmation is shown only for the stored candidate, as `savePlace` (lines 83-89) guarantees, so the screen invariant holds |
| `PlaceFinder.PlaceFinderController.SavePlace` | QueroConhecer/PlaceFinderViewController.swift:75-92 | returns true exactly when the placemark exists and has a location; then stores the candidate, centres the map on it and asks for confirmation naming it; otherwise changes nothing |
| `PlaceFinder.PlaceFinderController.SetMapLocation` | QueroConhecer/PlaceFinderViewController.swift:61-73 | loading is hidden on every outcome; the presented message is `MessageFor(Classify(outcome))`; only a candidate changes the stored place |
| `PlaceFinder.PlaceFinderController.Tap` | QueroConhecer/PlaceFinderViewController.swift:108-118 | "Ok" applies the delegate's `AddPlace` once with the stored place (the list becomes `AddIfAbsent`, saved only if new) and dismisses the screen; an effective insert saves the new list, a duplicate saves nothing; "Cancelar" leaves the delegate's list, save count and last save untouched; an effective insert leaves the delegate showing "show all" without the empty hint; "Cancelar" or a duplicate leaves both views as they were |
| `PlaceFinder.PlaceFinderController.Close` | QueroConhecer/PlaceFinderViewController.swift:131-133 | the screen is dismissed |
| `MapView.MapTitle` | QueroConhecer/MapViewController.swift:40-44 | the title is the place's name when there is exactly one place, else "Meus lugares" |
| `MapView.PlaceAnnotationFor` | QueroConhecer/MapViewController.swift:105-111 | a saved place becomes a `.place` pin at its coordinate with its name as title and its address |
| `MapView.PoiAnnotationFor` | QueroConhecer/MapViewController.swift:228-233 | a search result becomes a `.poi` pin at its coordinate with title = name, subtitle = phone, and its formatted address |
| `MapView.PlaceAnnotations` | QueroConhecer/MapViewController.swift:46-48 | the pin loop yields one `.place` pin per place |
| `MapView.PoiAnnotations` | QueroConhecer/MapViewController.swift:228-234 | the result loop yields one POI pin per search result |
| `MapView.Without` | QueroConhecer/MapViewController.swift:225 | `removeAnnotations` never grows the list and keeps only annotations that were present and not removed |
| `MapView.NonPlaceAnnotations` | QueroConhecer/MapViewController.swift:134-136 | the route filter never grows the list and keeps only annotations that are not `PlaceAnnotation`s |
| `MapView.RouteAllowed` | QueroConhecer/MapViewController.swift:118 | the route guard admits "authorized when in use" and refuses every other status, "authorized always" included |
| `Domain.ActionTitle` | QueroConhecer/PlaceFinderViewController.swift:109-113 | the buttons read "Cancelar", "Ok" and "Ir para ajustes" (the last from MapViewController.swift:94) |
| `MapView.PlaceAnnotationsAt` | QueroConhecer/MapViewController.swift:46-48 | each place contributes exactly one pin, at its own position |
| `MapView.PoiAnnotationsAt` | QueroConhecer/MapViewController.swift:228-234 | each search result contributes exactly one POI pin, at its own position |
| `MapView.WithoutMembers` | QueroConhecer/MapViewController.swift:225 | removing annotations keeps exactly those not among the removed ones |
| `MapView.NonPlaceAnnotationsMembers` | QueroConhecer/MapViewController.swift:134-136 | the route filter keeps exactly the annotations that are not `PlaceAnnotation`s |
| `MapView.RouteFraming` | QueroConhecer/MapViewController.swift:134-139 | the framed set is the non-place annotations plus the selected one, which is last |
| `MapView.AuthorizationDispatch` | QueroConhecer/MapViewController.swift:67-82 | with services on: either authorized status adds the tracking button, denied warns, not determined asks; restricted or services off do nothing (each direction of each case) |
| `MapView.AlwaysAuthorizationCannotRoute` | QueroConhecer/MapViewController.swift:118-121 | "authorized always" gets the same dispatch as "when in use", but only "when in use" passes the route guard |
| `MapView.MapAlert` | QueroConhecer/MapViewController.swift:84-103 | the authorization warning has title "Aviso" and buttons cancel plus "Ir para ajustes"; the route error has title "Erro", the route text, and cancel only |
| `MapView.MarkerStyleFor` | QueroConhecer/MapViewController.swift:159-180 | non-`PlaceAnnotation`s get the default view; POI markers get `.defaultHigh` priority, the POI tint and glyph; place markers get `.required`, the main tint and place glyph; all can show a callout |
| `MapView.ReuseIdentifierDeterminesStyle` | QueroConhecer/MapViewController.swift:164-177 | two app markers share a reuse identifier exactly when they are configured alike |
| `MapView.MapController.constructor` | QueroConhecer/MapViewController.swift:26-30 | the screen holds its places, with no annotations, overlays, POIs or selection |
| `MapView.MapController.AddToMap` | QueroConhecer/MapViewController.swift:105-111 | one `.place` pin for the place is appended |
| `MapView.MapController.ShowMessage` | QueroConhecer/MapViewController.swift:84-103 | the given message becomes the presented one |
| `MapView.MapController.RequestUserLocationAuthorization` | QueroConhecer/MapViewController.swift:67-82 | applies `AuthorizationDispatch`: tracking button, warning, one permission request, or nothing |
| `MapView.MapController.ViewDidLoad` | QueroConhecer/MapViewController.swift:32-55 | hides the search bar and info panel, sets the title rule, appends one pin per place in order, frames all annotations and applies the authorization dispatch; the POI invariant holds |
| `MapView.MapController.ShowRoute` | QueroConhecer/MapViewController.swift:117-126 | unless the status is exactly "when in use", shows the authorization warning and requests no route; otherwise requests a route from the user's location to the selected annotation |
| `MapView.MapController.RouteCompleted` | QueroConhecer/MapViewController.swift:127-145 | success: the overlays become just the first route, and the map frames `RouteFraming`; error: shows the route error; no response: changes nothing |
| `MapView.MapController.ToggleSearchBar` | QueroConhecer/MapViewController.swift:148-155 | the search bar's visibility flips |
| `MapView.MapController.SearchButtonClicked` | QueroConhecer/MapViewController.swift:210-219 | hides the search bar and starts the loading indicator |
| `MapView.MapController.SearchCompleted` | QueroConhecer/MapViewController.swift:219-239 | loading stops on every path; a response makes `poi` one POI pin per result in order, removes the old POIs from the map, adds and frames the new ones; error or no response leave pins and `poi` untouched; the POI invariant holds |
| `MapView.MapController.DidChangeAuthorization` | QueroConhecer/MapViewController.swift:244-253 | either authorized status shows the user location and tracking button and starts location updates; other statuses change nothing |
| `MapView.MapController.DidSelect` | QueroConhecer/MapViewController.swift:182-199 | centres the camera on the annotation, selects it and shows its name and address in the info panel |
| `MapView.SearchReplacesOnlyPois` | QueroConhecer/MapViewController.swift:225-235 | under the POI invariant, after a search the map holds exactly its non-POI annotations and the new POIs: saved-place pins survive, no stale POI remains |
| `Flows.SelectedRowOpensMapOnIt` | QueroConhecer/PlacesTableViewController.swift:95-96 | selecting a row opens a map titled with that place's name that has exactly that place's pin |
| `Flows.ShowAllOpensMapOnAll` | QueroConhecer/PlacesTableViewController.swift:66-67 | "show all" opens a map whose pin k is place k's pin, titled with the place's name when there is exactly one place and "Meus lugares" otherwise |
| `Flows.ParisIsFoundAndSaved` | QueroConhecer/PlaceFinderViewController.swift:61-118 | a "Paris" placemark, confirmed, makes a list that starts empty end up holding exactly Place("Paris", 48.8566, 2.3522, address), saved once, with "show all" shown and the empty hint hidden |
| `Flows.NothingIsAddedWithoutConfirmation` | QueroConhecer/PlaceFinderViewController.swift:61-73 | a not-found result and a declined candidate leave the list empty and unsaved |

## Left out

- JSON encoding and decoding and `UserDefaults` are foreign code.
  - A save is recorded as an event: a count and the list written.
  - A load takes the decoder's result as an input.
  - A save-then-load round trip is therefore not stated.
  - When encoding fails, `try?` writes nil and the key is cleared. That case is not modelled.
- The geocoder, reverse geocoder, local search and directions services are not modelled. Their completions' arguments are inputs (`GeocodeOutcome`, `SearchOutcome`, `RouteOutcome`). An error is checked before the response, as the code does.
- Asynchronous timing is not modelled. Completions run one at a time, in any order the caller chooses. A stale search response is not guarded against in the code, and the model does not guard against it either.
- Floating point is left out:
  - camera pitch and altitude;
  - the 3500 m region around a candidate;
  - converting a long-press point into a coordinate, which is an input.

  Coordinates are copied and compared only. `Place` equality is structural over reals, so Swift `Double`'s NaN ≠ NaN is not modelled.
- View code is left out, except that a table reload or row delete makes the table count its rows again, which sets the "show all" button and the empty hint. Left out are row animations, labels and layout, `configureLocationButton`, colours and glyph images (only their variant tags are kept), first-responder changes, the settings deep link, the overlay renderer, alert presentation and `didReceiveMemoryWarning`.
- `Place.getFormattedAddess` is not part of this model. The formatted address is an opaque string carried by the placemark or search result.
- `cellForRowAt` is a plain read of `places[row].name` that needs a valid row. It has no separate member.
- Map annotations are kept in insertion order. MapKit does not specify an order.
  - `removeAnnotations` removes by object identity. The model removes by value.
  - The two coincide under `MapController.Valid`: `poi` holds only POI pins, all of them on the map, and every POI pin on the map is in `poi`.
- The map inserts its own user-location annotation when `showsUserLocation` is switched on. That is platform behaviour and is not modelled. `RouteFraming` is stated for any list of annotations.
- MapView.MapController.DidSelect: requires the selected annotation to be one of the app's pins with a title and an address. The source crashes otherwise, and two reachable inputs do that. One is the user-location dot that MapKit adds once `showsUserLocation` is on: `as! PlaceAnnotation` fails (MapViewController.swift:190). The other is a search result whose name is nil: it becomes a POI without a title and `title!` fails (MapViewController.swift:198). The crash itself is not modelled.
- MapView.MapController.ShowRoute: requires a user location when routing is allowed. `locationManager.location!` (MapViewController.swift:125) is nil until the first location fix arrives, so that crash can be reached; the crash itself is not modelled.
- Deleting an out-of-range row is excluded by a precondition. The table view only reports rows it displays.
- PlacesTable.PlacesTableController.LoadPlaces: does not promise a duplicate-free list, because the code adopts whatever the decoder returns.
