/**
 * The three screens wired together: the list hands places to the map and
 * is the finder's delegate; the finder hands confirmed places to the list.
 */
module Flows {
  import opened Domain
  import opened PlacesTable
  import opened PlaceFinder
  import opened MapView

  /**
   * Selecting a row opens the map on that one place: the screen is titled
   * with its name and pins it alone.
   */
  lemma {:induction false} SelectedRowOpensMapOnIt(places: seq<Place>, row: nat)
    requires row < |places|
    ensures var d := Prepare(MapSegue, PlaceSender(places[row]), places);
      && d.MapScreen?
      && MapTitle(d.places) == places[row].name
      && PlaceAnnotations(d.places) == [PlaceAnnotationFor(places[row])]
  {
    var one := [places[row]];
    assert one[..0] == [];
  }

  /**
   * "Show all" opens the map on every place, pin k being place k's pin, titled
   * with the place's name when there is one place and "Meus lugares" otherwise.
   */
  lemma ShowAllOpensMapOnAll(places: seq<Place>)
    ensures var d := Prepare(MapSegue, OtherSender, places);
      && d == MapScreen(places)
      && |PlaceAnnotations(d.places)| == |places|
      && (forall k :: 0 <= k < |places| ==> PlaceAnnotations(d.places)[k] == PlaceAnnotationFor(places[k]))
      && MapTitle(d.places) == (if |places| == 1 then places[0].name else AllPlacesTitle)
  {
    PlaceAnnotationsAt(places);
  }

  /**
   * A geocoder that answers "Paris" with one placemark yields the candidate
   * named Paris at its coordinate, and confirming it makes a list that starts
   * empty end up holding exactly that place, saved once, with "show all"
   * offered and the empty-list hint gone.
   */
  method ParisIsFoundAndSaved(address: string) returns (table: PlacesTableController)
    ensures table.places == [Place("Paris", 48.8566, 2.3522, address)]
    ensures table.saveCount == 1
    ensures table.showAllButton && !table.emptyHintShown
  {
    table := new PlacesTableController();
    var finder := new PlaceFinderController(table);
    var paris := Placemark(Some("Paris"), Some("France"), Some(Coordinate(48.8566, 2.3522)), address);
    finder.SetMapLocation(Geocoded(Some([paris])));
    assert finder.presented == Some(Confirmation("Paris"));
    finder.Tap(Confirm);
  }

  /** A geocoder that finds nothing leaves the list alone, and declining a candidate does too. */
  method NothingIsAddedWithoutConfirmation(p: Placemark) returns (table: PlacesTableController)
    ensures table.places == [] && table.saveCount == 0
  {
    table := new PlacesTableController();
    var finder := new PlaceFinderController(table);
    finder.SetMapLocation(Geocoded(None));
    assert finder.presented == Some(ErrorMessage(NotFoundText));
    finder.SetMapLocation(Geocoded(Some([p])));
    if p.location.Some? {
      assert finder.presented == Some(Confirmation(CandidateName(p)));
      finder.Tap(Cancel);
    }
  }
}
