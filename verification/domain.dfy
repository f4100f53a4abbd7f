/**
 * Values shared by the three screens of QueroConhecer: the saved place, the
 * opaque map coordinate and the alert that a screen presents.
 */
module Domain {

  datatype Option<+T> = None | Some(value: T)

  /** A map coordinate in degrees. Only copied and compared, never computed with. */
  datatype Coordinate = Coordinate(latitude: real, longitude: real)

  /**
   * A saved place. Equality is structural (same name, coordinates and
   * address), which is what `places.contains(place)` relies on.
   */
  datatype Place = Place(name: string, latitude: real, longitude: real, address: string)
  {
    /** The coordinate the map pins this place at. */
    function Location(): Coordinate
    {
      Coordinate(latitude, longitude)
    }
  }

  /** The buttons an alert can carry: "Cancelar", "Ok" and "Ir para ajustes". */
  datatype AlertAction = Cancel | Confirm | OpenSettings

  /** An alert as presented: its title, its message and its buttons in order. */
  datatype Alert = Alert(title: string, message: string, actions: seq<AlertAction>)

  /** The label each alert button shows. */
  function ActionTitle(a: AlertAction): (t: string)
    ensures a == Cancel ==> t == "Cancelar"
    ensures a == Confirm ==> t == "Ok"
    ensures a == OpenSettings ==> t == "Ir para ajustes"
  {
    match a
    case Cancel => "Cancelar"
    case Confirm => "Ok"
    case OpenSettings => "Ir para ajustes"
  }
}
