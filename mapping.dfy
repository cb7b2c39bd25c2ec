/**
 * Map-side collaborators of the panel: coordinates, bounding boxes and the
 * map control's list of point-of-interest pins. Coordinates are only ever
 * compared for equality here, never computed with.
 */
module Mapping {

  /** A latitude/longitude pair. */
  datatype LatLong = LatLong(latitude: real, longitude: real)

  /** The bounds of a map view, compared by value. */
  datatype BoundingBox = BoundingBox(north: real, south: real, west: real, east: real)

  /** A point-of-interest pin: the Id of the item it stands for and where it is drawn. */
  datatype Pin = Pin(id: string, location: LatLong)

  /** The map control, reduced to the ordered list of pins drawn on it. */
  class MapControl {
    var pins: seq<Pin>

    constructor ()
      ensures pins == []
    {
      pins := [];
    }

    /** Draws one more pin on the map. */
    method AddPointOfInterestPin(pin: Pin)
      modifies this
      ensures pins == old(pins) + [pin]
    {
      pins := pins + [pin];
    }

    /** Removes every pin from the map. */
    method ClearPointOfInterestPins()
      modifies this
      ensures pins == []
    {
      pins := [];
    }
  }
}
