/**
 * The Leaflet map the walking-buddy page draws into, reduced to what the page
 * relies on: a set of live marker layers and the current view. Tiles, popups
 * opening and the DOM are not part of it.
 */
module MapLayers {

  /** A point as Leaflet takes it: `[latitude, longitude]`. */
  datatype Coord = Coord(lat: real, lon: real)

  /** What a marker's popup says: the self marker's fixed label, or a buddy's id and distance. */
  datatype Popup = YouAreHere | BuddyInfo(userId: string, distanceKm: real)

  /** The visible part of the map: its centre and zoom level. */
  datatype View = View(center: Coord, zoom: nat)

  /** The page opens centred on the Laurier campus at zoom 14. */
  const Laurier: Coord := Coord(43.4731, -80.5267)
  const InitialZoom: nat := 14

  /** A marker handle (`L.marker(...)`). Its position and popup never change after creation. */
  class Marker {
    const at: Coord
    const popup: Popup

    constructor (at: Coord, popup: Popup)
      ensures this.at == at && this.popup == popup
    {
      this.at := at;
      this.popup := popup;
    }
  }

  /** The map (`L.map("map")`): which markers are on it, and where it looks. */
  class MapSurface {
    var layers: set<Marker>
    var view: View

    constructor ()
      ensures layers == {} && view == View(Laurier, InitialZoom)
    {
      layers := {};
      view := View(Laurier, InitialZoom);
    }

    /** `L.marker(at).addTo(map).bindPopup(...)`: a new marker, now on the map. */
    method Place(at: Coord, popup: Popup) returns (m: Marker)
      modifies this
      ensures fresh(m) && m.at == at && m.popup == popup
      ensures layers == old(layers) + {m} && view == old(view)
    {
      m := new Marker(at, popup);
      layers := layers + {m};
    }

    /** `map.removeLayer(m)`: takes `m` off the map; a marker not on it is ignored. */
    method RemoveLayer(m: Marker)
      modifies this
      ensures layers == old(layers) - {m} && view == old(view)
    {
      layers := layers - {m};
    }

    /** `map.setView(center, zoom)`. */
    method SetView(center: Coord, zoom: nat)
      modifies this
      ensures view == View(center, zoom) && layers == old(layers)
    {
      view := View(center, zoom);
    }
  }
}
