/**
 * The route service (backend/main.py): `POST /service/v1/route` geocodes a
 * start and a destination address with Nominatim, asks OSRM for a route
 * between them, and falls back to a straight line when OSRM fails. Nominatim
 * and OSRM are given as functions from what is sent to what comes back;
 * Python's float formatting and the haversine distance are given as functions
 * too. Only the shaping and branching of their results is modelled.
 */
module RouteService {
  import opened Wrappers

  // ---------------------------------------------------------------------------
  // Values
  // ---------------------------------------------------------------------------

  /** A `(lat, lon)` pair: what geocoding returns and what the polyline holds. */
  datatype LatLon = LatLon(lat: real, lon: real)

  /** A GeoJSON position, `[lon, lat]`, as OSRM's geometry lists it. */
  datatype Position = Position(lon: real, lat: real)

  /** An OSRM step object; the service passes it on without reading it. */
  datatype Step = Step(json: string)

  /** A leg's `steps` key: absent, present with the value null, or a list. */
  datatype StepsField = StepsAbsent | StepsNull | StepsList(list: seq<Step>)

  /** An OSRM leg. */
  datatype Leg = Leg(steps: StepsField)

  /** An OSRM route; `legs` is `None` when the key is absent or null. */
  datatype Route = Route(geometry: seq<Position>, distance: real, duration: real, legs: Option<seq<Leg>>)

  /**
   * What a GET to OSRM yields: a failure (transport error or an error status,
   * with the exception's text), or the JSON body's `code` and `routes`
   * (`None` when absent or null).
   */
  datatype OsrmReply = OsrmFailed(err: string) | OsrmBody(code: Option<string>, routes: Option<seq<Route>>)

  /** One Nominatim search result: readable coordinates, or fields that fail to convert. */
  datatype Place = Place(lat: real, lon: real) | BadPlace(err: string)

  /** What a GET to Nominatim yields: a failure with its text, or the list of results. */
  datatype NominatimReply = NominatimFailed(err: string) | NominatimResults(places: seq<Place>)

  /** A value, or the text of the exception raised instead. */
  datatype Result<T> = Ok(value: T) | Err(message: string)

  /** The request body of `POST /service/v1/route`. */
  datatype RouteReq = RouteReq(start: string, destination: string, mode: string)

  /** What `osrm_route` returns; `steps` is `None` for a JSON null. */
  datatype OsrmRoute = OsrmRoute(polyline: seq<LatLon>, distanceM: real, durationS: real, steps: Option<seq<Step>>)

  /**
   * The JSON object `get_route` returns; `durationS` is null and `error` present
   * only on fallback, and `steps` is `None` when it is null.
   */
  datatype RouteResponse = RouteResponse(
    start: string, destination: string, startCoord: LatLon, destCoord: LatLon,
    distanceM: real, durationS: Option<real>, polyline: seq<LatLon>, steps: Option<seq<Step>>,
    source: string, fallback: bool, error: Option<string>)

  /** An HTTP answer of the endpoint. */
  datatype HttpReply = HttpError(status: nat, detail: string) | Json(body: RouteResponse)

  /** An answer with the addresses sent to Nominatim and the URLs sent to OSRM, in order. */
  datatype Handled = Handled(reply: HttpReply, geocoded: seq<string>, routed: seq<string>)

  const OsrmFailedMessage: string := "OSRM route failed"
  const OsrmSource: string := "osrm"
  const FallbackSource: string := "haversine_fallback"

  // ---------------------------------------------------------------------------
  // Splitting a string at a separator, to read the OSRM path back
  // ---------------------------------------------------------------------------

  /** `s.split(sep)`: the pieces between separators, at least one. */
  function Split(s: string, sep: char): (parts: seq<string>)
    ensures |parts| > 0
  {
    if s == [] then [""]
    else if s[0] == sep then [""] + Split(s[1..], sep)
    else
      var rest := Split(s[1..], sep);
      [[s[0]] + rest[0]] + rest[1..]
  }

  lemma {:induction false} SplitNoSeparator(a: string, sep: char)
    requires sep !in a
    ensures Split(a, sep) == [a]
  {
    if a != [] {
      SplitNoSeparator(a[1..], sep);
      assert [a[0]] + a[1..] == a;
    }
  }

  lemma {:induction false} SplitAtFirst(a: string, sep: char, b: string)
    requires sep !in a
    ensures Split(a + [sep] + b, sep) == [a] + Split(b, sep)
  {
    if a == [] {
      assert a + [sep] + b == [sep] + b;
    } else {
      SplitAtFirst(a[1..], sep, b);
      assert (a + [sep] + b)[1..] == a[1..] + [sep] + b;
      assert [a[0]] + a[1..] == a;
    }
  }

  // ---------------------------------------------------------------------------
  // osrm_route
  // ---------------------------------------------------------------------------

  /** The OSRM path segment `lon,lat;lon,lat`, numbers written by `show`. */
  function CoordsSegment(from: LatLon, to: LatLon, show: real -> string): string {
    show(from.lon) + "," + show(from.lat) + ";" + show(to.lon) + "," + show(to.lat)
  }

  /** The OSRM route URL for `mode` between the two points. */
  function OsrmUrl(mode: string, from: LatLon, to: LatLon, show: real -> string): string {
    "https://router.project-osrm.org/route/v1/" + mode + "/" + CoordsSegment(from, to, show)
  }

  /**
   * Read back, the path segment holds two points, the start first, each as its
   * longitude and then its latitude (a Python float never prints ',' or ';').
   */
  lemma SegmentLonFirst(from: LatLon, to: LatLon, show: real -> string)
    requires forall x :: ',' !in show(x) && ';' !in show(x)
    ensures var points := Split(CoordsSegment(from, to, show), ';');
            |points| == 2
            && Split(points[0], ',') == [show(from.lon), show(from.lat)]
            && Split(points[1], ',') == [show(to.lon), show(to.lat)]
  {
    var p0 := show(from.lon) + "," + show(from.lat);
    var p1 := show(to.lon) + "," + show(to.lat);
    assert ';' !in p0 && ';' !in p1;
    assert CoordsSegment(from, to, show) == p0 + [';'] + p1;
    SplitAtFirst(p0, ';', p1);
    SplitNoSeparator(p1, ';');
    assert p0 == show(from.lon) + [','] + show(from.lat);
    SplitAtFirst(show(from.lon), ',', show(from.lat));
    SplitNoSeparator(show(from.lat), ',');
    assert p1 == show(to.lon) + [','] + show(to.lat);
    SplitAtFirst(show(to.lon), ',', show(to.lat));
    SplitNoSeparator(show(to.lat), ',');
  }

  /** The comprehension `[[lat, lon] for lon, lat in geometry]`. */
  function ToLatLon(geometry: seq<Position>): (poly: seq<LatLon>)
    ensures |poly| == |geometry|
    ensures forall i :: 0 <= i < |geometry| ==> poly[i].lat == geometry[i].lat && poly[i].lon == geometry[i].lon
  {
    seq(|geometry|, i requires 0 <= i < |geometry| => LatLon(geometry[i].lat, geometry[i].lon))
  }

  /** The inverse reading: a `[lat, lon]` polyline as GeoJSON positions. */
  function ToGeoJson(poly: seq<LatLon>): (geometry: seq<Position>)
    ensures |geometry| == |poly|
  {
    seq(|poly|, i requires 0 <= i < |poly| => Position(poly[i].lon, poly[i].lat))
  }

  /** Swapping loses nothing: the polyline gives back the geometry it came from. */
  lemma PolylineRoundTrip(geometry: seq<Position>)
    ensures ToGeoJson(ToLatLon(geometry)) == geometry
  {
  }

  /**
   * The steps of the first leg: an empty list when there are no legs or the
   * first leg has no `steps` key, and null when that key holds null.
   */
  function FirstLegSteps(legs: Option<seq<Leg>>): (steps: Option<seq<Step>>)
    ensures legs.None? || legs.value == [] ==> steps == Some([])
    ensures legs.Some? && legs.value != [] ==>
      match legs.value[0].steps
      case StepsList(list) => steps == Some(list)
      case StepsAbsent => steps == Some([])
      case StepsNull => steps == None
  {
    if legs.None? || legs.value == [] then Some([])
    else
      match legs.value[0].steps
      case StepsAbsent => Some([])
      case StepsNull => None
      case StepsList(list) => Some(list)
  }

  /**
   * `osrm_route`: one GET to the OSRM URL. A failed GET, a `code` other than
   * "Ok", or no routes raises; otherwise the first route gives the polyline,
   * distance, duration and steps.
   */
  function OsrmRouteOf(from: LatLon, to: LatLon, mode: string, show: real -> string,
                       osrm: string -> OsrmReply): (r: Result<OsrmRoute>)
    ensures var reply := osrm(OsrmUrl(mode, from, to, show));
      && (r.Err? <==> reply.OsrmFailed? || reply.code != Some("Ok") || reply.routes.None? || reply.routes.value == [])
      && (reply.OsrmFailed? ==> r == Err(reply.err))
      && (reply.OsrmBody? && r.Err? ==> r.message == OsrmFailedMessage)
      && (r.Ok? ==>
            var route := reply.routes.value[0];
            |r.value.polyline| == |route.geometry|
            && (forall i :: 0 <= i < |route.geometry| ==>
                  r.value.polyline[i] == LatLon(route.geometry[i].lat, route.geometry[i].lon))
            && r.value.distanceM == route.distance && r.value.durationS == route.duration
            && r.value.steps == FirstLegSteps(route.legs))
  {
    match osrm(OsrmUrl(mode, from, to, show))
    case OsrmFailed(err) => Err(err)
    case OsrmBody(code, routes) =>
      if code != Some("Ok") || routes.None? || routes.value == [] then Err(OsrmFailedMessage)
      else
        var route := routes.value[0];
        Ok(OsrmRoute(ToLatLon(route.geometry), route.distance, route.duration, FirstLegSteps(route.legs)))
  }

  // ---------------------------------------------------------------------------
  // geocode_nominatim
  // ---------------------------------------------------------------------------

  /**
   * `geocode_nominatim`: one search for `address`. A failed GET raises, an
   * empty result list raises "Geocode failed: <address>", and otherwise the
   * first result's coordinates are the answer.
   */
  function Geocode(address: string, nominatim: string -> NominatimReply): (r: Result<LatLon>)
    ensures var reply := nominatim(address);
      && (r.Ok? <==> reply.NominatimResults? && reply.places != [] && reply.places[0].Place?)
      && (reply.NominatimFailed? ==> r == Err(reply.err))
      && (reply == NominatimResults([]) ==> r == Err("Geocode failed: " + address))
      && (reply.NominatimResults? && reply.places != [] && reply.places[0].BadPlace? ==>
            r == Err(reply.places[0].err))
      && (r.Ok? ==> r.value == LatLon(reply.places[0].lat, reply.places[0].lon))
  {
    match nominatim(address)
    case NominatimFailed(err) => Err(err)
    case NominatimResults(places) =>
      if places == [] then Err("Geocode failed: " + address)
      else
        match places[0]
        case Place(lat, lon) => Ok(LatLon(lat, lon))
        case BadPlace(err) => Err(err)
  }

  // ---------------------------------------------------------------------------
  // get_route
  // ---------------------------------------------------------------------------

  /**
   * `POST /service/v1/route`. `fallbackMetres` is the haversine distance in
   * metres, rounded to a tenth, that the fallback reports.
   */
  function GetRoute(req: RouteReq, show: real -> string, nominatim: string -> NominatimReply,
                    osrm: string -> OsrmReply, fallbackMetres: (LatLon, LatLon) -> real): (h: Handled)
    // A failed start geocode is a 400 and the destination is never looked up.
    ensures Geocode(req.start, nominatim).Err? ==>
      h == Handled(HttpError(400, "Start geocode failed: " + Geocode(req.start, nominatim).message), [req.start], [])
    // A failed destination geocode is a 400, and OSRM is never asked.
    ensures Geocode(req.start, nominatim).Ok? && Geocode(req.destination, nominatim).Err? ==>
      h == Handled(HttpError(400, "Destination geocode failed: " + Geocode(req.destination, nominatim).message),
                   [req.start, req.destination], [])
    // Otherwise a JSON answer echoing the request, after exactly one OSRM call.
    ensures h.reply.HttpError? <==> Geocode(req.start, nominatim).Err? || Geocode(req.destination, nominatim).Err?
    ensures h.reply.Json? ==>
      var from, to := Geocode(req.start, nominatim).value, Geocode(req.destination, nominatim).value;
      var b := h.reply.body;
      h.geocoded == [req.start, req.destination] && h.routed == [OsrmUrl(req.mode, from, to, show)]
      && b.start == req.start && b.destination == req.destination
      && b.startCoord == from && b.destCoord == to
      && (b.fallback <==> OsrmRouteOf(from, to, req.mode, show, osrm).Err?)
    // The OSRM answer, as OSRM gave it.
    ensures h.reply.Json? && !h.reply.body.fallback ==>
      var b := h.reply.body;
      var res := OsrmRouteOf(b.startCoord, b.destCoord, req.mode, show, osrm).value;
      b.source == OsrmSource && b.distanceM == res.distanceM && b.durationS == Some(res.durationS)
      && b.polyline == res.polyline && b.steps == res.steps && b.error.None?
    // The fallback: a straight two-point line, no duration, no steps, the OSRM error.
    ensures h.reply.Json? && h.reply.body.fallback ==>
      var b := h.reply.body;
      b.source == FallbackSource && b.durationS.None? && b.steps == Some([])
      && b.polyline == [b.startCoord, b.destCoord]
      && b.distanceM == fallbackMetres(b.startCoord, b.destCoord)
      && b.error == Some(OsrmRouteOf(b.startCoord, b.destCoord, req.mode, show, osrm).message)
  {
    match Geocode(req.start, nominatim)
    case Err(e) => Handled(HttpError(400, "Start geocode failed: " + e), [req.start], [])
    case Ok(startCoord) =>
      match Geocode(req.destination, nominatim)
      case Err(e) =>
        Handled(HttpError(400, "Destination geocode failed: " + e), [req.start, req.destination], [])
      case Ok(destCoord) =>
        var geocoded := [req.start, req.destination];
        var routed := [OsrmUrl(req.mode, startCoord, destCoord, show)];
        match OsrmRouteOf(startCoord, destCoord, req.mode, show, osrm)
        case Ok(res) =>
          Handled(Json(RouteResponse(req.start, req.destination, startCoord, destCoord,
                                     res.distanceM, Some(res.durationS), res.polyline, res.steps,
                                     OsrmSource, false, None)), geocoded, routed)
        case Err(e) =>
          Handled(Json(RouteResponse(req.start, req.destination, startCoord, destCoord,
                                     fallbackMetres(startCoord, destCoord), None, [startCoord, destCoord], Some([]),
                                     FallbackSource, true, Some(e))), geocoded, routed)
  }

  /**
   * After a failed start geocode the answer depends on nothing but Nominatim's
   * reply for the start: not on its reply for the destination, nor on OSRM.
   */
  lemma StartFailureAsksNothingElse(req: RouteReq, show: real -> string,
                                    n1: string -> NominatimReply, n2: string -> NominatimReply,
                                    o1: string -> OsrmReply, o2: string -> OsrmReply,
                                    fallbackMetres: (LatLon, LatLon) -> real)
    requires n1(req.start) == n2(req.start) && Geocode(req.start, n1).Err?
    ensures GetRoute(req, show, n1, o1, fallbackMetres) == GetRoute(req, show, n2, o2, fallbackMetres)
  {
  }

  /**
   * After a failed destination geocode the answer depends on nothing but
   * Nominatim's replies for the two addresses: not on OSRM.
   */
  lemma DestinationFailureSkipsOsrm(req: RouteReq, show: real -> string,
                                    n1: string -> NominatimReply, n2: string -> NominatimReply,
                                    o1: string -> OsrmReply, o2: string -> OsrmReply,
                                    fallbackMetres: (LatLon, LatLon) -> real)
    requires n1(req.start) == n2(req.start) && n1(req.destination) == n2(req.destination)
    requires Geocode(req.start, n1).Ok? && Geocode(req.destination, n1).Err?
    ensures GetRoute(req, show, n1, o1, fallbackMetres) == GetRoute(req, show, n2, o2, fallbackMetres)
  {
  }

  /**
   * Once both addresses are geocoded, OSRM is consulted at one URL only: two
   * OSRM services that agree there give the same answer.
   */
  lemma OsrmAskedOnce(req: RouteReq, show: real -> string, nominatim: string -> NominatimReply,
                      o1: string -> OsrmReply, o2: string -> OsrmReply,
                      fallbackMetres: (LatLon, LatLon) -> real)
    requires Geocode(req.start, nominatim).Ok? && Geocode(req.destination, nominatim).Ok?
    requires var url := OsrmUrl(req.mode, Geocode(req.start, nominatim).value,
                                Geocode(req.destination, nominatim).value, show);
             o1(url) == o2(url)
    ensures GetRoute(req, show, nominatim, o1, fallbackMetres) == GetRoute(req, show, nominatim, o2, fallbackMetres)
  {
  }

  /**
   * End to end: a start address Nominatim knows nothing about is a 400 whose
   * detail carries both prefixes and the address.
   */
  lemma UnknownStartIs400(req: RouteReq, show: real -> string, nominatim: string -> NominatimReply,
                          osrm: string -> OsrmReply, fallbackMetres: (LatLon, LatLon) -> real)
    requires nominatim(req.start) == NominatimResults([])
    ensures GetRoute(req, show, nominatim, osrm, fallbackMetres).reply
         == HttpError(400, "Start geocode failed: Geocode failed: " + req.start)
  {
  }

  /**
   * End to end: when OSRM answers with a route, the response's polyline is that
   * route's geometry with each `[lon, lat]` turned into `[lat, lon]`.
   */
  lemma OsrmPolylineSwapped(req: RouteReq, show: real -> string, nominatim: string -> NominatimReply,
                            osrm: string -> OsrmReply, fallbackMetres: (LatLon, LatLon) -> real)
    requires Geocode(req.start, nominatim).Ok? && Geocode(req.destination, nominatim).Ok?
    requires var url := OsrmUrl(req.mode, Geocode(req.start, nominatim).value,
                                Geocode(req.destination, nominatim).value, show);
             osrm(url).OsrmBody? && osrm(url).code == Some("Ok")
             && osrm(url).routes.Some? && osrm(url).routes.value != []
    ensures var url := OsrmUrl(req.mode, Geocode(req.start, nominatim).value,
                               Geocode(req.destination, nominatim).value, show);
            var h := GetRoute(req, show, nominatim, osrm, fallbackMetres);
            h.reply.Json? && !h.reply.body.fallback
            && ToGeoJson(h.reply.body.polyline) == osrm(url).routes.value[0].geometry
  {
    var url := OsrmUrl(req.mode, Geocode(req.start, nominatim).value,
                       Geocode(req.destination, nominatim).value, show);
    PolylineRoundTrip(osrm(url).routes.value[0].geometry);
  }
}
