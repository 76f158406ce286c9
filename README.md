# Walking Buddy: client workflow and route service, in Dafny

This project models two parts of the Campus Navigator "Walking Buddy" prototype.

- **The walking-buddy page** (`walkingbuddy-frontend/script.js`), module `WalkingBuddy`. The page keeps three global variables: the user's coordinates, the self marker and the list of buddy markers. Two buttons drive it:
  - "Use My Location" (`getUserLocation`) replaces the self marker.
  - "Find Walking Buddy" (`findWalkingBuddy`) validates the page state, clears the buddy markers, posts a request to the matching service and draws one marker per match.

  The globals become the class `BuddyWorkflow`. The Leaflet map becomes `MapLayers.MapSurface`: a set of live marker layers plus the current view. Each marker is a `MapLayers.Marker` object whose position and popup never change. The browser's geolocation answer and the service's HTTP reply are datatype parameters, so each action is one sequential method. `findWalkingBuddy` is split at its `await` into two methods. `BeginSearch` covers the part before the request is sent. `CompleteSearch` covers the part after the reply arrives. `FindWalkingBuddy` runs one after the other.
- **The route service** (`backend/main.py`), module `RouteService`. `POST /service/v1/route` geocodes two addresses with Nominatim and asks OSRM for a route. When OSRM fails, it falls back to a straight line. This part is pure. Nominatim and OSRM are function parameters, from what is sent (an address, a URL) to what comes back. `GetRoute` also returns the list of addresses it geocoded and the URLs it routed. Three lemmas state "never asked" directly: after each failure, the answer does not depend on the services the code no longer calls.

`Wrappers` holds the `Option` type. It stands for JavaScript's `null`/`undefined` and for Python's missing keys.

The page invariant `BuddyWorkflow.Valid()` says four things:
- a self marker exists exactly when coordinates do, and it sits at them;
- the buddy markers are distinct;
- every buddy marker carries a buddy popup;
- the map shows exactly the self marker and the buddy markers, so no marker is orphaned.

Every method of the class keeps this invariant.

Three behaviours of the code the model keeps:
- A non-OK reply shows the fixed text "Error connecting to Walking Buddy service.". It does not show the server's `detail`.
- A reply with a missing `matches` array lands in the same catch block as a transport failure.
- The code has no guard against overlapping searches (see "Left out").

## Model

| member | source | states |
|---|---|---|
| `WalkingBuddy.BuddyWorkflow.constructor` | walkingbuddy-frontend/script.js:17-25 | On page load the map is centred on (43.4731, -80.5267) at zoom 14, there are no coordinates, no self marker and no buddy markers, and the page invariant holds |
| `WalkingBuddy.BuddyWorkflow.GetUserLocation` | walkingbuddy-frontend/script.js:28-51 | Without geolocation: alert, no position requested, nothing changes. On a position error: alert, nothing changes. On a position: `userCoords` is `[latitude, longitude]`. The old self marker is off the map, and a fresh one is placed there. It is the only self-labelled marker on the map. The view is centred there at zoom 15, and the buddy markers are untouched |
| `WalkingBuddy.BuddyWorkflow.SelfMarkerUnique` | walkingbuddy-frontend/script.js:39-40 | In every state that satisfies the page invariant, the self-labelled markers on the map are exactly `userMarker`: at most one, however many locations were taken |
| `WalkingBuddy.Trim` | walkingbuddy-frontend/script.js:56 | `trim()` yields the slice of the input between its leading and trailing ECMAScript white space. It is empty exactly when the input is all white space, and a non-empty result starts and ends with a non-space character |
| `WalkingBuddy.Validate` | walkingbuddy-frontend/script.js:55-64 | A search proceeds exactly when coordinates exist and the destination has a non-space character. Missing coordinates are reported first, whatever the destination. A blank destination is reported next. A search that proceeds carries the coordinates and the trimmed, non-empty destination |
| `WalkingBuddy.Interpret` | walkingbuddy-frontend/script.js:86-111 | An OK object reply with `count` exactly 0 means no buddies. An OK object reply with another count and a `matches` array gives those matches and that count. Anything else is one failure: no response, a body that is not an object, a non-OK status whatever its detail, or a missing `matches` array |
| `WalkingBuddy.DetailIgnored` | walkingbuddy-frontend/script.js:88 | Two replies that differ only in `detail` end the search the same way |
| `WalkingBuddy.BuddyWorkflow.ClearBuddyMarkers` | walkingbuddy-frontend/script.js:66-68 | Every old buddy marker is off the map and `buddyMarkers` is empty. Only the self marker stays on the map. The self marker, coordinates, status and view are unchanged |
| `WalkingBuddy.BuddyWorkflow.PlaceBuddyMarkers` | walkingbuddy-frontend/script.js:97-105 | One fresh marker per match is appended to `buddyMarkers`, in the matches' order, at the match's start coordinate with its id and distance. The earlier entries are kept. The map gains exactly the new markers |
| `WalkingBuddy.BuddyWorkflow.BeginSearch` | walkingbuddy-frontend/script.js:54-77 | A refused search alerts, sends no request and changes nothing. A search that proceeds does three things before the request exists: it takes all old buddy markers off the map, empties `buddyMarkers` and shows "Finding...". It then builds a request with id "user_" + token, the coordinates, the trimmed destination and the timestamp |
| `WalkingBuddy.BuddyWorkflow.CompleteSearch` | walkingbuddy-frontend/script.js:79-111 | "No buddies" or the connection-error status leaves markers and map as they were. Matches show "Found" with the reply's count, and exactly one fresh marker per match is added in order after the existing ones |
| `WalkingBuddy.BuddyWorkflow.FindWalkingBuddy` | walkingbuddy-frontend/script.js:54-112 | A refused search sends nothing and changes nothing. Otherwise no earlier buddy marker is left on the map, and the map shows only the self marker and the new buddy markers. The buddy markers are exactly the matches, in order, with count equal to the number of matches. On no buddies or on a failure there are none, and the status is "No buddies" or the fixed connection error |
| `MapLayers.MapSurface.Place` | walkingbuddy-frontend/script.js:40 | A marker placed on the map is new, sits at the given point with the given popup, and is added to the live layers |
| `MapLayers.MapSurface.RemoveLayer` | walkingbuddy-frontend/script.js:39 | Removing a layer takes exactly that marker off the map |
| `MapLayers.MapSurface.SetView` | walkingbuddy-frontend/script.js:41 | Recentring changes the view and no layer |
| `RouteService.SegmentLonFirst` | backend/main.py:53 | Read back at ';' and ',', the OSRM path segment is two points, start first, each written longitude then latitude |
| `RouteService.ToLatLon` | backend/main.py:67-68 | The polyline has the geometry's length and order, and each `[lon, lat]` becomes `[lat, lon]` |
| `RouteService.PolylineRoundTrip` | backend/main.py:68 | Swapping back gives the original geometry, so the conversion loses nothing |
| `RouteService.FirstLegSteps` | backend/main.py:71-74 | The steps are those of the first leg. They are an empty list when `legs` is absent, null or empty, or when the first leg has no `steps` key, and null when that key holds null |
| `RouteService.OsrmRouteOf` | backend/main.py:52-75 | `osrm_route` fails exactly when the GET fails, when `code` is not "Ok", or when `routes` is missing or empty. The text is the GET's error or "OSRM route failed". Otherwise the first route gives the swapped polyline, its distance, its duration and its first leg's steps |
| `RouteService.Geocode` | backend/main.py:35-49 | Geocoding succeeds exactly when the lookup returns a non-empty list whose first entry is readable, and then gives that entry's (lat, lon). A failed GET fails with its error text. An empty list fails with "Geocode failed: " + address. An unreadable first entry fails with its conversion error's text |
| `RouteService.GetRoute` | backend/main.py:90-132 | A failed start geocode is HTTP 400 "Start geocode failed: ..." and the destination is never geocoded. A failed destination geocode is HTTP 400 "Destination geocode failed: ..." and OSRM is never called. Otherwise exactly one OSRM call is made and the answer echoes `start` and `destination` with both coordinates. It is either OSRM's route (`source` "osrm", `fallback` false) or the fallback: `source` "haversine_fallback", `fallback` true, no duration, an empty steps list, polyline `[start_coord, dest_coord]`, the fallback distance and the OSRM error |
| `RouteService.StartFailureAsksNothingElse` | backend/main.py:93-96 | After a failed start geocode, the answer is the same whatever Nominatim says about the destination and whatever OSRM says, so neither is consulted |
| `RouteService.DestinationFailureSkipsOsrm` | backend/main.py:97-100 | After a failed destination geocode, the answer is the same whatever OSRM says, so OSRM is not consulted |
| `RouteService.OsrmAskedOnce` | backend/main.py:103-104 | Once both addresses are geocoded, the answer depends on OSRM only through its reply for the one URL built from the mode and the two coordinates |
| `RouteService.UnknownStartIs400` | backend/main.py:93-96 | A start address with no Nominatim result gives HTTP 400 with detail "Start geocode failed: Geocode failed: " + the address |
| `RouteService.OsrmPolylineSwapped` | backend/main.py:103-113 | When OSRM returns a route, the endpoint's polyline, read back as GeoJSON, is that route's geometry |

## Left out

- Leaflet and the DOM: the tile layer, binding and opening popups, `alert`, `console.error` and writing `innerText` are left out. The map is a set of marker layers with a view. The status line is the `Status` datatype, and alerts are returned values.
- Number formatting: `toFixed(5)` in the location status, the decimal rendering of the count in "Found N", and Python's float formatting in the OSRM path are left out. The route service takes the formatter as a parameter `show`, assumed never to print ',' or ';'.
- Network I/O: `fetch`, `JSON.stringify`, the endpoint address and headers are left out, along with the httpx calls, their timeouts and OSRM's fixed query parameters. The page receives the reply as a `Reply` value. The route service receives Nominatim and OSRM as functions.
- `Math.random()` and `new Date().toISOString()` are nondeterministic. They are the `token` and `timestamp` parameters of `BeginSearch`.
- Asynchrony: the geolocation callbacks and the awaited fetch are collapsed into sequential steps. The code has no guard against a second search starting while one is in flight. `CompleteSearch` appends to whatever `buddyMarkers` holds, as the code's `push` does. So a late reply to an older search would add its markers after a newer search's. The model claims no stale-result suppression and does not analyse interleavings.
- Malformed match entries are not modelled. An entry without a usable `start_coord` makes Leaflet throw in the middle of the `forEach`. Each `BuddyMatch` carries a coordinate.
- `WalkingBuddy.Interpret`: a `count` that is present but not an integer (a fraction, a string) is modelled as absent. The code would show it verbatim in "Found N", and this is not captured.
- `haversine_km` and `round(km * 1000, 1)` are floating-point work. The fallback distance is the parameter `fallbackMetres`.
- `float(...)` conversion of Nominatim fields is left out. A result whose fields do not convert is `BadPlace`, carrying the exception's text.
- OSRM route objects are assumed to carry `geometry`, `distance` and `duration`. A missing key there would raise inside `osrm_route`, and `get_route` would turn that into the fallback response. This is not modelled.
- The FastAPI app, the CORS middleware and pydantic's validation of the request body are left out. A body without `mode` gets mode "driving"; `RouteReq` always carries a mode.
- JavaScript strings are UTF-16 and Dafny's are code points. Every white-space character `trim` removes is a single code unit, so `Trim` agrees on them.
