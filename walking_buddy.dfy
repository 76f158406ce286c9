/**
 * The walking-buddy page (walkingbuddy-frontend/script.js): a workflow over
 * three page-wide variables, the user's coordinates, the self marker and the
 * buddy markers, driven by two buttons, "Use My Location" and "Find Walking
 * Buddy". The browser's geolocation answer and the matching service's HTTP
 * answer are passed in as values, so each action is one sequential step.
 */
module WalkingBuddy {
  import opened Wrappers
  import opened MapLayers

  // ---------------------------------------------------------------------------
  // Trimming the destination field (String.prototype.trim)
  // ---------------------------------------------------------------------------

  /** ECMAScript WhiteSpace and LineTerminator code points, which `trim` removes. */
  predicate IsJsSpace(c: char) {
    c == '\t' || c == '\n' || c == '\U{B}' || c == '\U{C}' || c == '\r' || c == ' '
    || c == '\U{A0}' || c == '\U{1680}' || ('\U{2000}' <= c <= '\U{200A}')
    || c == '\U{2028}' || c == '\U{2029}' || c == '\U{202F}' || c == '\U{205F}'
    || c == '\U{3000}' || c == '\U{FEFF}'
  }

  /** Drops leading white space: the result is the suffix after the leading run. */
  function TrimStart(s: string): (r: string)
    ensures |r| <= |s| && r == s[|s| - |r|..]
    ensures forall i :: 0 <= i < |s| - |r| ==> IsJsSpace(s[i])
    ensures r != [] ==> !IsJsSpace(r[0])
  {
    if s != [] && IsJsSpace(s[0]) then TrimStart(s[1..]) else s
  }

  /** Drops trailing white space: the result is the prefix before the trailing run. */
  function TrimEnd(s: string): (r: string)
    ensures |r| <= |s| && r == s[..|r|]
    ensures forall i :: |r| <= i < |s| ==> IsJsSpace(s[i])
    ensures r != [] ==> !IsJsSpace(r[|r| - 1])
  {
    if s != [] && IsJsSpace(s[|s| - 1]) then TrimEnd(s[..|s| - 1]) else s
  }

  /** `s.trim()`: the slice of `s` between its leading and its trailing white space. */
  function Trim(s: string): (r: string)
    ensures r != [] ==> !IsJsSpace(r[0]) && !IsJsSpace(r[|r| - 1])
    ensures r == [] <==> forall i :: 0 <= i < |s| ==> IsJsSpace(s[i])
    ensures exists k :: 0 <= k <= |s| - |r| && r == s[k..][..|r|]
                        && (forall i :: 0 <= i < k ==> IsJsSpace(s[i]))
                        && (forall i :: k + |r| <= i < |s| ==> IsJsSpace(s[i]))
  {
    var t := TrimStart(s);
    var r := TrimEnd(t);
    var k := |s| - |t|;
    assert r != [] ==> r[0] == t[0] && t[0] == s[k];
    assert r == s[k..][..|r|];
    assert forall i :: k + |r| <= i < |s| ==> IsJsSpace(s[i]) by {
      forall i | k + |r| <= i < |s| ensures IsJsSpace(s[i]) {
        assert s[i] == t[i - k];
      }
    }
    assert r == [] ==> t == [];
    r
  }

  // ---------------------------------------------------------------------------
  // Values exchanged with the browser and the matching service
  // ---------------------------------------------------------------------------

  /** The alerts the page raises; each ends the action that raised it. */
  datatype Alert =
    | GeolocationUnsupported  // the browser has no geolocation
    | LocationFailed          // the position request failed
    | NeedLocation            // a search before any location was obtained
    | NeedDestination         // a search with a blank destination

  /** What the status line shows. */
  datatype Status =
    | Initial                    // what the page shows before any action
    | YourLocation(at: Coord)    // the user's coordinates, to five decimals
    | Finding                    // "Finding nearby walkers..."
    | NoBuddies                  // "No walking buddies nearby right now"
    | Found(count: Option<int>)  // "Found N walking buddy match(es)!", N the reply's count field
    | ConnectionError            // "Error connecting to Walking Buddy service."

  /** The answer the browser gives to a position request. */
  datatype PositionAnswer = Fix(latitude: real, longitude: real) | PositionError

  /** `navigator.geolocation`: absent, or present with the answer it will give. */
  datatype Geolocation = Unsupported | Supported(answer: PositionAnswer)

  /** The JSON body posted to the matching service. */
  datatype MatchRequest = MatchRequest(userId: string, startCoord: Coord,
                                       destinationAddress: string, timestamp: string)

  /** One entry of the reply's `matches` array. */
  datatype BuddyMatch = BuddyMatch(userId: string, startCoord: Coord, distanceKm: real)

  /**
   * The reply body once `res.json()` has run. `NotAnObject` is a body that is
   * not JSON, or JSON that is not an object; in `Object`, a field is `None`
   * when it is absent (and, for `count`, when it is not a number; for
   * `matches`, when it is not an array).
   */
  datatype Body =
    | NotAnObject
    | Object(detail: Option<string>, count: Option<int>, matches: Option<seq<BuddyMatch>>)

  /** What `fetch` yields: a transport failure, or a response with its `ok` flag and body. */
  datatype Reply = Unreachable | Response(ok: bool, body: Body)

  /** How a completed search ends. */
  datatype Outcome = NoMatches | Matches(count: Option<int>, matches: seq<BuddyMatch>) | Failed

  /** The check the search button makes before anything else. */
  datatype Validation = Proceed(from: Coord, destination: string) | Refuse(alert: Alert)

  // ---------------------------------------------------------------------------
  // The decisions of findWalkingBuddy
  // ---------------------------------------------------------------------------

  /**
   * A search needs a location first and then a destination that is not blank;
   * the destination sent is the trimmed text.
   */
  function Validate(userCoords: Option<Coord>, destInput: string): (r: Validation)
    ensures r.Proceed? <==> userCoords.Some? && exists i :: 0 <= i < |destInput| && !IsJsSpace(destInput[i])
    ensures userCoords.None? ==> r == Refuse(NeedLocation)
    ensures userCoords.Some? && r.Refuse? ==> r.alert == NeedDestination
    ensures r.Proceed? ==> r.from == userCoords.value && r.destination == Trim(destInput) && r.destination != []
  {
    var destValue := Trim(destInput);
    if userCoords.None? then Refuse(NeedLocation)
    else if destValue == [] then Refuse(NeedDestination)
    else Proceed(userCoords.value, destValue)
  }

  /**
   * How the page reads the service's answer. A count of exactly 0 in an OK reply
   * means no buddies; an OK reply with a `matches` array otherwise gives the
   * matches. Everything else (no response, a body that is not an object, a
   * non-OK status whatever its `detail`, an OK reply without `matches`) lands in
   * the catch block and is one and the same failure.
   */
  function Interpret(reply: Reply): (r: Outcome)
    ensures r == NoMatches <==>
      reply.Response? && reply.ok && reply.body.Object? && reply.body.count == Some(0)
    ensures r.Matches? <==>
      reply.Response? && reply.ok && reply.body.Object? && reply.body.count != Some(0)
      && reply.body.matches.Some?
    ensures r.Matches? ==> r.count == reply.body.count && r.matches == reply.body.matches.value
  {
    match reply
    case Unreachable => Failed
    case Response(ok, body) =>
      match body
      case NotAnObject => Failed
      case Object(_, count, matches) =>
        if !ok then Failed
        else if count == Some(0) then NoMatches
        else if matches.None? then Failed
        else Matches(count, matches.value)
  }

  /** The reply's `detail` never changes how a search ends. */
  lemma DetailIgnored(ok: bool, d1: Option<string>, d2: Option<string>,
                      count: Option<int>, matches: Option<seq<BuddyMatch>>)
    ensures Interpret(Response(ok, Object(d1, count, matches)))
         == Interpret(Response(ok, Object(d2, count, matches)))
  {
  }

  // ---------------------------------------------------------------------------
  // The page state
  // ---------------------------------------------------------------------------

  /** The markers in `ms`, as a set. */
  ghost function Elems(ms: seq<Marker>): set<Marker> {
    set m | m in ms
  }

  /** `ms` are the markers for `matches`, one each, in order. */
  ghost predicate MarkersFor(ms: seq<Marker>, matches: seq<BuddyMatch>) {
    |ms| == |matches|
    && forall i :: 0 <= i < |ms| ==>
         ms[i].at == matches[i].startCoord
         && ms[i].popup == BuddyInfo(matches[i].userId, matches[i].distanceKm)
  }

  /** The page's global variables, with the map they draw into. */
  class BuddyWorkflow {
    const surface: MapSurface
    var userMarker: Marker?
    var buddyMarkers: seq<Marker>
    var userCoords: Option<Coord>
    var status: Status

    /** The self marker, as a set of zero or one layers. */
    ghost function SelfLayer(): set<Marker>
      reads this
    {
      if userMarker == null then {} else {userMarker}
    }

    /** Every marker on the map labelled as the user's own. */
    ghost function SelfMarkers(): set<Marker>
      reads surface
    {
      set m | m in surface.layers && m.popup == YouAreHere
    }

    /**
     * The page invariant: a self marker exists exactly when coordinates do and
     * sits at them; the buddy markers are distinct buddy-labelled markers; and
     * the map shows exactly the self marker and the buddy markers.
     */
    ghost predicate Valid()
      reads this, surface
    {
      (userMarker == null <==> userCoords.None?)
      && (userMarker != null ==> userMarker.popup == YouAreHere && userMarker.at == userCoords.value)
      && (forall i :: 0 <= i < |buddyMarkers| ==> buddyMarkers[i].popup.BuddyInfo?)
      && (forall i, j :: 0 <= i < j < |buddyMarkers| ==> buddyMarkers[i] != buddyMarkers[j])
      && surface.layers == SelfLayer() + Elems(buddyMarkers)
    }

    /** In every page state the map shows at most one self marker, the one `userMarker` holds. */
    lemma SelfMarkerUnique()
      requires Valid()
      ensures SelfMarkers() == SelfLayer() && |SelfMarkers()| <= 1
    {
      assert forall m :: m in Elems(buddyMarkers) ==> m.popup != YouAreHere;
    }

    /** Page load: the map centred on campus, no location, no markers. */
    constructor ()
      ensures Valid() && fresh(surface)
      ensures surface.view == View(Laurier, InitialZoom) && surface.layers == {}
      ensures userMarker == null && buddyMarkers == [] && userCoords == None && status == Initial
    {
      surface := new MapSurface();
      userMarker := null;
      buddyMarkers := [];
      userCoords := None;
      status := Initial;
    }

    /**
     * "Use My Location". Without geolocation it alerts and asks for nothing. A
     * position replaces the self marker (the old one is removed first), centres
     * the map on it at zoom 15 and shows it; a failed request only alerts.
     */
    method GetUserLocation(geolocation: Geolocation) returns (requested: bool, alert: Option<Alert>)
      requires Valid()
      modifies this, surface
      ensures Valid()
      ensures requested <==> geolocation.Supported?
      ensures buddyMarkers == old(buddyMarkers)
      ensures geolocation.Unsupported? ==>
        alert == Some(GeolocationUnsupported) && unchanged(this, surface)
      ensures geolocation == Supported(PositionError) ==>
        alert == Some(LocationFailed) && unchanged(this, surface)
      ensures geolocation.Supported? && geolocation.answer.Fix? ==>
        var here := Coord(geolocation.answer.latitude, geolocation.answer.longitude);
        alert == None && userCoords == Some(here) && status == YourLocation(here)
        && userMarker != null && fresh(userMarker) && userMarker.at == here
        && SelfMarkers() == {userMarker}
        && surface.layers == old(surface.layers - SelfLayer()) + {userMarker}
        && surface.view == View(here, 15)
    {
      if geolocation.Unsupported? {
        return false, Some(GeolocationUnsupported);
      }
      requested := true;
      match geolocation.answer
      case PositionError =>
        alert := Some(LocationFailed);
      case Fix(latitude, longitude) =>
        var here := Coord(latitude, longitude);
        userCoords := Some(here);
        if userMarker != null {
          surface.RemoveLayer(userMarker);
        }
        userMarker := surface.Place(here, YouAreHere);
        surface.SetView(here, 15);
        status := YourLocation(here);
        alert := None;
        assert forall m :: m in Elems(buddyMarkers) ==> m.popup != YouAreHere;
        assert SelfMarkers() == {userMarker};
    }

    /** Takes every buddy marker off the map, then forgets them all. */
    method ClearBuddyMarkers()
      requires Valid()
      modifies this, surface
      ensures Valid()
      ensures buddyMarkers == [] && surface.layers == SelfLayer()
      ensures forall m :: m in old(buddyMarkers) ==> m !in surface.layers
      ensures userMarker == old(userMarker) && userCoords == old(userCoords)
      ensures status == old(status) && surface.view == old(surface.view)
    {
      var ms := buddyMarkers;
      for i := 0 to |ms|
        invariant unchanged(this)
        invariant surface.layers == old(surface.layers) - Elems(ms[..i])
        invariant surface.view == old(surface.view)
      {
        surface.RemoveLayer(ms[i]);
        assert ms[..i + 1] == ms[..i] + [ms[i]];
        assert Elems(ms[..i + 1]) == Elems(ms[..i]) + {ms[i]};
      }
      assert ms[..|ms|] == ms;
      assert forall m :: m in Elems(ms) ==> m.popup.BuddyInfo?;
      buddyMarkers := [];
    }

    /**
     * The `forEach` over the matches: one new marker per match, in order,
     * each pushed onto `buddyMarkers` (which keeps what it held).
     */
    method PlaceBuddyMarkers(matches: seq<BuddyMatch>)
      requires Valid()
      modifies this, surface
      ensures Valid()
      ensures |buddyMarkers| == |old(buddyMarkers)| + |matches|
      ensures buddyMarkers[..|old(buddyMarkers)|] == old(buddyMarkers)
      ensures MarkersFor(buddyMarkers[|old(buddyMarkers)|..], matches)
      ensures forall m :: m in buddyMarkers[|old(buddyMarkers)|..] ==> fresh(m)
      ensures surface.layers == old(surface.layers) + Elems(buddyMarkers[|old(buddyMarkers)|..])
      ensures userMarker == old(userMarker) && userCoords == old(userCoords)
      ensures status == old(status) && surface.view == old(surface.view)
    {
      ghost var n := |buddyMarkers|;
      for k := 0 to |matches|
        invariant Valid()
        invariant userMarker == old(userMarker) && userCoords == old(userCoords)
        invariant status == old(status) && surface.view == old(surface.view)
        invariant |buddyMarkers| == n + k && buddyMarkers[..n] == old(buddyMarkers)
        invariant MarkersFor(buddyMarkers[n..], matches[..k])
        invariant forall m :: m in buddyMarkers[n..] ==> fresh(m)
        invariant surface.layers == old(surface.layers) + Elems(buddyMarkers[n..])
      {
        var buddy := matches[k];
        var m := surface.Place(buddy.startCoord, BuddyInfo(buddy.userId, buddy.distanceKm));
        assert m !in buddyMarkers;
        ghost var before := buddyMarkers;
        buddyMarkers := buddyMarkers + [m];
        assert buddyMarkers[n..] == before[n..] + [m];
        assert Elems(buddyMarkers[n..]) == Elems(before[n..]) + {m};
      }
      assert matches[..|matches|] == matches;
    }

    /**
     * The part of "Find Walking Buddy" before the request goes out: validate,
     * clear the old buddy markers, show "Finding...", build the request. The
     * request id is "user_" followed by a random token; both the token and the
     * timestamp are given.
     */
    method BeginSearch(destInput: string, token: string, timestamp: string)
      returns (request: Option<MatchRequest>, alert: Option<Alert>)
      requires Valid()
      modifies this, surface
      ensures Valid()
      ensures Validate(old(userCoords), destInput).Refuse? ==>
        request == None && alert == Some(Validate(old(userCoords), destInput).alert)
        && unchanged(this, surface)
      ensures Validate(old(userCoords), destInput).Proceed? ==>
        var v := Validate(old(userCoords), destInput);
        alert == None && request == Some(MatchRequest("user_" + token, v.from, v.destination, timestamp))
        && buddyMarkers == [] && surface.layers == SelfLayer() && status == Finding
        && (forall m :: m in old(buddyMarkers) ==> m !in surface.layers)
        && userMarker == old(userMarker) && userCoords == old(userCoords)
        && surface.view == old(surface.view)
    {
      match Validate(userCoords, destInput)
      case Refuse(a) =>
        return None, Some(a);
      case Proceed(from, destination) =>
        ClearBuddyMarkers();
        status := Finding;
        request := Some(MatchRequest("user_" + token, from, destination, timestamp));
        alert := None;
    }

    /**
     * The part of "Find Walking Buddy" after `fetch` resolves: shows the
     * outcome and, for matches, places their markers after whatever
     * `buddyMarkers` holds.
     */
    method CompleteSearch(reply: Reply)
      requires Valid()
      modifies this, surface
      ensures Valid()
      ensures userMarker == old(userMarker) && userCoords == old(userCoords)
      ensures surface.view == old(surface.view)
      ensures Interpret(reply) == NoMatches ==>
        status == NoBuddies && buddyMarkers == old(buddyMarkers) && surface.layers == old(surface.layers)
      ensures Interpret(reply) == Failed ==>
        status == ConnectionError && buddyMarkers == old(buddyMarkers)
        && surface.layers == old(surface.layers)
      ensures Interpret(reply).Matches? ==>
        var n := |old(buddyMarkers)|;
        status == Found(Interpret(reply).count)
        && |buddyMarkers| >= n && buddyMarkers[..n] == old(buddyMarkers)
        && MarkersFor(buddyMarkers[n..], Interpret(reply).matches)
        && (forall m :: m in buddyMarkers[n..] ==> fresh(m))
        && surface.layers == old(surface.layers) + Elems(buddyMarkers[n..])
    {
      match Interpret(reply)
      case NoMatches =>
        status := NoBuddies;
      case Failed =>
        status := ConnectionError;
      case Matches(count, matches) =>
        status := Found(count);
        PlaceBuddyMarkers(matches);
    }

    /**
     * "Find Walking Buddy" as one step. A refused search changes nothing and
     * sends nothing. Otherwise no earlier buddy marker survives; the buddy
     * markers are exactly the reply's matches, in order, or none at all.
     */
    method FindWalkingBuddy(destInput: string, token: string, timestamp: string, reply: Reply)
      returns (request: Option<MatchRequest>, alert: Option<Alert>)
      requires Valid()
      modifies this, surface
      ensures Valid()
      ensures Validate(old(userCoords), destInput).Refuse? ==>
        request == None && alert == Some(Validate(old(userCoords), destInput).alert)
        && unchanged(this, surface)
      ensures Validate(old(userCoords), destInput).Proceed? ==>
        var v := Validate(old(userCoords), destInput);
        alert == None && request == Some(MatchRequest("user_" + token, v.from, v.destination, timestamp))
        && userMarker == old(userMarker) && userCoords == old(userCoords)
        && surface.view == old(surface.view)
        && (forall m :: m in old(buddyMarkers) ==> m !in surface.layers)
        && (forall m :: m in buddyMarkers ==> fresh(m))
        && surface.layers == SelfLayer() + Elems(buddyMarkers)
        && match Interpret(reply)
           case NoMatches => status == NoBuddies && buddyMarkers == []
           case Failed => status == ConnectionError && buddyMarkers == []
           case Matches(count, matches) => status == Found(count) && MarkersFor(buddyMarkers, matches)
    {
      request, alert := BeginSearch(destInput, token, timestamp);
      if request.Some? {
        CompleteSearch(reply);
        assert buddyMarkers[0..] == buddyMarkers;
      }
    }
  }

  /**
   * A walk through the page: a location, then a search answered with two
   * matches, leaves one self marker and the two buddy markers in order.
   */
  method TwoMatchesScenario() {
    var page := new BuddyWorkflow();
    var requested, alert := page.GetUserLocation(Supported(Fix(43.4731, -80.5267)));
    assert alert == None && page.SelfMarkers() == {page.userMarker};
    var a := BuddyMatch("a", Coord(43.47, -80.52), 0.5);
    var b := BuddyMatch("b", Coord(43.48, -80.53), 1.2);
    var reply := Response(true, Object(None, Some(2), Some([a, b])));
    var request;
    assert "Waterloo Station"[0] == 'W';
    request, alert := page.FindWalkingBuddy("Waterloo Station", "k3x9q2a", "2025-10-27T12:00:00Z", reply);
    assert request.Some? && page.status == Found(Some(2));
    assert |page.buddyMarkers| == 2 && page.buddyMarkers[0].popup == BuddyInfo("a", 0.5);
    assert page.buddyMarkers[1].at == Coord(43.48, -80.53);
  }
}
