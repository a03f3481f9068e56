/** The route side of the pricing engine: the Google Directions request URL
    (`buildDirectionsUrl`) and the distance derived from a directions reply
    (`fetchDirections`). The HTTP exchange itself is a parameter: `provider` stands
    for the directions service answering a request URL. */
module Route {
  import opened Schema

  // ---------------------------------------------------------------------------
  // Request URL

  const DirectionsEndpoint: string := "https://maps.googleapis.com/maps/api/directions/json"
  const PlacePrefix: string := "place_id:"
  const WaypointSeparator: char := '|'

  /** `xs.join(sep)` for a one-character separator. */
  function Join(xs: seq<string>, sep: char): string
  {
    if |xs| == 0 then ""
    else if |xs| == 1 then xs[0]
    else xs[0] + [sep] + Join(xs[1..], sep)
  }

  /** `parts.join('')`. */
  function Concat(parts: seq<string>): string
  {
    if parts == [] then "" else Concat(parts[..|parts| - 1]) + parts[|parts| - 1]
  }

  /** Each waypoint written as a place reference. */
  function PlaceRefs(waypoints: seq<string>): seq<string>
  {
    seq(|waypoints|, i requires 0 <= i < |waypoints| => PlacePrefix + waypoints[i])
  }

  /** The URL segment naming the waypoints, present only when there are any;
      `encode` stands for `encodeURIComponent`. */
  function WaypointSegment(waypoints: seq<string>, encode: string -> string): string
  {
    if |waypoints| == 0 then "" else "&waypoints=" + encode(Join(PlaceRefs(waypoints), WaypointSeparator))
  }

  /** The request URL: endpoint, origin, destination, optional waypoints, key. */
  function DirectionsUrl(origin: string, destination: string, waypoints: seq<string>, apiKey: string,
                         encode: string -> string): string
  {
    DirectionsEndpoint + "?origin=place_id:" + origin + "&destination=place_id:" + destination
      + WaypointSegment(waypoints, encode) + "&key=" + apiKey
  }

  /** `buildDirectionsUrl`: pushes the URL parts one by one and joins them. */
  method BuildDirectionsUrl(origin: string, destination: string, waypoints: seq<string>, apiKey: string,
                            encode: string -> string) returns (url: string)
    ensures url == DirectionsUrl(origin, destination, waypoints, apiKey, encode)
  {
    var parts := [DirectionsEndpoint, "?origin=place_id:" + origin, "&destination=place_id:" + destination];
    ghost var joined := DirectionsEndpoint + "?origin=place_id:" + origin + "&destination=place_id:" + destination;
    assert Concat(parts) == joined by {
      ConcatThree(DirectionsEndpoint, "?origin=place_id:" + origin, "&destination=place_id:" + destination);
    }
    ghost var prefix := joined;
    if |waypoints| > 0 {
      var wp := Join(PlaceRefs(waypoints), WaypointSeparator);
      var segment := "&waypoints=" + encode(wp);
      assert Concat(parts + [segment]) == joined + segment by { ConcatSnoc(parts, segment); }
      parts := parts + [segment];
      joined := joined + segment;
    }
    assert joined == prefix + WaypointSegment(waypoints, encode);
    var key := "&key=" + apiKey;
    assert Concat(parts + [key]) == joined + key by { ConcatSnoc(parts, key); }
    parts := parts + [key];
    url := Concat(parts);
  }

  /** Joining three parts concatenates them in order. */
  lemma ConcatThree(a: string, b: string, c: string)
    ensures Concat([a, b, c]) == a + b + c
  {
    ConcatSnoc([], a);
    ConcatSnoc([a], b);
    ConcatSnoc([a, b], c);
    assert [] + [a] == [a];
    assert [a] + [b] == [a, b];
    assert [a, b] + [c] == [a, b, c];
  }

  /** Joining one more part appends it. */
  lemma ConcatSnoc(parts: seq<string>, p: string)
    ensures Concat(parts + [p]) == Concat(parts) + p
  {
    assert (parts + [p])[..|parts|] == parts;
  }

  /** Position of the first `c` in `s`, or `|s|` when there is none. */
  function IndexOf(s: string, c: char): (i: nat)
    ensures i <= |s|
    ensures i < |s| ==> s[i] == c
    ensures forall j | 0 <= j < i :: s[j] != c
  {
    if s == [] then 0
    else if s[0] == c then 0
    else 1 + IndexOf(s[1..], c)
  }

  /** Splitting at every `sep`; the inverse of `Join` on separator-free parts. */
  function Split(s: string, sep: char): seq<string>
    decreases |s|
  {
    var i := IndexOf(s, sep);
    if i == |s| then [s] else [s[..i]] + Split(s[i + 1..], sep)
  }

  /** The waypoint list is recoverable from the joined segment: joining a non-empty
      list of separator-free strings and splitting the result at the separator gives
      back the list. */
  lemma {:induction false} SplitJoin(xs: seq<string>, sep: char)
    requires |xs| > 0
    requires forall k, j | 0 <= k < |xs| && 0 <= j < |xs[k]| :: xs[k][j] != sep
    ensures Split(Join(xs, sep), sep) == xs
  {
    var s := Join(xs, sep);
    if |xs| == 1 {
      assert IndexOf(s, sep) == |s|;
    } else {
      var rest := Join(xs[1..], sep);
      assert s == xs[0] + [sep] + rest;
      var i := IndexOf(s, sep);
      assert s[|xs[0]|] == sep;
      assert forall j | 0 <= j < |xs[0]| :: s[j] == xs[0][j];
      assert i == |xs[0]|;
      assert s[..i] == xs[0];
      assert s[i + 1..] == rest;
      SplitJoin(xs[1..], sep);
      assert xs == [xs[0]] + xs[1..];
    }
  }

  /** The URL always starts at the directions endpoint and ends with the key; it
      carries a waypoint segment exactly when waypoints were given. */
  lemma UrlShape(origin: string, destination: string, waypoints: seq<string>, apiKey: string,
                 encode: string -> string)
    ensures var url := DirectionsUrl(origin, destination, waypoints, apiKey, encode);
            && url[..|DirectionsEndpoint|] == DirectionsEndpoint
            && url[|url| - |apiKey| - 5..] == "&key=" + apiKey
    ensures |waypoints| == 0 <==> WaypointSegment(waypoints, encode) == ""
  {
    var url := DirectionsUrl(origin, destination, waypoints, apiKey, encode);
    var middle := "?origin=place_id:" + origin + "&destination=place_id:" + destination
      + WaypointSegment(waypoints, encode);
    assert url == DirectionsEndpoint + middle + ("&key=" + apiKey);
  }

  /** Each place reference is the place id behind the `place_id:` prefix, so the
      joined waypoints list the place ids in order. */
  lemma WaypointRefsRecoverable(waypoints: seq<string>)
    requires |waypoints| > 0
    requires forall k, j | 0 <= k < |waypoints| && 0 <= j < |waypoints[k]| :: waypoints[k][j] != WaypointSeparator
    ensures var parts := Split(Join(PlaceRefs(waypoints), WaypointSeparator), WaypointSeparator);
            && |parts| == |waypoints|
            && forall k | 0 <= k < |waypoints| :: parts[k] == PlacePrefix + waypoints[k]
  {
    var refs := PlaceRefs(waypoints);
    forall k, j | 0 <= k < |refs| && 0 <= j < |refs[k]|
      ensures refs[k][j] != WaypointSeparator
    {
      if j >= |PlacePrefix| {
        assert refs[k][j] == waypoints[k][j - |PlacePrefix|];
      }
    }
    SplitJoin(refs, WaypointSeparator);
  }

  // ---------------------------------------------------------------------------
  // Distance

  /** One leg of a route; its distance in metres may be missing. */
  datatype Leg = Leg(distanceMeters: Option<real>)

  datatype DirectionsRoute = DirectionsRoute(legs: seq<Leg>)

  /** The provider's reply to a request: an HTTP failure, a body that does not match
      the directions schema, or the routes it lists. */
  datatype DirectionsReply = HttpFailure(status: int, statusText: string) | Malformed | Routes(routes: seq<DirectionsRoute>)

  /** Why a distance could not be derived. */
  datatype FetchError = FetchFailed(status: int, statusText: string) | SchemaRejected

  /** A leg's distance, zero when missing. */
  function LegMeters(leg: Leg): real
  {
    match leg.distanceMeters
    case None => 0.0
    case Some(m) => m
  }

  /** Sum of the legs' distances, in metres. */
  function TotalMeters(legs: seq<Leg>): real
  {
    if legs == [] then 0.0 else TotalMeters(legs[..|legs| - 1]) + LegMeters(legs[|legs| - 1])
  }

  /** The first route's legs, or none when there is no route. */
  function FirstRouteLegs(routes: seq<DirectionsRoute>): seq<Leg>
  {
    if routes == [] then [] else routes[0].legs
  }

  /** Distance in kilometres of the first route: every leg (one per waypoint hop)
      summed, zero when there are no legs. */
  function RouteKm(routes: seq<DirectionsRoute>): real
  {
    var legs := FirstRouteLegs(routes);
    if legs == [] then 0.0 else TotalMeters(legs) / 1000.0
  }

  /** A successful fetch: kilometres and the routes they came from. */
  datatype Directions = Directions(distanceKm: real, routes: seq<DirectionsRoute>)

  datatype Fetched = Fetched(value: Directions) | Failed(error: FetchError)

  /** `fetchDirections`: with a missing origin or destination, zero kilometres and no
      routes without asking the provider; otherwise the provider's reply to the
      directions URL, turned into a distance or an error. */
  function FetchDirections(origin: string, destination: string, waypoints: seq<string>, apiKey: string,
                           encode: string -> string, provider: string -> DirectionsReply): Fetched
  {
    if origin == "" || destination == "" then Fetched(Directions(0.0, []))
    else
      match provider(DirectionsUrl(origin, destination, waypoints, apiKey, encode))
      case HttpFailure(status, text) => Failed(FetchFailed(status, text))
      case Malformed => Failed(SchemaRejected)
      case Routes(routes) => Fetched(Directions(RouteKm(routes), routes))
  }

  /** Legs are summed in order, so the total over a concatenation is the sum of the
      totals. */
  lemma {:induction false} TotalMetersAppend(a: seq<Leg>, b: seq<Leg>)
    ensures TotalMeters(a + b) == TotalMeters(a) + TotalMeters(b)
    decreases |b|
  {
    if b == [] {
      assert a + b == a;
    } else {
      var c := b[..|b| - 1];
      assert (a + b)[..|a + b| - 1] == a + c;
      assert (a + b)[|a + b| - 1] == b[|b| - 1];
      TotalMetersAppend(a, c);
    }
  }

  /** The total is the sum of every leg's own distance: a one-leg route measures
      that leg, and adding a leg adds its distance. */
  lemma LegContribution(legs: seq<Leg>, leg: Leg)
    ensures TotalMeters([leg]) == LegMeters(leg)
    ensures TotalMeters(legs + [leg]) == TotalMeters(legs) + LegMeters(leg)
    ensures TotalMeters([leg] + legs) == LegMeters(leg) + TotalMeters(legs)
  {
    assert [leg][..0] == [];
    assert (legs + [leg])[..|legs|] == legs;
    TotalMetersAppend([leg], legs);
  }

  /** With no negative leg distance the route distance is not negative, and it is
      zero when there is no route or the first route has no legs. */
  lemma {:induction false} RouteKmNonNegative(routes: seq<DirectionsRoute>)
    requires forall k | 0 <= k < |FirstRouteLegs(routes)| :: LegMeters(FirstRouteLegs(routes)[k]) >= 0.0
    ensures RouteKm(routes) >= 0.0
    ensures FirstRouteLegs(routes) == [] ==> RouteKm(routes) == 0.0
  {
    LegsNonNegative(FirstRouteLegs(routes));
  }

  lemma {:induction false} LegsNonNegative(legs: seq<Leg>)
    requires forall k | 0 <= k < |legs| :: LegMeters(legs[k]) >= 0.0
    ensures TotalMeters(legs) >= 0.0
  {
    if legs != [] {
      LegsNonNegative(legs[..|legs| - 1]);
    }
  }

  /** With a missing origin or destination nothing is requested: the answer is the
      zero-distance placeholder whatever the provider would say. */
  lemma IncompleteRouteNeedsNoProvider(origin: string, destination: string, waypoints: seq<string>, apiKey: string,
                                       encode: string -> string, p1: string -> DirectionsReply,
                                       p2: string -> DirectionsReply)
    requires origin == "" || destination == ""
    ensures FetchDirections(origin, destination, waypoints, apiKey, encode, p1)
         == FetchDirections(origin, destination, waypoints, apiKey, encode, p2)
         == Fetched(Directions(0.0, []))
  {
  }

  /** A complete route fails exactly when the provider's reply is an HTTP failure or
      malformed, and otherwise reports the first route's kilometres with the routes. */
  lemma FetchOutcome(origin: string, destination: string, waypoints: seq<string>, apiKey: string,
                     encode: string -> string, provider: string -> DirectionsReply)
    requires origin != "" && destination != ""
    ensures var reply := provider(DirectionsUrl(origin, destination, waypoints, apiKey, encode));
            var r := FetchDirections(origin, destination, waypoints, apiKey, encode, provider);
            && (r.Failed? <==> !reply.Routes?)
            && (reply.Routes? ==> r == Fetched(Directions(RouteKm(reply.routes), reply.routes)))
  {
  }

  /** Two legs of 12.5 km and 7.25 km in the first route make 19.75 km. */
  lemma TwoLegRoute()
    ensures RouteKm([DirectionsRoute([Leg(Some(12500.0)), Leg(Some(7250.0))]), DirectionsRoute([])]) == 19.75
  {
    LegContribution([Leg(Some(12500.0))], Leg(Some(7250.0)));
    LegContribution([], Leg(Some(12500.0)));
    assert [Leg(Some(12500.0))] + [Leg(Some(7250.0))] == [Leg(Some(12500.0)), Leg(Some(7250.0))];
  }
}
