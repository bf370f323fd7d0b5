/**
 * The post-processing of the map tools: cleaning the HTML of the navigation steps, turning
 * each returned direction's first leg into a route with its departure and arrival, and the
 * arrival estimate with its traffic label. The map service's answers are parameters; times
 * are whole seconds on one clock, before any formatting.
 */
module MapTools {
  import opened Common
  import opened PyStrings

  const HospitalAddress: string := "251 E Huron St, Chicago, IL 60611"

  const BoldOpen: string := "<b>"
  const BoldClose: string := "</b>"
  const DivOpen: string := "<div style=\"font-size:0.9em\">"
  const DivClose: string := "</div>"
  const DivSeparator: string := " - "

  // ---------------------------------------------------------------------------
  // Step cleaning

  /** The four replacements applied to every `html_instructions`, in their order. */
  function CleanInstruction(html: string): string
  {
    var noBold := Replace(Replace(html, BoldOpen, ""), BoldClose, "");
    Replace(Replace(noBold, DivOpen, DivSeparator), DivClose, "")
  }

  /** A text in which the first character of a token is absent does not contain the token. */
  lemma AbsentHead(s: string, token: string)
    requires |token| > 0 && token[0] !in s
    ensures !Contains(s, token)
  {
    ContainsIff(s, token);
    forall j: nat | j <= |s| ensures !IsAt(s, token, j) {
      if j + |token| <= |s| {
        assert s[j..j + |token|][0] == s[j];
      }
    }
  }

  /** A text with none of the four tokens is left as it is. */
  lemma CleanLeavesPlainText(html: string)
    requires !Contains(html, BoldOpen) && !Contains(html, BoldClose)
    requires !Contains(html, DivOpen) && !Contains(html, DivClose)
    ensures CleanInstruction(html) == html
  {
    ReplaceAbsent(html, BoldOpen, "");
    ReplaceAbsent(html, BoldClose, "");
    ReplaceAbsent(html, DivOpen, DivSeparator);
    ReplaceAbsent(html, DivClose, "");
  }

  /** In particular a text without any '<' is left as it is. */
  lemma CleanLeavesTextWithoutTags(html: string)
    requires '<' !in html
    ensures CleanInstruction(html) == html
  {
    AbsentHead(html, BoldOpen);
    AbsentHead(html, BoldClose);
    AbsentHead(html, DivOpen);
    AbsentHead(html, DivClose);
    CleanLeavesPlainText(html);
  }

  /**
   * Replacing a token that occurs once, whose first character is not in the text before it,
   * puts the replacement in its place.
   */
  lemma ReplaceSingle(pre: string, token: string, post: string, replacement: string)
    requires |token| > 0 && token[0] !in pre
    requires !Contains(post, token)
    ensures Replace(pre + token + post, token, replacement) == pre + replacement + post
  {
    var s := pre + token + post;
    assert IsAt(s, token, |pre|) by { assert s[|pre|..|pre| + |token|] == token; }
    forall j: nat | j < |pre| ensures !IsAt(s, token, j) {
      if j + |token| <= |s| {
        assert s[j..j + |token|][0] == s[j] == pre[j];
      }
    }
    FindIs(s, token, |pre|);
    assert s[..|pre|] == pre;
    assert s[|pre| + |token|..] == post;
    assert SplitOn(post, token) == [post];
    assert SplitOn(s, token) == [pre, post];
    assert Join([pre, post], replacement) == pre + replacement + Join([post], replacement);
  }

  /** The bold pair around a text without tags comes off. */
  lemma BoldComesOff(x: string)
    requires '<' !in x
    ensures Replace(Replace(BoldOpen + x + BoldClose, BoldOpen, ""), BoldClose, "") == x
  {
    var rest := x + BoldClose;
    assert !Contains(rest, BoldOpen) by {
      ContainsIff(rest, BoldOpen);
      forall j: nat | j <= |rest| ensures !IsAt(rest, BoldOpen, j) {
        if j + 3 <= |rest| {
          assert rest[j..j + 3][0] == rest[j];
          assert rest[j..j + 3][1] == rest[j + 1];
          if j < |x| {
            assert rest[j] == x[j];
          } else {
            assert rest[j + 1] == BoldClose[j + 1 - |x|];
          }
        }
      }
    }
    ReplaceSingle("", BoldOpen, rest, "");
    assert "" + BoldOpen + rest == BoldOpen + x + BoldClose;
    assert "" + "" + rest == rest;
    AbsentHead("", BoldClose);
    ReplaceSingle(x, BoldClose, "", "");
    assert x + BoldClose + "" == rest && x + "" + "" == x;
  }

  /** A bold instruction without further tags is shown without the bold tags. */
  lemma CleanUnwrapsBold(x: string)
    requires '<' !in x
    ensures CleanInstruction(BoldOpen + x + BoldClose) == x
  {
    BoldComesOff(x);
    AbsentHead(x, DivOpen);
    AbsentHead(x, DivClose);
    ReplaceAbsent(x, DivOpen, DivSeparator);
    ReplaceAbsent(x, DivClose, "");
  }

  /** The loop collecting the cleaned steps of one leg. */
  method CleanSteps(html: seq<string>) returns (steps: seq<string>)
    ensures |steps| == |html|
    ensures forall i :: 0 <= i < |html| ==> steps[i] == CleanInstruction(html[i])
  {
    steps := [];
    var i := 0;
    while i < |html|
      invariant 0 <= i <= |html|
      invariant |steps| == i
      invariant forall k :: 0 <= k < i ==> steps[k] == CleanInstruction(html[k])
    {
      var instruction := html[i];
      instruction := Replace(Replace(instruction, BoldOpen, ""), BoldClose, "");
      instruction := Replace(instruction, DivOpen, DivSeparator);
      instruction := Replace(instruction, DivClose, "");
      steps := steps + [instruction];
      i := i + 1;
    }
  }

  // ---------------------------------------------------------------------------
  // get_route_to_hospital

  /** The parts of a leg the tools read. */
  datatype Leg = Leg(
    /** `leg['duration']['value']`, in seconds. */
    durationSecs: int,
    /** `leg['duration_in_traffic']['value']` when the service sends one, in seconds. */
    durationInTraffic: Option<int>,
    /** `leg['distance']['value']`, in metres. */
    distanceMeters: int,
    /** Each step's `html_instructions`. */
    stepsHtml: seq<string>)

  /** One alternative of the service's answer. */
  datatype Direction = Direction(legs: seq<Leg>)

  /** A `TransportRoute`; the two times are before formatting. */
  datatype TransportRoute = TransportRoute(
    kind: string,
    durationMinutes: int,
    durationInTraffic: Option<int>,
    distanceMeters: int,
    steps: seq<string>,
    arrivalTime: int,
    departureTime: int)

  /** The tool's answer: an error, or the routes with the traffic report in driving mode. */
  datatype RouteAnswer<T> =
    | RouteError(message: string)
    | RouteInfo(startAddress: string, destination: string, routes: seq<TransportRoute>, trafficConditions: Option<T>)

  const NoRoutes: string := "No routes found"
  /** The message of the `IndexError` raised by `route['legs'][0]` on a route without legs, as caught. */
  const NoLegFailure: string := "Failed to get route: list index out of range"

  /** The route built from a direction's first leg. */
  function RouteOf(mode: string, leg: Leg, arrival: Option<int>, now: int): (r: TransportRoute)
    ensures r.kind == mode && r.distanceMeters == leg.distanceMeters
    ensures r.durationInTraffic == leg.durationInTraffic
    ensures r.steps == seq(|leg.stepsHtml|, i requires 0 <= i < |leg.stepsHtml| => CleanInstruction(leg.stepsHtml[i]))
  {
    var secs := leg.durationSecs;
    var steps := seq(|leg.stepsHtml|, i requires 0 <= i < |leg.stepsHtml| => CleanInstruction(leg.stepsHtml[i]));
    var times := if arrival.Some? then (arrival.value, arrival.value - secs) else (now + secs, now);
    TransportRoute(mode, secs / 60, leg.durationInTraffic, leg.distanceMeters, steps, times.0, times.1)
  }

  /** Whatever was asked, a route's arrival is its departure plus the leg's base duration. */
  lemma RouteTimesFit(mode: string, leg: Leg, arrival: Option<int>, now: int)
    ensures var r := RouteOf(mode, leg, arrival, now);
            r.arrivalTime - r.departureTime == leg.durationSecs
            && (arrival.Some? ==> r.arrivalTime == arrival.value)
            && (arrival.None? ==> r.departureTime == now)
  {
  }

  /** The minutes are the seconds rounded down, and the traffic duration stays in seconds. */
  lemma RouteMinutesRoundDown(mode: string, leg: Leg, arrival: Option<int>, now: int)
    ensures var r := RouteOf(mode, leg, arrival, now);
            r.durationMinutes * 60 <= leg.durationSecs < r.durationMinutes * 60 + 60
  {
  }

  predicate HasLeglessDirection(directions: seq<Direction>)
  {
    exists i :: 0 <= i < |directions| && |directions[i].legs| == 0
  }

  /** `get_route_to_hospital`, given the service's answer and, for driving, the traffic report. */
  method GetRouteToHospital<T>(startAddress: string, mode: string, arrival: Option<int>, now: int,
                               directions: seq<Direction>, traffic: T) returns (r: RouteAnswer<T>)
    ensures |directions| == 0 ==> r == RouteError(NoRoutes)
    ensures |directions| > 0 && HasLeglessDirection(directions) ==> r == RouteError(NoLegFailure)
    ensures |directions| > 0 && !HasLeglessDirection(directions) ==>
              && r.RouteInfo?
              && r.startAddress == startAddress && r.destination == HospitalAddress
              && |r.routes| == |directions|
              && (forall i :: 0 <= i < |directions| ==> r.routes[i] == RouteOf(mode, directions[i].legs[0], arrival, now))
              && (r.trafficConditions.Some? <==> mode == "driving")
              && (r.trafficConditions.Some? ==> r.trafficConditions.value == traffic)
  {
    if |directions| == 0 {
      return RouteError(NoRoutes);
    }
    var routes: seq<TransportRoute> := [];
    var i := 0;
    while i < |directions|
      invariant 0 <= i <= |directions|
      invariant |routes| == i
      invariant forall k :: 0 <= k < i ==> |directions[k].legs| > 0
      invariant forall k :: 0 <= k < i ==> routes[k] == RouteOf(mode, directions[k].legs[0], arrival, now)
    {
      if |directions[i].legs| == 0 {
        assert HasLeglessDirection(directions);
        return RouteError(NoLegFailure);
      }
      var leg := directions[i].legs[0];
      var steps := CleanSteps(leg.stepsHtml);
      var secs := leg.durationSecs;
      var arrivalTime, departureTime;
      if arrival.Some? {
        arrivalTime, departureTime := arrival.value, arrival.value - secs;
      } else {
        arrivalTime, departureTime := now + secs, now;
      }
      var route := TransportRoute(mode, secs / 60, leg.durationInTraffic, leg.distanceMeters, steps,
                                  arrivalTime, departureTime);
      routes := routes + [route];
      i := i + 1;
    }
    var report := if mode == "driving" then Some(traffic) else None;
    r := RouteInfo(startAddress, HospitalAddress, routes, report);
  }

  // ---------------------------------------------------------------------------
  // get_estimated_arrival_time

  datatype EtaAnswer =
    | EtaError(message: string)
    | Eta(departureTime: int, estimatedArrival: int, durationMinutes: int, distanceMeters: int, trafficCondition: string)

  const NoEstimate: string := "Unable to calculate arrival time"
  const NoLegEstimate: string := "Failed to calculate arrival time: list index out of range"
  const Normal: string := "Normal"
  const Heavy: string := "Heavy"

  /** The duration the estimate uses: the traffic duration when there is one, else the base duration. */
  function ChosenDuration(leg: Leg): (secs: int)
    ensures leg.durationInTraffic.None? ==> secs == leg.durationSecs
    ensures leg.durationInTraffic.Some? ==> secs == leg.durationInTraffic.value
  {
    if leg.durationInTraffic.Some? then leg.durationInTraffic.value else leg.durationSecs
  }

  /** `get_estimated_arrival_time`, given the service's answer for the departure used. */
  function GetEstimatedArrivalTime(departure: Option<int>, now: int, directions: seq<Direction>): (r: EtaAnswer)
    ensures |directions| == 0 ==> r == EtaError(NoEstimate)
    ensures |directions| > 0 && |directions[0].legs| == 0 ==> r == EtaError(NoLegEstimate)
    ensures r.Eta? ==> |directions| > 0 && |directions[0].legs| > 0
    ensures r.Eta? ==> r.departureTime == (if departure.Some? then departure.value else now)
  {
    var start := if departure.Some? then departure.value else now;
    if |directions| == 0 then EtaError(NoEstimate)
    else if |directions[0].legs| == 0 then EtaError(NoLegEstimate)
    else
      var leg := directions[0].legs[0];
      var secs := ChosenDuration(leg);
      Eta(start, start + secs, secs / 60, leg.distanceMeters,
          if secs <= leg.durationSecs then Normal else Heavy)
  }

  /** The estimate arrives after the chosen duration and labels traffic heavy exactly when it is slower. */
  lemma EstimateFollowsTraffic(departure: Option<int>, now: int, directions: seq<Direction>)
    requires |directions| > 0 && |directions[0].legs| > 0
    ensures var r := GetEstimatedArrivalTime(departure, now, directions);
            var leg := directions[0].legs[0];
            && r.Eta?
            && r.estimatedArrival - r.departureTime == ChosenDuration(leg)
            && r.durationMinutes == ChosenDuration(leg) / 60
            && r.distanceMeters == leg.distanceMeters
            && (r.trafficCondition == Heavy <==> leg.durationInTraffic.Some? && leg.durationInTraffic.value > leg.durationSecs)
            && (r.trafficCondition == Normal <==> !(leg.durationInTraffic.Some? && leg.durationInTraffic.value > leg.durationSecs))
  {
    assert Normal != Heavy by { assert |Normal| != |Heavy|; }
  }

  /** Without traffic data the label is always "Normal". */
  lemma NoTrafficDataIsNormal(departure: Option<int>, now: int, directions: seq<Direction>)
    requires |directions| > 0 && |directions[0].legs| > 0
    requires directions[0].legs[0].durationInTraffic.None?
    ensures GetEstimatedArrivalTime(departure, now, directions).trafficCondition == Normal
  {
  }

  /** The estimate reads only the first alternative: the others change nothing. */
  lemma EstimateIgnoresAlternatives(departure: Option<int>, now: int, first: Direction, rest: seq<Direction>, rest': seq<Direction>)
    ensures GetEstimatedArrivalTime(departure, now, [first] + rest) == GetEstimatedArrivalTime(departure, now, [first] + rest')
  {
  }
}
