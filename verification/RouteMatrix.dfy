/** The travel matrix returned by the map provider: which rows are usable, and whether every leg is covered. */
module RouteMatrix {
  import opened Common

  /** An index field of a row: absent (read as 0), not an integer, or an integer. */
  datatype Index = Absent | Unreadable | Given(value: int)

  /** A provider row after reading its fields; an unreadable number or duration is None. */
  datatype Row = Row(
    origin: Index,
    destination: Index,
    statusCode: Option<int>,
    routeExists: bool,
    distanceMeters: Option<real>,
    seconds: Option<real>,
    staticSeconds: Option<real>,
    fallback: bool)

  datatype Leg = Leg(
    origin: int,
    target: int,
    distanceKm: real,
    travelMinutes: int,
    staticMinutes: Option<int>,
    trafficIncluded: bool)

  /** Legs by (origin, target); index 0 is the starting point. */
  type Matrix = map<(int, int), Leg>

  function Ceiling(x: real): int {
    -((-x).Floor)
  }

  /** Seconds rounded up to minutes; only an instant trip takes no minute. */
  function Minutes(seconds: real): int {
    if seconds == 0.0 then 0 else Max(1, Ceiling(seconds / 60.0))
  }

  function Position(index: Index): Option<int> {
    match index
    case Absent => Some(0)
    case Unreadable => None
    case Given(value) => Some(value)
  }

  /** The leg a row contributes, or None when the row is skipped. */
  function LegOf(row: Row, pointCount: nat, drive: bool): Option<Leg> {
    var origin := Position(row.origin);
    var destination := Position(row.destination);
    if origin.None? || destination.None? then None
    else
      var target := destination.value + 1;
      if origin.value < 0 || origin.value >= pointCount || target < 1 || target >= pointCount || origin.value == target
      then None
      else if (row.statusCode.Some? && row.statusCode.value != 0) || !row.routeExists then None
      else if row.distanceMeters.None? || row.distanceMeters.value < 0.0 || row.seconds.None? || row.seconds.value < 0.0
      then None
      else
        Some(Leg(origin.value, target, row.distanceMeters.value / 1000.0, Minutes(row.seconds.value),
                 if row.staticSeconds.None? then None else Some(Minutes(row.staticSeconds.value)),
                 drive && !row.fallback))
  }

  /** The last usable row for a pair of points decides its leg. */
  function LastLeg(rows: seq<Row>, pointCount: nat, drive: bool, origin: int, target: int): Option<Leg> {
    if rows == [] then None
    else
      var leg := LegOf(rows[|rows| - 1], pointCount, drive);
      if leg.Some? && leg.value.origin == origin && leg.value.target == target then leg
      else LastLeg(rows[..|rows| - 1], pointCount, drive, origin, target)
  }

  predicate Wanted(pointCount: nat, origin: int, target: int) {
    0 <= origin < pointCount && 1 <= target < pointCount && origin != target
  }

  /** The answer is a list with a usable row for every leg. */
  ghost predicate Complete(body: Option<seq<Row>>, pointCount: nat, drive: bool) {
    body.Some? && forall o, t :: Wanted(pointCount, o, t) ==> LastLeg(body.value, pointCount, drive, o, t).Some?
  }

  /** Parsing succeeds exactly when every ordered pair of different points has a usable row,
      and then each pair carries the leg of its last usable row and no other key exists. */
  method Parse(body: Option<seq<Row>>, pointCount: nat, drive: bool) returns (matrix: Option<Matrix>)
    ensures matrix.Some? <==> Complete(body, pointCount, drive)
    ensures matrix.Some? ==>
              forall o, t :: (if (o, t) in matrix.value then Some(matrix.value[(o, t)]) else None)
                             == LastLeg(body.value, pointCount, drive, o, t)
  {
    if body.None? {
      return None;
    }
    var rows := body.value;
    var legs: Matrix := map[];
    for n := 0 to |rows|
      invariant forall o, t :: (if (o, t) in legs then Some(legs[(o, t)]) else None)
                               == LastLeg(rows[..n], pointCount, drive, o, t)
    {
      assert rows[..n + 1][..n] == rows[..n];
      var leg := LegOf(rows[n], pointCount, drive);
      if leg.None? {
        continue;
      }
      legs := legs[(leg.value.origin, leg.value.target) := leg.value];
    }
    assert rows[..|rows|] == rows;
    for origin := 0 to pointCount
      invariant forall o, t :: o < origin && Wanted(pointCount, o, t) ==> (o, t) in legs
    {
      var target := 1;
      while target < pointCount
        invariant 1 <= target
        invariant forall o, t :: o < origin && Wanted(pointCount, o, t) ==> (o, t) in legs
        invariant forall t :: t < target && Wanted(pointCount, origin, t) ==> (origin, t) in legs
      {
        if origin != target && (origin, target) !in legs {
          assert Wanted(pointCount, origin, target);
          return None;
        }
        target := target + 1;
      }
    }
    matrix := Some(legs);
  }

  /** A parsed leg joins the two points it is filed under, never takes negative time or distance,
      and any positive travel time counts for at least a minute and less than one minute too many. */
  lemma {:induction false} LegsAreSane(rows: seq<Row>, pointCount: nat, drive: bool, origin: int, target: int)
    requires LastLeg(rows, pointCount, drive, origin, target).Some?
    ensures Wanted(pointCount, origin, target)
    ensures var leg := LastLeg(rows, pointCount, drive, origin, target).value;
            && leg.origin == origin && leg.target == target
            && leg.distanceKm >= 0.0 && leg.travelMinutes >= 0
            && exists i :: 0 <= i < |rows| && LegOf(rows[i], pointCount, drive) == Some(leg) && rows[i].seconds.Some?
                           && (leg.travelMinutes as real) * 60.0 >= rows[i].seconds.value
                           && (leg.travelMinutes as real - 1.0) * 60.0 < rows[i].seconds.value
  {
    var last := rows[|rows| - 1];
    var leg := LegOf(last, pointCount, drive);
    if leg.Some? && leg.value.origin == origin && leg.value.target == target {
      MinutesBracket(last.seconds.value);
    } else {
      LegsAreSane(rows[..|rows| - 1], pointCount, drive, origin, target);
    }
  }

  lemma MinutesBracket(seconds: real)
    requires seconds >= 0.0
    ensures Minutes(seconds) >= 0 && (Minutes(seconds) == 0 <==> seconds == 0.0)
    ensures (Minutes(seconds) as real) * 60.0 >= seconds
    ensures (Minutes(seconds) as real - 1.0) * 60.0 < seconds
  {
    var q := seconds / 60.0;
    assert q * 60.0 == seconds;
    var f := (-q).Floor;
    assert f as real <= -q < f as real + 1.0;
  }

  // ---------- which rows count ----------

  function At(index: Index): int {
    if index.Given? then index.value else 0
  }

  /** The row names two of the points, the second counted from 1, and reports a route of known length and duration. */
  ghost predicate Serves(row: Row, pointCount: nat, origin: int, target: int) {
    && row.origin != Unreadable && row.destination != Unreadable
    && origin == At(row.origin) && target == At(row.destination) + 1
    && 0 <= origin < pointCount && 1 <= target < pointCount && origin != target
    && (row.statusCode == None || row.statusCode == Some(0)) && row.routeExists
    && row.distanceMeters.Some? && row.distanceMeters.value >= 0.0
    && row.seconds.Some? && row.seconds.value >= 0.0
  }

  /** Rounded up, with a minute at least for any time at all. */
  ghost predicate RoundedUp(minutes: int, seconds: real) {
    && (minutes == 0 <==> seconds == 0.0)
    && (minutes as real) * 60.0 >= seconds && (minutes as real - 1.0) * 60.0 < seconds
  }

  /** A row makes a leg exactly when it serves a pair of points, and the leg says what the row says. */
  lemma LegOfIff(row: Row, pointCount: nat, drive: bool)
    ensures LegOf(row, pointCount, drive).Some? <==> Serves(row, pointCount, At(row.origin), At(row.destination) + 1)
    ensures LegOf(row, pointCount, drive).Some? ==>
              var leg := LegOf(row, pointCount, drive).value;
              && leg.origin == At(row.origin) && leg.target == At(row.destination) + 1
              && leg.distanceKm * 1000.0 == row.distanceMeters.value
              && RoundedUp(leg.travelMinutes, row.seconds.value)
              && (leg.staticMinutes.Some? <==> row.staticSeconds.Some?)
              && (row.staticSeconds.Some? && row.staticSeconds.value >= 0.0 ==>
                    RoundedUp(leg.staticMinutes.value, row.staticSeconds.value))
              && (leg.trafficIncluded <==> drive && !row.fallback)
  {
    if row.seconds.Some? && row.seconds.value >= 0.0 {
      MinutesBracket(row.seconds.value);
    }
    if row.staticSeconds.Some? && row.staticSeconds.value >= 0.0 {
      MinutesBracket(row.staticSeconds.value);
    }
  }

  ghost predicate Served(rows: seq<Row>, pointCount: nat, origin: int, target: int) {
    exists i :: 0 <= i < |rows| && Serves(rows[i], pointCount, origin, target)
  }

  lemma {:induction false} LegIffServed(rows: seq<Row>, pointCount: nat, drive: bool, origin: int, target: int)
    ensures LastLeg(rows, pointCount, drive, origin, target).Some? <==> Served(rows, pointCount, origin, target)
  {
    if rows != [] {
      var last := |rows| - 1;
      LegOfIff(rows[last], pointCount, drive);
      LegIffServed(rows[..last], pointCount, drive, origin, target);
      if i :| 0 <= i < |rows| && Serves(rows[i], pointCount, origin, target) {
        assert i < last ==> Serves(rows[..last][i], pointCount, origin, target);
      }
    }
  }

  /** Of several rows for one pair of points the last decides. */
  lemma {:induction false} LastRowDecides(rows: seq<Row>, pointCount: nat, drive: bool, origin: int, target: int, i: nat)
    requires i < |rows| && Serves(rows[i], pointCount, origin, target)
    requires forall j :: i < j < |rows| ==> !Serves(rows[j], pointCount, origin, target)
    ensures LastLeg(rows, pointCount, drive, origin, target) == LegOf(rows[i], pointCount, drive) != None
    decreases |rows|
  {
    var last := |rows| - 1;
    LegOfIff(rows[last], pointCount, drive);
    if i < last {
      assert !Serves(rows[last], pointCount, origin, target);
      LastRowDecides(rows[..last], pointCount, drive, origin, target, i);
    }
  }

  /** An answer is complete exactly when every way between two points, the start only as an origin, has a row. */
  lemma CompleteIff(body: Option<seq<Row>>, pointCount: nat, drive: bool)
    ensures Complete(body, pointCount, drive) <==>
            body.Some? && forall o, t :: 0 <= o < pointCount && 1 <= t < pointCount && o != t ==>
                                           Served(body.value, pointCount, o, t)
  {
    if body.Some? {
      forall o, t
        ensures LastLeg(body.value, pointCount, drive, o, t).Some? <==> Served(body.value, pointCount, o, t)
      {
        LegIffServed(body.value, pointCount, drive, o, t);
      }
    }
  }
}
