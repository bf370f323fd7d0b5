/**
 * The parking tools of the hospital: the availability report built from the grouped area
 * rows, the reservation of the first free spot with its cost, QR code and directions, and
 * the ordered checks of a cancellation. Times are whole minutes; money is a whole number
 * of the currency's smallest unit.
 */
module Parking {
  import opened Common
  import opened PyStrings

  datatype ParkingType = Standard | Disabled | Vip | Emergency

  /** The `.value` of a `ParkingType` member, as stored in the tables. */
  function TypeValue(t: ParkingType): string
  {
    match t
    case Standard => "standard"
    case Disabled => "disabled"
    case Vip => "vip"
    case Emergency => "emergency"
  }

  // ---------------------------------------------------------------------------
  // get_parking_availability

  /** One row of the grouped availability query: an area with its spot and reservation counts. */
  datatype AreaRow = AreaRow(
    areaId: int, level: string, totalSpaces: int, parkingType: string, hourlyRate: int,
    totalSpots: int, availableSpots: int, reservedSpots: int)

  /** One entry of `availability["areas"]` (the occupancy percentage is not modelled). */
  datatype AreaInfo = AreaInfo(
    areaId: int, level: string, parkingType: string, hourlyRate: int,
    totalSpaces: int, availableSpaces: int, reservedSpaces: int)

  datatype Availability = Availability(areas: seq<AreaInfo>, totalAvailable: int, totalCapacity: int)

  /** The rows the `AND p.parking_type = ?` filter keeps; no filter without a type. */
  function Selected(rows: seq<AreaRow>, t: Option<ParkingType>): (r: seq<AreaRow>)
    ensures t.None? ==> r == rows
    ensures |r| <= |rows|
    ensures t.Some? ==> forall i :: 0 <= i < |r| ==> r[i].parkingType == TypeValue(t.value)
  {
    if |rows| == 0 then []
    else if t.None? || rows[0].parkingType == TypeValue(t.value) then [rows[0]] + Selected(rows[1..], t)
    else Selected(rows[1..], t)
  }

  /** The filter drops only rows of another type: each row of the asked-for type is kept. */
  lemma {:induction false} SelectedKeepsMatches(rows: seq<AreaRow>, t: ParkingType)
    ensures forall i :: 0 <= i < |rows| && rows[i].parkingType == TypeValue(t) ==> rows[i] in Selected(rows, Some(t))
    ensures forall x :: x in Selected(rows, Some(t)) ==> x in rows
    decreases |rows|
  {
    if |rows| > 0 {
      SelectedKeepsMatches(rows[1..], t);
      forall i | 0 <= i < |rows| && rows[i].parkingType == TypeValue(t)
        ensures rows[i] in Selected(rows, Some(t))
      {
        if i > 0 {
          assert rows[i] == rows[1..][i - 1];
        }
      }
    }
  }

  /** The entry reported for one row: available spaces are available minus reserved, unclamped. */
  function AreaOf(row: AreaRow): AreaInfo
  {
    AreaInfo(row.areaId, row.level, row.parkingType, row.hourlyRate,
             row.totalSpaces, row.availableSpots - row.reservedSpots, row.reservedSpots)
  }

  /** One entry per row, in row order. */
  function Areas(rows: seq<AreaRow>): (r: seq<AreaInfo>)
    ensures |r| == |rows|
    ensures forall i :: 0 <= i < |rows| ==> r[i] == AreaOf(rows[i])
  {
    seq(|rows|, i requires 0 <= i < |rows| => AreaOf(rows[i]))
  }

  /** The sum of the entries' available spaces. */
  function TotalAvailable(areas: seq<AreaInfo>): int
  {
    if |areas| == 0 then 0 else TotalAvailable(areas[..|areas| - 1]) + areas[|areas| - 1].availableSpaces
  }

  /** The sum of the entries' total spaces. */
  function TotalCapacity(areas: seq<AreaInfo>): int
  {
    if |areas| == 0 then 0 else TotalCapacity(areas[..|areas| - 1]) + areas[|areas| - 1].totalSpaces
  }

  /** The query rows' available spots, summed. */
  function SumAvailableSpots(rows: seq<AreaRow>): int
  {
    if |rows| == 0 then 0 else SumAvailableSpots(rows[..|rows| - 1]) + rows[|rows| - 1].availableSpots
  }

  /** The query rows' reserved spots, summed. */
  function SumReservedSpots(rows: seq<AreaRow>): int
  {
    if |rows| == 0 then 0 else SumReservedSpots(rows[..|rows| - 1]) + rows[|rows| - 1].reservedSpots
  }

  /** The query rows' total spaces, summed. */
  function SumTotalSpaces(rows: seq<AreaRow>): int
  {
    if |rows| == 0 then 0 else SumTotalSpaces(rows[..|rows| - 1]) + rows[|rows| - 1].totalSpaces
  }

  /** Some row has no spaces at all. */
  predicate HasEmptyArea(rows: seq<AreaRow>)
  {
    exists i :: 0 <= i < |rows| && rows[i].totalSpaces == 0
  }

  /**
   * `get_parking_availability` over the rows its query returned. The occupancy percentage
   * divides by `total_spaces`, so an area with none raises `ZeroDivisionError` (`None`).
   */
  method GetParkingAvailability(rows: seq<AreaRow>, parkingType: Option<ParkingType>) returns (r: Option<Availability>)
    ensures r.None? <==> HasEmptyArea(Selected(rows, parkingType))
    ensures r.Some? ==> && r.value.areas == Areas(Selected(rows, parkingType))
                        && r.value.totalAvailable == TotalAvailable(r.value.areas)
                        && r.value.totalCapacity == TotalCapacity(r.value.areas)
  {
    r := Tally(Selected(rows, parkingType));
  }

  /** The loop of `get_parking_availability` over the selected rows. */
  method Tally(sel: seq<AreaRow>) returns (r: Option<Availability>)
    ensures r.None? <==> HasEmptyArea(sel)
    ensures r.Some? ==> && r.value.areas == Areas(sel)
                        && r.value.totalAvailable == TotalAvailable(r.value.areas)
                        && r.value.totalCapacity == TotalCapacity(r.value.areas)
  {
    var areas: seq<AreaInfo> := [];
    var totalAvailable := 0;
    var totalCapacity := 0;
    var i := 0;
    while i < |sel|
      invariant 0 <= i <= |sel| && |areas| == i
      invariant forall j :: 0 <= j < i ==> areas[j] == AreaOf(sel[j])
      invariant forall j :: 0 <= j < i ==> sel[j].totalSpaces != 0
      invariant totalAvailable == TotalAvailable(areas)
      invariant totalCapacity == TotalCapacity(areas)
    {
      var row := sel[i];
      if row.totalSpaces == 0 {
        assert HasEmptyArea(sel) by { assert sel[i].totalSpaces == 0; }
        return None;
      }
      var info := AreaOf(row);
      TotalsGrow(areas, info);
      areas := areas + [info];
      totalAvailable := totalAvailable + info.availableSpaces;
      totalCapacity := totalCapacity + row.totalSpaces;
      i := i + 1;
    }
    assert areas == Areas(sel);
    return Some(Availability(areas, totalAvailable, totalCapacity));
  }

  /** Appending an entry adds its spaces to both totals. */
  lemma TotalsGrow(areas: seq<AreaInfo>, info: AreaInfo)
    ensures TotalAvailable(areas + [info]) == TotalAvailable(areas) + info.availableSpaces
    ensures TotalCapacity(areas + [info]) == TotalCapacity(areas) + info.totalSpaces
  {
    assert (areas + [info])[..|areas|] == areas;
  }

  /** The reported total is the rows' available spots minus their reserved spots, summed. */
  lemma {:induction false} TotalAvailableOfRows(rows: seq<AreaRow>)
    ensures TotalAvailable(Areas(rows)) == SumAvailableSpots(rows) - SumReservedSpots(rows)
    decreases |rows|
  {
    if |rows| > 0 {
      var front := rows[..|rows| - 1];
      assert Areas(rows)[..|rows| - 1] == Areas(front);
      TotalAvailableOfRows(front);
    }
  }

  /** The reported capacity is the rows' total spaces, summed. */
  lemma {:induction false} TotalCapacityOfRows(rows: seq<AreaRow>)
    ensures TotalCapacity(Areas(rows)) == SumTotalSpaces(rows)
    decreases |rows|
  {
    if |rows| > 0 {
      var front := rows[..|rows| - 1];
      assert Areas(rows)[..|rows| - 1] == Areas(front);
      TotalCapacityOfRows(front);
    }
  }

  /** Nothing clamps the difference: an overbooked area reports negative availability. */
  lemma OverbookedAreaIsNegative(row: AreaRow)
    requires row.reservedSpots > row.availableSpots
    ensures AreaOf(row).availableSpaces < 0
    ensures TotalAvailable(Areas([row])) < 0
  {
    assert Areas([row])[..0] == [];
  }

  // ---------------------------------------------------------------------------
  // Tables used by reservation and cancellation

  datatype Facility = Facility(areaId: int, hourlyRate: int)

  datatype Spot = Spot(spotId: int, areaId: int, spotNumber: string, kind: string, status: string)

  /** A row of `parking_reservations`; `time` is `reservation_time`. */
  datatype Reservation = Reservation(
    reservationId: int, areaId: int, spotId: int, patientId: string,
    time: int, durationHours: int, totalCost: int, status: string)

  datatype ParkingDb = ParkingDb(facilities: seq<Facility>, spots: seq<Spot>, reservations: seq<Reservation>)

  /** A tool call raises, returns an `{"error": ...}` dict, or returns its value with the tables after the commit. */
  datatype Outcome<T> = Raised | Failed(error: string) | Done(value: T, db: ParkingDb)

  /** The hourly rate of an area, from the join with `parking_facilities`. */
  function FacilityRate(facilities: seq<Facility>, areaId: int): (r: Option<int>)
    ensures r.None? <==> forall i :: 0 <= i < |facilities| ==> facilities[i].areaId != areaId
    ensures r.Some? ==> exists i :: 0 <= i < |facilities| && facilities[i] == Facility(areaId, r.value)
  {
    if |facilities| == 0 then None
    else if facilities[0].areaId == areaId then Some(facilities[0].hourlyRate)
    else FacilityRate(facilities[1..], areaId)
  }

  /** Some reservation of the spot has its start time between `lo` and `hi`, both included. */
  predicate BookedBetween(reservations: seq<Reservation>, spotId: int, lo: int, hi: int)
  {
    exists i :: 0 <= i < |reservations| && reservations[i].spotId == spotId && lo <= reservations[i].time <= hi
  }

  /** The spot may be offered for a stay from `arrival` lasting `hours`. */
  predicate Offerable(db: ParkingDb, s: Spot, areaId: int, kind: string, arrival: int, hours: int)
  {
    && s.areaId == areaId && s.kind == kind && s.status == "available"
    && FacilityRate(db.facilities, areaId).Some?
    && !BookedBetween(db.reservations, s.spotId, arrival, arrival + 60 * hours)
  }

  /** The first spot the reservation query's `LIMIT 1` returns, in table order. */
  function FirstFreeSpot(db: ParkingDb, spots: seq<Spot>, areaId: int, kind: string, arrival: int, hours: int): (r: Option<Spot>)
    ensures r.None? <==> forall i :: 0 <= i < |spots| ==> !Offerable(db, spots[i], areaId, kind, arrival, hours)
    ensures r.Some? ==> r.value in spots && Offerable(db, r.value, areaId, kind, arrival, hours)
  {
    if |spots| == 0 then None
    else if Offerable(db, spots[0], areaId, kind, arrival, hours) then Some(spots[0])
    else FirstFreeSpot(db, spots[1..], areaId, kind, arrival, hours)
  }

  /** `cursor.lastrowid` after the insert: one more than the largest reservation id, at least 1. */
  function NextId(reservations: seq<Reservation>): (id: int)
    ensures id >= 1
    ensures forall i :: 0 <= i < |reservations| ==> reservations[i].reservationId < id
  {
    if |reservations| == 0 then 1
    else
      var rest := NextId(reservations[1..]);
      if reservations[0].reservationId + 1 > rest then reservations[0].reservationId + 1 else rest
  }

  // ---------------------------------------------------------------------------
  // reserve_parking_spot

  /** `f"PARKING-{reservation_id}-{spot_number}"`. */
  function QrCode(reservationId: int, spotNumber: string): (q: string)
    ensures StartsWith(q, "PARKING-") && EndsWith(q, "-" + spotNumber)
  {
    var head := "PARKING-" + IntToString(reservationId);
    var tail := "-" + spotNumber;
    assert (head + tail)[..8] == head[..8] == "PARKING-";
    assert (head + tail)[|head|..] == tail;
    head + tail
  }

  /** For one spot, different reservation ids give different QR codes. */
  lemma QrCodeIdentifiesReservation(i: nat, j: nat, spotNumber: string)
    ensures QrCode(i, spotNumber) == QrCode(j, spotNumber) ==> i == j
  {
    var a, b := NatToString(i), NatToString(j);
    if QrCode(i, spotNumber) == QrCode(j, spotNumber) {
      var q := QrCode(i, spotNumber);
      assert q == "PARKING-" + a + "-" + spotNumber;
      assert q == "PARKING-" + b + "-" + spotNumber;
      assert |a| == |b|;
      assert a == q[8..8 + |a|];
      assert b == q[8..8 + |b|];
      NatToStringInjective(i, j);
    }
  }

  /** `navigation_info`: the level is the spot number's first character and the zone its second. */
  datatype Navigation = Navigation(level: string, zone: string, directions: seq<string>)

  const EnterDirection: string := "Enter through main parking entrance"

  function NavigationOf(spotNumber: string): (n: Navigation)
    ensures |spotNumber| >= 2 ==> n.level == [spotNumber[0]] && n.zone == [spotNumber[1]]
    ensures |spotNumber| == 1 ==> n.level == spotNumber && n.zone == ""
    ensures spotNumber == "" ==> n.level == "" && n.zone == ""
    ensures n.level + n.zone == spotNumber[..if |spotNumber| < 2 then |spotNumber| else 2]
    ensures |n.directions| == 3 && n.directions[0] == EnterDirection
    ensures n.directions[1] == "Follow signs to Level " + n.level && n.directions[2] == "Your spot is in Zone " + n.zone
  {
    var level := Slice(spotNumber, 0, 1);
    var zone := Slice(spotNumber, 1, 2);
    Navigation(level, zone, [EnterDirection, "Follow signs to Level " + level, "Your spot is in Zone " + zone])
  }

  /** The confirmation dict of a successful reservation. */
  datatype Confirmation = Confirmation(
    reservationId: int, spotNumber: string, arrival: int, durationHours: int, totalCost: int,
    qrCode: string, instructions: seq<string>, navigation: Navigation)

  const ArriveWithin: string := "Please arrive within 30 minutes of your reserved time"
  const ScanQr: string := "Scan QR code at parking entrance"
  const ParkOnly: string := "Park only in your assigned spot"
  const Extensions: string := "Contact parking office for extensions: 555-0123"

  /** The six instruction lines; the first names the spot and the fifth the duration. */
  function Instructions(spotNumber: string, hours: int): (r: seq<string>)
    ensures |r| == 6
    ensures r[0] == "Your reserved spot is " + spotNumber
    ensures r[1] == ArriveWithin && r[2] == ScanQr && r[3] == ParkOnly
    ensures r[4] == "Maximum parking duration: " + IntToString(hours) + " hours"
    ensures r[5] == Extensions
  {
    ["Your reserved spot is " + spotNumber, ArriveWithin, ScanQr, ParkOnly,
     "Maximum parking duration: " + IntToString(hours) + " hours", Extensions]
  }

  const NoSpot: string := "No available parking spots for the selected criteria"
  /** The caught `AttributeError` of `parking_type.value` when the type is `None`. */
  const NoTypeFailure: string := "Failed to reserve parking: 'NoneType' object has no attribute 'value'"

  /** The row `reserve_parking_spot` inserts. */
  function NewReservation(db: ParkingDb, areaId: int, s: Spot, patientId: string, arrival: int, hours: int): Reservation
    requires FacilityRate(db.facilities, areaId).Some?
  {
    Reservation(NextId(db.reservations), areaId, s.spotId, patientId, arrival, hours,
                FacilityRate(db.facilities, areaId).value * hours, "confirmed")
  }

  /** `reserve_parking_spot`. */
  function ReserveParkingSpot(db: ParkingDb, patientId: Option<string>, areaId: int, arrival: int, hours: int,
                              parkingType: Option<ParkingType>): (r: Outcome<Confirmation>)
    ensures r.Raised? <==> !Truthy(patientId)
    ensures Truthy(patientId) && parkingType.None? ==> r == Failed(NoTypeFailure)
    ensures Truthy(patientId) && parkingType.Some?
            && FirstFreeSpot(db, db.spots, areaId, TypeValue(parkingType.value), arrival, hours).None? ==>
              r == Failed(NoSpot)
    ensures Truthy(patientId) && parkingType.Some?
            && FirstFreeSpot(db, db.spots, areaId, TypeValue(parkingType.value), arrival, hours).Some? ==>
              var s := FirstFreeSpot(db, db.spots, areaId, TypeValue(parkingType.value), arrival, hours).value;
              var row := NewReservation(db, areaId, s, patientId.value, arrival, hours);
              && r.Done?
              && row.totalCost == FacilityRate(db.facilities, areaId).value * hours
              && r.db == db.(reservations := db.reservations + [row])
              && r.value.reservationId == row.reservationId
              && r.value.totalCost == row.totalCost
              && r.value.spotNumber == s.spotNumber
              && r.value.arrival == arrival && r.value.durationHours == hours
              && r.value.qrCode == QrCode(row.reservationId, s.spotNumber)
              && r.value.navigation == NavigationOf(s.spotNumber)
              && r.value.instructions == Instructions(s.spotNumber, hours)
  {
    if !Truthy(patientId) then Raised
    else if parkingType.None? then Failed(NoTypeFailure)
    else
      match FirstFreeSpot(db, db.spots, areaId, TypeValue(parkingType.value), arrival, hours)
      case None => Failed(NoSpot)
      case Some(s) =>
        var row := NewReservation(db, areaId, s, patientId.value, arrival, hours);
        Done(Confirmation(row.reservationId, s.spotNumber, arrival, hours, row.totalCost,
                          QrCode(row.reservationId, s.spotNumber), Instructions(s.spotNumber, hours),
                          NavigationOf(s.spotNumber)),
             db.(reservations := db.reservations + [row]))
  }

  /** The new reservation id is fresh. */
  lemma ReservationIdIsFresh(db: ParkingDb, p: string, areaId: int, arrival: int, hours: int, t: ParkingType)
    requires ReserveParkingSpot(db, Some(p), areaId, arrival, hours, Some(t)).Done?
    ensures var id := ReserveParkingSpot(db, Some(p), areaId, arrival, hours, Some(t)).value.reservationId;
            forall i :: 0 <= i < |db.reservations| ==> db.reservations[i].reservationId != id
  {
  }

  /** Once reserved, the same spot is not offered again for the same arrival. */
  lemma ReservedSpotIsTaken(db: ParkingDb, p: string, areaId: int, arrival: int, hours: int, t: ParkingType)
    requires hours >= 0
    requires ReserveParkingSpot(db, Some(p), areaId, arrival, hours, Some(t)).Done?
    ensures var s := FirstFreeSpot(db, db.spots, areaId, TypeValue(t), arrival, hours).value;
            var after := ReserveParkingSpot(db, Some(p), areaId, arrival, hours, Some(t)).db;
            !Offerable(after, s, areaId, TypeValue(t), arrival, hours)
  {
    var s := FirstFreeSpot(db, db.spots, areaId, TypeValue(t), arrival, hours).value;
    var after := ReserveParkingSpot(db, Some(p), areaId, arrival, hours, Some(t)).db;
    var k := |db.reservations|;
    assert after.reservations[k].spotId == s.spotId && after.reservations[k].time == arrival;
  }

  // ---------------------------------------------------------------------------
  // cancel_parking_reservation

  /** `SELECT ... WHERE reservation_id = ? AND patient_id = ?` with `fetchone()`. */
  function FindReservation(rows: seq<Reservation>, id: int, patientId: string): (r: Option<nat>)
    ensures r.None? <==> forall i :: 0 <= i < |rows| ==> !(rows[i].reservationId == id && rows[i].patientId == patientId)
    ensures r.Some? ==> r.value < |rows| && rows[r.value].reservationId == id && rows[r.value].patientId == patientId
    ensures r.Some? ==> forall i :: 0 <= i < r.value ==> !(rows[i].reservationId == id && rows[i].patientId == patientId)
  {
    if |rows| == 0 then None
    else if rows[0].reservationId == id && rows[0].patientId == patientId then Some(0)
    else match FindReservation(rows[1..], id, patientId)
      case None => None
      case Some(i) => Some(i + 1)
  }

  /** The success dict of a cancellation. */
  datatype Refund = Refund(status: string, refundAmount: int, message: string)

  const NotFound: string := "Reservation not found or unauthorized"
  const TooLate: string := "Cancellations must be made at least 2 hours in advance"
  const Refunded: string := "Reservation cancelled successfully. Refund will be processed."

  /** `UPDATE ... SET status = 'cancelled' WHERE reservation_id = ?`. */
  function CancelRows(rows: seq<Reservation>, id: int): (r: seq<Reservation>)
    ensures |r| == |rows|
    ensures forall i :: 0 <= i < |rows| ==>
              r[i] == if rows[i].reservationId == id then rows[i].(status := "cancelled") else rows[i]
  {
    seq(|rows|, i requires 0 <= i < |rows| =>
      if rows[i].reservationId == id then rows[i].(status := "cancelled") else rows[i])
  }

  /** `cancel_parking_reservation`: owner, then the two-hour notice, then the status. */
  function CancelParkingReservation(db: ParkingDb, patientId: Option<string>, reservationId: int, now: int): (r: Outcome<Refund>)
    ensures r.Raised? <==> !Truthy(patientId)
    ensures Truthy(patientId) && FindReservation(db.reservations, reservationId, patientId.value).None? ==>
              r == Failed(NotFound)
    ensures Truthy(patientId) && FindReservation(db.reservations, reservationId, patientId.value).Some? ==>
              var res := db.reservations[FindReservation(db.reservations, reservationId, patientId.value).value];
              && (res.time < now + 120 ==> r == Failed(TooLate))
              && (res.time >= now + 120 && res.status != "confirmed" ==>
                    r == Failed("Cannot cancel reservation with status: " + res.status))
              && (res.time >= now + 120 && res.status == "confirmed" ==>
                    r == Done(Refund("cancelled", res.totalCost, Refunded),
                              db.(reservations := CancelRows(db.reservations, reservationId))))
  {
    if !Truthy(patientId) then Raised
    else
      match FindReservation(db.reservations, reservationId, patientId.value)
      case None => Failed(NotFound)
      case Some(i) =>
        var res := db.reservations[i];
        if res.time < now + 120 then Failed(TooLate)
        else if res.status != "confirmed" then Failed("Cannot cancel reservation with status: " + res.status)
        else Done(Refund("cancelled", res.totalCost, Refunded),
                  db.(reservations := CancelRows(db.reservations, reservationId)))
  }

  /** Cancelling changes no row's owner, id or time, so the same lookup finds the same row. */
  lemma FindSurvivesCancel(rows: seq<Reservation>, id: int, p: string, cancelled: int)
    ensures FindReservation(CancelRows(rows, cancelled), id, p) == FindReservation(rows, id, p)
  {
    var after := CancelRows(rows, cancelled);
    if |rows| > 0 {
      assert after[1..] == CancelRows(rows[1..], cancelled);
      FindSurvivesCancel(rows[1..], id, p, cancelled);
    }
  }

  /** A cancelled reservation cannot be cancelled again while it is still two hours away. */
  lemma CancelTwice(db: ParkingDb, p: string, id: int, now: int, later: int)
    requires CancelParkingReservation(db, Some(p), id, now).Done?
    requires p != ""
    requires db.reservations[FindReservation(db.reservations, id, p).value].time >= later + 120
    ensures var after := CancelParkingReservation(db, Some(p), id, now).db;
            CancelParkingReservation(after, Some(p), id, later) == Failed("Cannot cancel reservation with status: cancelled")
  {
    FindSurvivesCancel(db.reservations, id, p, id);
  }

  /** Reserving and then cancelling in time refunds exactly the hourly rate times the hours. */
  lemma RefundIsReservedCost(db: ParkingDb, p: string, areaId: int, arrival: int, hours: int, t: ParkingType, now: int)
    requires p != ""
    requires arrival >= now + 120
    requires ReserveParkingSpot(db, Some(p), areaId, arrival, hours, Some(t)).Done?
    ensures var booked := ReserveParkingSpot(db, Some(p), areaId, arrival, hours, Some(t));
            var r := CancelParkingReservation(booked.db, Some(p), booked.value.reservationId, now);
            && r.Done? && r.value.refundAmount == FacilityRate(db.facilities, areaId).value * hours
  {
    var booked := ReserveParkingSpot(db, Some(p), areaId, arrival, hours, Some(t));
    var rows := booked.db.reservations;
    var id := booked.value.reservationId;
    var k := |db.reservations|;
    assert rows[k].reservationId == id && rows[k].patientId == p;
    assert forall i :: 0 <= i < k ==> rows[i] == db.reservations[i];
    assert FindReservation(rows, id, p) == Some(k);
  }
}
