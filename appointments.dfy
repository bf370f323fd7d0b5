/**
 * The appointment rules of the hospital: time validation, free-slot generation, the date
 * scan of the appointment search, and the decisions of booking, rescheduling, cancelling
 * and reviewing. Table rows are values; a committed change is returned as the new tables.
 * Times are whole minutes since 1970-01-01 00:00, which was a Thursday.
 */
module Appointments {
  import opened Common
  import opened PyStrings

  const MinutesPerDay: int := 1440
  /** `WorkingHours.APPOINTMENT_DURATION`, also the fixed length of a booking. */
  const AppointmentMinutes: int := 30

  const DayNames: seq<string> := ["Monday", "Tuesday", "Wednesday", "Thursday", "Friday", "Saturday", "Sunday"]

  /** The calendar day of a time: days since the epoch. */
  function Date(t: int): int
  {
    t / MinutesPerDay
  }

  /** The time of day, in minutes after midnight. */
  function TimeOfDay(t: int): int
  {
    t % MinutesPerDay
  }

  /** `strftime('%A')`: the English weekday name. */
  function DayName(t: int): (r: string)
    ensures r in DayNames
  {
    DayNames[(Date(t) + 3) % 7]
  }

  lemma EpochWasThursday()
    ensures DayName(0) == "Thursday" && DayName(4 * MinutesPerDay) == "Monday"
  {
  }

  datatype Status = Scheduled | Completed | Cancelled | NoShow

  /** A parsed `working_hours` value "HH:MM-HH:MM", as minutes after midnight. */
  datatype Hours = Hours(start: int, end: int)

  /** A row of `doctors`; `workingHours` is `None` for NULL or the empty string. */
  datatype Doctor = Doctor(
    id: int, departmentId: int, workingDays: Option<string>, workingHours: Option<Hours>, maxDaily: int)

  /** A row of `appointments`. */
  datatype Appt = Appt(
    id: int, patientId: string, doctorId: int, departmentId: int, start: int, end: int,
    kind: string, symptoms: string, status: Status, cancelledReason: Option<string>)

  /** A row of `doctor_reviews`. */
  datatype Review = Review(doctorId: int, patientId: string, rating: int, comment: string)

  datatype Db = Db(doctors: seq<Doctor>, appointments: seq<Appt>, reviews: seq<Review>)

  /** What a tool call does: it raises, or it returns its message with the tables after any commit. */
  datatype Outcome = Raised | Returned(message: string, db: Db)

  /** `SELECT ... FROM doctors WHERE doctor_id = ?` with `fetchone()`. */
  function FindDoctor(doctors: seq<Doctor>, id: int): (r: Option<Doctor>)
    ensures r.None? <==> forall i :: 0 <= i < |doctors| ==> doctors[i].id != id
    ensures r.Some? ==> r.value in doctors && r.value.id == id
  {
    if |doctors| == 0 then None
    else if doctors[0].id == id then Some(doctors[0])
    else FindDoctor(doctors[1..], id)
  }

  /** How many rows satisfy `p`; zero exactly when none does. */
  function CountIf(rows: seq<Appt>, p: Appt -> bool): (n: nat)
    ensures n <= |rows|
    ensures n == 0 <==> forall i :: 0 <= i < |rows| ==> !p(rows[i])
  {
    if |rows| == 0 then 0
    else (if p(rows[0]) then 1 else 0) + CountIf(rows[1..], p)
  }

  // ---------------------------------------------------------------------------
  // validate_appointment_time

  /** The weekday check: skipped when `working_days` is falsy; the comma split is not trimmed. */
  predicate DayOk(d: Doctor, t: int)
  {
    !Truthy(d.workingDays) || DayName(t) in SplitOn(d.workingDays.value, ",")
  }

  /** The hours check, inclusive at both ends; skipped when `working_hours` is falsy. */
  predicate HoursOk(d: Doctor, t: int)
  {
    d.workingHours.None? || d.workingHours.value.start <= TimeOfDay(t) <= d.workingHours.value.end
  }

  predicate ScheduledSameDay(a: Appt, doctorId: int, t: int)
  {
    a.doctorId == doctorId && a.status == Scheduled && Date(a.start) == Date(t)
  }

  /** A scheduled appointment of the doctor that overlaps the half-open window [t, t + 30). */
  predicate Clashes(a: Appt, doctorId: int, t: int)
  {
    a.doctorId == doctorId && a.status == Scheduled && a.start < t + AppointmentMinutes && a.end > t
  }

  function DailyCount(appts: seq<Appt>, doctorId: int, t: int): nat
  {
    CountIf(appts, a => ScheduledSameDay(a, doctorId, t))
  }

  function ClashCount(appts: seq<Appt>, doctorId: int, t: int): nat
  {
    CountIf(appts, a => Clashes(a, doctorId, t))
  }

  datatype Check = Check(valid: bool, message: string)

  const NoDoctor: string := "Doctor not found"
  const DayOff: string := "Doctor is not available on this day"
  const OutsideHours: string := "Appointment time is outside working hours"
  const DayFull: string := "Doctor's schedule is full for this day"
  const SlotTaken: string := "Time slot is already booked"

  /** `validate_appointment_time`: the first failing check names the problem. */
  function ValidateAppointmentTime(doctors: seq<Doctor>, appts: seq<Appt>, doctorId: int, t: int): (r: Check)
    ensures FindDoctor(doctors, doctorId).None? ==> r == Check(false, NoDoctor)
    ensures FindDoctor(doctors, doctorId).Some? ==>
              var d := FindDoctor(doctors, doctorId).value;
              && (!DayOk(d, t) ==> r == Check(false, DayOff))
              && (DayOk(d, t) && !HoursOk(d, t) ==> r == Check(false, OutsideHours))
              && (DayOk(d, t) && HoursOk(d, t) && DailyCount(appts, doctorId, t) >= d.maxDaily ==>
                    r == Check(false, DayFull))
              && ((DayOk(d, t) && HoursOk(d, t) && DailyCount(appts, doctorId, t) < d.maxDaily &&
                   ClashCount(appts, doctorId, t) > 0) ==> r == Check(false, SlotTaken))
    ensures r.valid <==>
              FindDoctor(doctors, doctorId).Some? &&
              DayOk(FindDoctor(doctors, doctorId).value, t) && HoursOk(FindDoctor(doctors, doctorId).value, t) &&
              DailyCount(appts, doctorId, t) < FindDoctor(doctors, doctorId).value.maxDaily &&
              ClashCount(appts, doctorId, t) == 0
    ensures r.valid ==> r.message == "Time slot is available"
  {
    match FindDoctor(doctors, doctorId)
    case None => Check(false, NoDoctor)
    case Some(d) =>
      if !DayOk(d, t) then Check(false, DayOff)
      else if !HoursOk(d, t) then Check(false, OutsideHours)
      else if DailyCount(appts, doctorId, t) >= d.maxDaily then Check(false, DayFull)
      else if ClashCount(appts, doctorId, t) > 0 then Check(false, SlotTaken)
      else Check(true, "Time slot is available")
  }

  /** A valid time overlaps no scheduled appointment of that doctor and lies within the working hours. */
  lemma ValidTimeIsFree(doctors: seq<Doctor>, appts: seq<Appt>, doctorId: int, t: int, i: nat)
    requires ValidateAppointmentTime(doctors, appts, doctorId, t).valid
    requires i < |appts| && appts[i].doctorId == doctorId && appts[i].status == Scheduled
    ensures appts[i].end <= t || t + AppointmentMinutes <= appts[i].start
    ensures HoursOk(FindDoctor(doctors, doctorId).value, t) && DayOk(FindDoctor(doctors, doctorId).value, t)
  {
    assert !(a => Clashes(a, doctorId, t))(appts[i]);
  }

  // ---------------------------------------------------------------------------
  // get_available_slots

  datatype Slot = Slot(start: int, end: int)

  /** A booked `(scheduled_time, end_time)` pair. */
  datatype Interval = Interval(start: int, end: int)

  /** The overlap test of the slot loop: `current_time < booked_end and slot_end > booked_start`. */
  predicate Overlaps(s: int, e: int, b: Interval)
  {
    s < b.end && e > b.start
  }

  predicate FreeAt(cur: int, booked: seq<Interval>)
  {
    forall k :: 0 <= k < |booked| ==> !Overlaps(cur, cur + AppointmentMinutes, booked[k])
  }

  /** The scheduled appointments of the doctor on the day, as the query returns them. */
  function Booked(appts: seq<Appt>, doctorId: int, day: int): (r: seq<Interval>)
    ensures forall b :: b in r <==>
              exists i :: 0 <= i < |appts| && appts[i].doctorId == doctorId && appts[i].status == Scheduled &&
                          Date(appts[i].start) == day && b == Interval(appts[i].start, appts[i].end)
  {
    if |appts| == 0 then []
    else
      var a := appts[0];
      var rest := Booked(appts[1..], doctorId, day);
      assert forall i :: 0 < i < |appts| ==> appts[i] == appts[1..][i - 1];
      if a.doctorId == doctorId && a.status == Scheduled && Date(a.start) == day
      then [Interval(a.start, a.end)] + rest
      else rest
  }

  /** The slots the loop emits from `cur` on: every free 30-minute window that ends by `dayEnd`. */
  function FreeSlots(cur: int, dayEnd: int, booked: seq<Interval>): seq<Slot>
    decreases dayEnd - cur
  {
    if cur + AppointmentMinutes > dayEnd then []
    else (if FreeAt(cur, booked) then [Slot(cur, cur + AppointmentMinutes)] else [])
         + FreeSlots(cur + AppointmentMinutes, dayEnd, booked)
  }

  /** Every slot is a free 30-minute window on the grid that starts at `cur` and ends by `dayEnd`. */
  lemma {:induction false} FreeSlotsWellFormed(cur: int, dayEnd: int, booked: seq<Interval>)
    ensures forall i :: 0 <= i < |FreeSlots(cur, dayEnd, booked)| ==>
              var s := FreeSlots(cur, dayEnd, booked)[i];
              && s.end == s.start + AppointmentMinutes
              && cur <= s.start && s.end <= dayEnd
              && (s.start - cur) % AppointmentMinutes == 0
              && FreeAt(s.start, booked)
    decreases dayEnd - cur
  {
    if cur + AppointmentMinutes <= dayEnd {
      var next := cur + AppointmentMinutes;
      FreeSlotsWellFormed(next, dayEnd, booked);
      var rest := FreeSlots(next, dayEnd, booked);
      forall i | 0 <= i < |rest|
        ensures (rest[i].start - cur) % AppointmentMinutes == 0
      {
        assert rest[i].start - cur == (rest[i].start - next) + AppointmentMinutes;
      }
    }
  }

  /** Slots come in strictly ascending order and never overlap each other. */
  lemma {:induction false} FreeSlotsAscending(cur: int, dayEnd: int, booked: seq<Interval>)
    ensures forall i, j :: 0 <= i < j < |FreeSlots(cur, dayEnd, booked)| ==>
              FreeSlots(cur, dayEnd, booked)[i].end <= FreeSlots(cur, dayEnd, booked)[j].start
    decreases dayEnd - cur
  {
    if cur + AppointmentMinutes <= dayEnd {
      var next := cur + AppointmentMinutes;
      FreeSlotsAscending(next, dayEnd, booked);
      FreeSlotsWellFormed(next, dayEnd, booked);
    }
  }

  /** Every free window on the grid that fits before `dayEnd` is offered. */
  lemma {:induction false} FreeSlotsComplete(cur: int, dayEnd: int, booked: seq<Interval>, s: int)
    requires cur <= s && s + AppointmentMinutes <= dayEnd && (s - cur) % AppointmentMinutes == 0
    requires FreeAt(s, booked)
    ensures Slot(s, s + AppointmentMinutes) in FreeSlots(cur, dayEnd, booked)
    decreases dayEnd - cur
  {
    if s != cur {
      var next := cur + AppointmentMinutes;
      assert (s - next) % AppointmentMinutes == 0 by {
        assert s - next == (s - cur) - AppointmentMinutes;
      }
      FreeSlotsComplete(next, dayEnd, booked, s);
    }
  }

  /** The day's working window of a doctor. */
  function DayStart(date: int): int
  {
    Date(date) * MinutesPerDay
  }

  /**
   * `get_available_slots`: an unknown doctor or a non-working day gives no slots; missing
   * working hours raise (`None`); otherwise the free windows of the working day.
   */
  method GetAvailableSlots(doctors: seq<Doctor>, appts: seq<Appt>, doctorId: int, date: int)
    returns (r: Option<seq<Slot>>)
    ensures FindDoctor(doctors, doctorId).None? ==> r == Some([])
    ensures FindDoctor(doctors, doctorId).Some? ==>
              var d := FindDoctor(doctors, doctorId).value;
              && (!DayOk(d, date) ==> r == Some([]))
              && (DayOk(d, date) && d.workingHours.None? ==> r == None)
              && (DayOk(d, date) && d.workingHours.Some? ==>
                    r == Some(FreeSlots(DayStart(date) + d.workingHours.value.start,
                                        DayStart(date) + d.workingHours.value.end,
                                        Booked(appts, doctorId, Date(date)))))
  {
    var found := FindDoctor(doctors, doctorId);
    if found.None? {
      return Some([]);
    }
    var d := found.value;
    if Truthy(d.workingDays) && DayName(date) !in SplitOn(d.workingDays.value, ",") {
      return Some([]);
    }
    if d.workingHours.None? {
      return None;
    }
    var booked := Booked(appts, doctorId, Date(date));
    var slots := GenerateSlots(DayStart(date) + d.workingHours.value.start, DayStart(date) + d.workingHours.value.end, booked);
    return Some(slots);
  }

  /** The slot loop of `get_available_slots`: step through the day in 30-minute windows, keeping the free ones. */
  method GenerateSlots(dayStart: int, dayEnd: int, booked: seq<Interval>) returns (slots: seq<Slot>)
    ensures slots == FreeSlots(dayStart, dayEnd, booked)
  {
    slots := [];
    var cur := dayStart;
    while cur + AppointmentMinutes <= dayEnd
      invariant slots + FreeSlots(cur, dayEnd, booked) == FreeSlots(dayStart, dayEnd, booked)
      decreases dayEnd - cur
    {
      var slotEnd := cur + AppointmentMinutes;
      var isAvailable := true;
      var k := 0;
      while k < |booked|
        invariant 0 <= k <= |booked|
        invariant forall j :: 0 <= j < k ==> !Overlaps(cur, slotEnd, booked[j])
      {
        if cur < booked[k].end && slotEnd > booked[k].start {
          isAvailable := false;
          break;
        }
        k := k + 1;
      }
      assert isAvailable <==> FreeAt(cur, booked);
      if isAvailable {
        slots := slots + [Slot(cur, slotEnd)];
      }
      assert slots + FreeSlots(slotEnd, dayEnd, booked) == FreeSlots(dayStart, dayEnd, booked);
      cur := slotEnd;
    }
    assert slots + [] == slots;
  }

  /** No offered slot overlaps any scheduled appointment of that doctor on that day. */
  lemma OfferedSlotsAvoidBookings(appts: seq<Appt>, doctorId: int, date: int, cur: int, dayEnd: int, i: nat, j: nat)
    requires i < |FreeSlots(cur, dayEnd, Booked(appts, doctorId, Date(date)))|
    requires j < |appts| && appts[j].doctorId == doctorId && appts[j].status == Scheduled
    requires Date(appts[j].start) == Date(date)
    ensures var s := FreeSlots(cur, dayEnd, Booked(appts, doctorId, Date(date)))[i];
            s.end <= appts[j].start || appts[j].end <= s.start
  {
    var booked := Booked(appts, doctorId, Date(date));
    FreeSlotsWellFormed(cur, dayEnd, booked);
    var b := Interval(appts[j].start, appts[j].end);
    assert b in booked;
    var k :| 0 <= k < |booked| && booked[k] == b;
  }

  // ---------------------------------------------------------------------------
  // search_available_appointments

  /** A doctor row of the search query: id, name, specialty and department name. */
  datatype Listing = Listing(doctorId: int, name: string, specialty: string, department: string)

  /** One offered appointment; the date and clock strings are left to formatting. */
  datatype Offer = Offer(doctorId: int, doctorName: string, specialty: string, department: string, start: int, end: int)

  function OffersFor(l: Listing, slots: seq<Slot>): (r: seq<Offer>)
    ensures |r| == |slots|
    ensures forall i :: 0 <= i < |r| ==>
              r[i] == Offer(l.doctorId, l.name, l.specialty, l.department, slots[i].start, slots[i].end)
  {
    seq(|slots|, i requires 0 <= i < |slots| => Offer(l.doctorId, l.name, l.specialty, l.department, slots[i].start, slots[i].end))
  }

  /** The slots of one day, as `get_available_slots` computes them. */
  function SlotsOn(db: Db, doctorId: int, date: int): Option<seq<Slot>>
  {
    match FindDoctor(db.doctors, doctorId)
    case None => Some([])
    case Some(d) =>
      if !DayOk(d, date) then Some([])
      else if d.workingHours.None? then None
      else Some(FreeSlots(DayStart(date) + d.workingHours.value.start, DayStart(date) + d.workingHours.value.end,
                          Booked(db.appointments, doctorId, Date(date))))
  }

  /** The offers of one doctor for every day from `cur` through `end`; `None` when a day raises. */
  function ScanDays(db: Db, l: Listing, cur: int, end: int): Option<seq<Offer>>
    decreases end - cur + 1
  {
    if cur > end then Some([])
    else
      match SlotsOn(db, l.doctorId, cur)
      case None => None
      case Some(slots) =>
        match ScanDays(db, l, cur + MinutesPerDay, end)
        case None => None
        case Some(rest) => Some(OffersFor(l, slots) + rest)
  }

  function Prepend(acc: seq<Offer>, o: Option<seq<Offer>>): Option<seq<Offer>>
  {
    if o.None? then None else Some(acc + o.value)
  }

  /** The window of the search: from `start_date` or now, to `end_date` or seven days later. */
  function SearchWindow(startDate: Option<int>, endDate: Option<int>, now: int): (w: (int, int))
    ensures w.0 == (if startDate.Some? then startDate.value else now)
    ensures w.1 == (if endDate.Some? then endDate.value else w.0 + 7 * MinutesPerDay)
  {
    var s := if startDate.Some? then startDate.value else now;
    (s, if endDate.Some? then endDate.value else s + 7 * MinutesPerDay)
  }

  /** The inner `while current_date <= end_date` loop for one doctor; it returns the advanced cursor. */
  method ScanDoctor(db: Db, l: Listing, start: int, end: int) returns (r: Option<seq<Offer>>, cur: int)
    ensures r == ScanDays(db, l, start, end)
    ensures r.Some? ==> cur > end
    ensures start > end ==> cur == start
  {
    cur := start;
    var offers: seq<Offer> := [];
    if ScanDays(db, l, cur, end).Some? {
      assert [] + ScanDays(db, l, cur, end).value == ScanDays(db, l, cur, end).value;
    }
    while cur <= end
      invariant start > end ==> cur == start
      invariant Prepend(offers, ScanDays(db, l, cur, end)) == ScanDays(db, l, start, end)
      decreases end - cur + 1
    {
      var slots := GetAvailableSlots(db.doctors, db.appointments, l.doctorId, cur);
      SlotsAreSlotsOn(db, l.doctorId, cur, slots);
      if slots.None? {
        return None, cur;
      }
      ScanStep(db, l, cur, end, offers, slots.value);
      offers := offers + OffersFor(l, slots.value);
      cur := cur + MinutesPerDay;
    }
    assert offers + [] == offers;
    return Some(offers), cur;
  }

  /** The result of `get_available_slots` is the day's slots as SlotsOn describes them. */
  lemma SlotsAreSlotsOn(db: Db, doctorId: int, date: int, slots: Option<seq<Slot>>)
    requires FindDoctor(db.doctors, doctorId).None? ==> slots == Some([])
    requires FindDoctor(db.doctors, doctorId).Some? ==>
              var d := FindDoctor(db.doctors, doctorId).value;
              && (!DayOk(d, date) ==> slots == Some([]))
              && (DayOk(d, date) && d.workingHours.None? ==> slots == None)
              && (DayOk(d, date) && d.workingHours.Some? ==>
                    slots == Some(FreeSlots(DayStart(date) + d.workingHours.value.start,
                                            DayStart(date) + d.workingHours.value.end,
                                            Booked(db.appointments, doctorId, Date(date)))))
    ensures slots == SlotsOn(db, doctorId, date)
  {
  }

  /** One scanned day moves its offers from the remaining scan to the accumulated ones. */
  lemma ScanStep(db: Db, l: Listing, cur: int, end: int, offers: seq<Offer>, slots: seq<Slot>)
    requires cur <= end && SlotsOn(db, l.doctorId, cur) == Some(slots)
    ensures Prepend(offers, ScanDays(db, l, cur, end))
            == Prepend(offers + OffersFor(l, slots), ScanDays(db, l, cur + MinutesPerDay, end))
  {
    var rest := ScanDays(db, l, cur + MinutesPerDay, end);
    if rest.Some? {
      assert offers + (OffersFor(l, slots) + rest.value) == (offers + OffersFor(l, slots)) + rest.value;
    }
  }

  /**
   * The loop of `search_available_appointments` over the doctors the query found. The date
   * cursor is shared by all doctors and never reset, so only the first doctor's days are scanned.
   */
  method SearchAvailableAppointments(db: Db, doctors: seq<Listing>, startDate: Option<int>, endDate: Option<int>, now: int)
    returns (r: Option<seq<Offer>>)
    ensures r == (if doctors == [] then Some([])
                  else ScanDays(db, doctors[0], SearchWindow(startDate, endDate, now).0, SearchWindow(startDate, endDate, now).1))
  {
    var (first, end) := SearchWindow(startDate, endDate, now);
    var cur := first;
    var offers: seq<Offer> := [];
    for n := 0 to |doctors|
      invariant n == 0 ==> cur == first && offers == []
      invariant n > 0 ==> cur > end && Some(offers) == ScanDays(db, doctors[0], first, end)
    {
      var found, next := ScanDoctor(db, doctors[n], cur, end);
      if found.None? {
        return None;
      }
      if n > 0 {
        assert found.value == [];
        assert offers + found.value == offers;
      } else {
        assert offers + found.value == found.value;
      }
      offers := offers + found.value;
      cur := next;
    }
    return Some(offers);
  }

  /** Every offer the search returns belongs to the first doctor listed. */
  lemma {:induction false} ScanDaysOneDoctor(db: Db, l: Listing, cur: int, end: int)
    requires ScanDays(db, l, cur, end).Some?
    ensures forall i :: 0 <= i < |ScanDays(db, l, cur, end).value| ==> ScanDays(db, l, cur, end).value[i].doctorId == l.doctorId
    decreases end - cur + 1
  {
    if cur <= end {
      ScanDaysOneDoctor(db, l, cur + MinutesPerDay, end);
    }
  }

  /**
   * The evidently intended search: every listed doctor's days are scanned over the same window.
   * It fails exactly when some doctor's scan fails, and every offer comes from some doctor's scan.
   */
  function ScanAllDoctors(db: Db, doctors: seq<Listing>, first: int, end: int): (r: Option<seq<Offer>>)
    ensures r.Some? <==> forall j :: 0 <= j < |doctors| ==> ScanDays(db, doctors[j], first, end).Some?
    ensures r.Some? ==> forall o :: o in r.value ==>
              exists j :: 0 <= j < |doctors| && ScanDays(db, doctors[j], first, end).Some?
                          && o in ScanDays(db, doctors[j], first, end).value
  {
    if doctors == [] then Some([])
    else
      match ScanDays(db, doctors[0], first, end)
      case None => None
      case Some(head) =>
        match ScanAllDoctors(db, doctors[1..], first, end)
        case None => None
        case Some(rest) => Some(head + rest)
  }

  /** The intended search returns each doctor's own offers. */
  lemma {:induction false} ScanAllDoctorsIncludesEach(db: Db, doctors: seq<Listing>, first: int, end: int, j: nat)
    requires j < |doctors| && ScanAllDoctors(db, doctors, first, end).Some?
    ensures ScanDays(db, doctors[j], first, end).Some?
    ensures forall o :: o in ScanDays(db, doctors[j], first, end).value ==> o in ScanAllDoctors(db, doctors, first, end).value
    decreases |doctors|
  {
    if j > 0 {
      ScanAllDoctorsIncludesEach(db, doctors[1..], first, end, j - 1);
      assert doctors[1..][j - 1] == doctors[j];
    }
  }

  /** With the shared cursor, a second doctor with free slots is never offered, while the intended search offers them. */
  lemma SearchSkipsLaterDoctors(db: Db, doctors: seq<Listing>, startDate: Option<int>, endDate: Option<int>, now: int)
    requires |doctors| >= 2 && doctors[1].doctorId != doctors[0].doctorId
    requires var w := SearchWindow(startDate, endDate, now);
             ScanAllDoctors(db, doctors, w.0, w.1).Some? && ScanDays(db, doctors[1], w.0, w.1) != Some([])
    ensures var w := SearchWindow(startDate, endDate, now);
            && ScanDays(db, doctors[0], w.0, w.1).Some?
            && (forall o :: o in ScanDays(db, doctors[0], w.0, w.1).value ==> o.doctorId != doctors[1].doctorId)
            && (exists o :: o in ScanAllDoctors(db, doctors, w.0, w.1).value && o.doctorId == doctors[1].doctorId)
  {
    var w := SearchWindow(startDate, endDate, now);
    ScanAllDoctorsIncludesEach(db, doctors, w.0, w.1, 0);
    ScanAllDoctorsIncludesEach(db, doctors, w.0, w.1, 1);
    ScanDaysOneDoctor(db, doctors[0], w.0, w.1);
    ScanDaysOneDoctor(db, doctors[1], w.0, w.1);
    var second := ScanDays(db, doctors[1], w.0, w.1).value;
    assert second[0] in second;
  }

  // ---------------------------------------------------------------------------
  // Row lookups of the mutating tools

  /** The first row satisfying `p`, as `fetchone()` returns it. */
  function FindFirst(rows: seq<Appt>, p: Appt -> bool): (r: Option<nat>)
    ensures r.None? <==> forall i :: 0 <= i < |rows| ==> !p(rows[i])
    ensures r.Some? ==> r.value < |rows| && p(rows[r.value])
    ensures r.Some? ==> forall i :: 0 <= i < r.value ==> !p(rows[i])
  {
    if |rows| == 0 then None
    else if p(rows[0]) then Some(0)
    else
      var rest := FindFirst(rows[1..], p);
      if rest.None? then None else Some(rest.value + 1)
  }

  /** Two tables on which `p` agrees row by row have the same first match. */
  lemma FindFirstAgrees(a: seq<Appt>, b: seq<Appt>, p: Appt -> bool)
    requires |a| == |b| && forall j :: 0 <= j < |a| ==> p(a[j]) == p(b[j])
    ensures FindFirst(a, p) == FindFirst(b, p)
  {
  }

  predicate Owned(a: Appt, id: int, patientId: string)
  {
    a.id == id && a.patientId == patientId
  }

  /** `SELECT ... FROM appointments WHERE appointment_id = ? AND patient_id = ?`. */
  function FindOwned(appts: seq<Appt>, id: int, patientId: string): Option<nat>
  {
    FindFirst(appts, a => Owned(a, id, patientId))
  }

  /** `SELECT ... FROM appointments WHERE appointment_id = ?`. */
  function FindById(appts: seq<Appt>, id: int): Option<nat>
  {
    FindFirst(appts, (a: Appt) => a.id == id)
  }

  const BookRefused: string := "Cannot book appointment: "
  const BookSucceeded: string := "Appointment successfully booked! Appointment ID: "
  const NotModifiable: string := "Cannot modify completed or cancelled appointments."
  const UpdateSucceeded: string := "Appointment successfully updated"
  const NotOwned: string := "Appointment not found or does not belong to current patient."
  const InvalidNewTime: string := "Invalid new appointment time: "
  const InvalidDoctor: string := "Invalid doctor ID"
  const NoChanges: string := "No changes requested"

  // ---------------------------------------------------------------------------
  // book_appointment

  /**
   * `book_appointment`; `newId` is the row id the insert is given, and `defaultStatus` the
   * column default the insert relies on, since it does not set `status` itself.
   */
  function BookAppointment(db: Db, patientId: Option<string>, doctorId: int, t: int, kind: string, symptoms: string,
                           newId: int, defaultStatus: Status): (r: Outcome)
    ensures r.Raised? <==> !Truthy(patientId)
    ensures Truthy(patientId) && !ValidateAppointmentTime(db.doctors, db.appointments, doctorId, t).valid ==>
              r == Returned(BookRefused + ValidateAppointmentTime(db.doctors, db.appointments, doctorId, t).message, db)
    ensures Truthy(patientId) && ValidateAppointmentTime(db.doctors, db.appointments, doctorId, t).valid ==>
              && r.Returned?
              && r.message == BookSucceeded + IntToString(newId)
              && r.db.doctors == db.doctors && r.db.reviews == db.reviews
              && |r.db.appointments| == |db.appointments| + 1
              && r.db.appointments[..|db.appointments|] == db.appointments
              && var a := r.db.appointments[|db.appointments|];
                 a.id == newId && a.patientId == patientId.value && a.doctorId == doctorId && a.status == defaultStatus &&
                 a.start == t && a.end == t + AppointmentMinutes &&
                 a.departmentId == FindDoctor(db.doctors, doctorId).value.departmentId &&
                 a.kind == kind && a.symptoms == symptoms && a.cancelledReason.None?
  {
    if !Truthy(patientId) then Raised
    else
      var check := ValidateAppointmentTime(db.doctors, db.appointments, doctorId, t);
      if !check.valid then Returned(BookRefused + check.message, db)
      else
        match FindDoctor(db.doctors, doctorId)
        case None => Returned("Doctor not found.", db)
        case Some(d) =>
          var row := Appt(newId, patientId.value, doctorId, d.departmentId, t, t + AppointmentMinutes, kind, symptoms, defaultStatus, None);
          Returned(BookSucceeded + IntToString(newId),
                   db.(appointments := db.appointments + [row]))
  }

  /** A stand-in for the insert's `lastrowid`: one more than every id in the table. */
  function NextAppointmentId(appointments: seq<Appt>): (id: int)
    ensures id >= 1
    ensures forall i :: 0 <= i < |appointments| ==> appointments[i].id < id
  {
    if |appointments| == 0 then 1
    else
      var rest := NextAppointmentId(appointments[1..]);
      if appointments[0].id + 1 > rest then appointments[0].id + 1 else rest
  }

  /** A booking given the next row id stores a row whose id no earlier appointment has. */
  lemma BookedIdIsFresh(db: Db, patientId: Option<string>, doctorId: int, t: int, kind: string, symptoms: string,
                        defaultStatus: Status)
    requires Truthy(patientId) && ValidateAppointmentTime(db.doctors, db.appointments, doctorId, t).valid
    ensures var after := BookAppointment(db, patientId, doctorId, t, kind, symptoms,
                                         NextAppointmentId(db.appointments), defaultStatus).db;
            forall i :: 0 <= i < |db.appointments| ==> db.appointments[i].id != after.appointments[|db.appointments|].id
  {
  }

  /** With the column defaulting to 'scheduled', once booked the same doctor and time no longer validate: no double booking. */
  lemma BookingTakesSlot(db: Db, patientId: Option<string>, doctorId: int, t: int, kind: string, symptoms: string, newId: int)
    requires Truthy(patientId) && ValidateAppointmentTime(db.doctors, db.appointments, doctorId, t).valid
    ensures var after := BookAppointment(db, patientId, doctorId, t, kind, symptoms, newId, Scheduled).db;
            !ValidateAppointmentTime(after.doctors, after.appointments, doctorId, t).valid
  {
    var after := BookAppointment(db, patientId, doctorId, t, kind, symptoms, newId, Scheduled).db;
    var row := after.appointments[|db.appointments|];
    assert (a => Clashes(a, doctorId, t))(row);
  }

  // ---------------------------------------------------------------------------
  // update_appointment

  /** `if new_doctor_id:` — a doctor id of 0 counts as absent. */
  predicate DoctorGiven(newDoctorId: Option<int>)
  {
    newDoctorId.Some? && newDoctorId.value != 0
  }

  /** The row an accepted update writes: new times and, when given, the new doctor and department. */
  function Moved(a: Appt, newTime: Option<int>, newDoctor: Option<Doctor>): Appt
  {
    var timed := if newTime.Some? then a.(start := newTime.value, end := newTime.value + AppointmentMinutes) else a;
    if newDoctor.Some? then timed.(doctorId := newDoctor.value.id, departmentId := newDoctor.value.departmentId) else timed
  }

  /** `UPDATE appointments SET ... WHERE appointment_id = ? AND patient_id = ?`. */
  function RewriteOwned(appts: seq<Appt>, id: int, patientId: string, newTime: Option<int>, newDoctor: Option<Doctor>): (r: seq<Appt>)
    ensures |r| == |appts|
    ensures forall j :: 0 <= j < |appts| ==>
              r[j] == if Owned(appts[j], id, patientId) then Moved(appts[j], newTime, newDoctor) else appts[j]
  {
    seq(|appts|, j requires 0 <= j < |appts| =>
      if Owned(appts[j], id, patientId) then Moved(appts[j], newTime, newDoctor) else appts[j])
  }

  /**
   * The decision of `update_appointment`, with the table the time validation consults given
   * as `seen`: the tool itself passes the whole table, including the row being moved.
   */
  function Reschedule(db: Db, patientId: Option<string>, appointmentId: int, newTime: Option<int>,
                      newDoctorId: Option<int>, seen: seq<Appt>): (r: Outcome)
    ensures r.Raised? <==> !Truthy(patientId)
    ensures Truthy(patientId) && FindOwned(db.appointments, appointmentId, patientId.value).None? ==>
              r == Returned(NotOwned, db)
    ensures Truthy(patientId) && FindOwned(db.appointments, appointmentId, patientId.value).Some? ==>
              var a := db.appointments[FindOwned(db.appointments, appointmentId, patientId.value).value];
              var checkedDoctor := if DoctorGiven(newDoctorId) then newDoctorId.value
                                   else db.appointments[FindById(db.appointments, appointmentId).value].doctorId;
              && (a.status != Scheduled ==> r == Returned(NotModifiable, db))
              && (a.status == Scheduled && newTime.Some? &&
                  !ValidateAppointmentTime(db.doctors, seen, checkedDoctor, newTime.value).valid ==>
                    r == Returned(InvalidNewTime +
                                  ValidateAppointmentTime(db.doctors, seen, checkedDoctor, newTime.value).message, db))
              && ((a.status == Scheduled && newTime.None? && !DoctorGiven(newDoctorId)) ==>
                    r == Returned(NoChanges, db))
    ensures Truthy(patientId) && FindOwned(db.appointments, appointmentId, patientId.value).Some? ==>
              var a := db.appointments[FindOwned(db.appointments, appointmentId, patientId.value).value];
              var checkedDoctor := if DoctorGiven(newDoctorId) then newDoctorId.value
                                   else db.appointments[FindById(db.appointments, appointmentId).value].doctorId;
              (a.status == Scheduled &&
               (newTime.None? || ValidateAppointmentTime(db.doctors, seen, checkedDoctor, newTime.value).valid) &&
               (newTime.Some? || DoctorGiven(newDoctorId))) ==>
                if DoctorGiven(newDoctorId) && FindDoctor(db.doctors, newDoctorId.value).None? then
                  r == Returned(InvalidDoctor, db)
                else
                  r == Returned(UpdateSucceeded, db.(appointments := RewriteOwned(db.appointments, appointmentId, patientId.value, newTime,
                                                       if DoctorGiven(newDoctorId) then FindDoctor(db.doctors, newDoctorId.value) else None)))
    ensures r.Returned? && r.message == UpdateSucceeded ==>
              && Truthy(patientId)
              && (newTime.Some? || DoctorGiven(newDoctorId))
              && r.db.doctors == db.doctors && r.db.reviews == db.reviews
              && r.db.appointments == RewriteOwned(db.appointments, appointmentId, patientId.value, newTime,
                                                   if DoctorGiven(newDoctorId) then FindDoctor(db.doctors, newDoctorId.value) else None)
  {
    if !Truthy(patientId) then Raised
    else
      var p := patientId.value;
      match FindOwned(db.appointments, appointmentId, p)
      case None => Returned(NotOwned, db)
      case Some(i) =>
        if db.appointments[i].status != Scheduled then Returned(NotModifiable, db)
        else
          var current := db.appointments[FindById(db.appointments, appointmentId).value].doctorId;
          var checkedDoctor := if DoctorGiven(newDoctorId) then newDoctorId.value else current;
          var check := if newTime.Some? then ValidateAppointmentTime(db.doctors, seen, checkedDoctor, newTime.value)
                       else Check(true, "");
          if !check.valid then Returned(InvalidNewTime + check.message, db)
          else if DoctorGiven(newDoctorId) && FindDoctor(db.doctors, newDoctorId.value).None? then Returned(InvalidDoctor, db)
          else if newTime.None? && !DoctorGiven(newDoctorId) then Returned(NoChanges, db)
          else
            var newDoctor := if DoctorGiven(newDoctorId) then FindDoctor(db.doctors, newDoctorId.value) else None;
            Returned(UpdateSucceeded,
                     db.(appointments := RewriteOwned(db.appointments, appointmentId, p, newTime, newDoctor)))
  }

  /** After a successful update the owned row carries the requested time and doctor, is still scheduled, and no other row changed. */
  lemma UpdateMovesOwnedRow(db: Db, patientId: Option<string>, appointmentId: int, newTime: Option<int>,
                            newDoctorId: Option<int>, seen: seq<Appt>)
    requires Reschedule(db, patientId, appointmentId, newTime, newDoctorId, seen).Returned?
    requires Reschedule(db, patientId, appointmentId, newTime, newDoctorId, seen).message == UpdateSucceeded
    ensures Truthy(patientId) && FindOwned(db.appointments, appointmentId, patientId.value).Some?
    ensures var after := Reschedule(db, patientId, appointmentId, newTime, newDoctorId, seen).db.appointments;
            var i := FindOwned(db.appointments, appointmentId, patientId.value).value;
            && |after| == |db.appointments|
            && after[i].id == appointmentId && after[i].patientId == patientId.value
            && after[i].status == Scheduled
            && (newTime.Some? ==> after[i].start == newTime.value && after[i].end == newTime.value + AppointmentMinutes)
            && (newTime.None? ==> after[i].start == db.appointments[i].start)
            && (DoctorGiven(newDoctorId) ==> after[i].doctorId == newDoctorId.value)
            && (!DoctorGiven(newDoctorId) ==> after[i].doctorId == db.appointments[i].doctorId)
            && forall j :: 0 <= j < |after| && !Owned(db.appointments[j], appointmentId, patientId.value) ==>
                 after[j] == db.appointments[j]
  {
    assert NotOwned != UpdateSucceeded;
    assert NotModifiable != UpdateSucceeded;
  }

  /** The doctor a new time is validated against: the new one when given, otherwise the row's own. */
  function CheckedDoctor(db: Db, appointmentId: int, newDoctorId: Option<int>): int
    requires FindById(db.appointments, appointmentId).Some?
  {
    if DoctorGiven(newDoctorId) then newDoctorId.value
    else db.appointments[FindById(db.appointments, appointmentId).value].doctorId
  }

  /** An update that succeeds with a new time found the row and passed the validation against `seen`. */
  lemma RescheduleValidated(db: Db, patientId: Option<string>, appointmentId: int, newTime: Option<int>,
                            newDoctorId: Option<int>, seen: seq<Appt>)
    requires Reschedule(db, patientId, appointmentId, newTime, newDoctorId, seen).Returned?
    requires Reschedule(db, patientId, appointmentId, newTime, newDoctorId, seen).message == UpdateSucceeded
    requires newTime.Some?
    ensures FindById(db.appointments, appointmentId).Some?
    ensures ValidateAppointmentTime(db.doctors, seen, CheckedDoctor(db, appointmentId, newDoctorId), newTime.value).valid
  {
    UpdateMovesOwnedRow(db, patientId, appointmentId, newTime, newDoctorId, seen);
    var i := FindOwned(db.appointments, appointmentId, patientId.value).value;
    assert ((a: Appt) => a.id == appointmentId)(db.appointments[i]);
  }

  /**
   * `update_appointment` as written: the new time is checked against every row, the moved one
   * included, so an accepted new time is clear of every scheduled row of the checked doctor.
   */
  function UpdateAppointment(db: Db, patientId: Option<string>, appointmentId: int, newTime: Option<int>,
                             newDoctorId: Option<int>): (r: Outcome)
    ensures r.Returned? && r.message == UpdateSucceeded && newTime.Some? ==>
              && FindById(db.appointments, appointmentId).Some?
              && forall j :: 0 <= j < |db.appointments| && db.appointments[j].status == Scheduled
                             && db.appointments[j].doctorId == CheckedDoctor(db, appointmentId, newDoctorId) ==>
                   db.appointments[j].end <= newTime.value || newTime.value + AppointmentMinutes <= db.appointments[j].start
  {
    var r := Reschedule(db, patientId, appointmentId, newTime, newDoctorId, db.appointments);
    if r.Returned? && r.message == UpdateSucceeded && newTime.Some? then
      RescheduleValidated(db, patientId, appointmentId, newTime, newDoctorId, db.appointments);
      var d := CheckedDoctor(db, appointmentId, newDoctorId);
      assert forall j :: 0 <= j < |db.appointments| && db.appointments[j].status == Scheduled
                         && db.appointments[j].doctorId == d ==>
               db.appointments[j].end <= newTime.value || newTime.value + AppointmentMinutes <= db.appointments[j].start by {
        forall j | 0 <= j < |db.appointments| && db.appointments[j].status == Scheduled && db.appointments[j].doctorId == d
          ensures db.appointments[j].end <= newTime.value || newTime.value + AppointmentMinutes <= db.appointments[j].start
        {
          ValidTimeIsFree(db.doctors, db.appointments, d, newTime.value, j);
        }
      }
      r
    else r
  }

  /** The rows other than the one with the id. */
  function Without(appts: seq<Appt>, id: int): (r: seq<Appt>)
    ensures forall a :: a in r <==> a in appts && a.id != id
  {
    if |appts| == 0 then []
    else (if appts[0].id == id then [] else [appts[0]]) + Without(appts[1..], id)
  }

  /**
   * The evidently intended update: the moved appointment does not count against its own new time,
   * so an accepted new time is clear of every other scheduled row of the checked doctor; without a
   * new time it decides exactly as the tool does.
   */
  function UpdateAppointmentIntended(db: Db, patientId: Option<string>, appointmentId: int, newTime: Option<int>,
                                     newDoctorId: Option<int>): (r: Outcome)
    ensures r.Returned? && r.message == UpdateSucceeded && newTime.Some? ==>
              && FindById(db.appointments, appointmentId).Some?
              && forall j :: 0 <= j < |db.appointments| && db.appointments[j].id != appointmentId
                             && db.appointments[j].status == Scheduled
                             && db.appointments[j].doctorId == CheckedDoctor(db, appointmentId, newDoctorId) ==>
                   db.appointments[j].end <= newTime.value || newTime.value + AppointmentMinutes <= db.appointments[j].start
    ensures newTime.None? ==> r == UpdateAppointment(db, patientId, appointmentId, newTime, newDoctorId)
  {
    var others := Without(db.appointments, appointmentId);
    var r := Reschedule(db, patientId, appointmentId, newTime, newDoctorId, others);
    if r.Returned? && r.message == UpdateSucceeded && newTime.Some? then
      RescheduleValidated(db, patientId, appointmentId, newTime, newDoctorId, others);
      var d := CheckedDoctor(db, appointmentId, newDoctorId);
      assert forall j :: 0 <= j < |db.appointments| && db.appointments[j].id != appointmentId
                         && db.appointments[j].status == Scheduled && db.appointments[j].doctorId == d ==>
               db.appointments[j].end <= newTime.value || newTime.value + AppointmentMinutes <= db.appointments[j].start by {
        forall j | 0 <= j < |db.appointments| && db.appointments[j].id != appointmentId
                   && db.appointments[j].status == Scheduled && db.appointments[j].doctorId == d
          ensures db.appointments[j].end <= newTime.value || newTime.value + AppointmentMinutes <= db.appointments[j].start
        {
          assert db.appointments[j] in others;
          var k :| 0 <= k < |others| && others[k] == db.appointments[j];
          ValidTimeIsFree(db.doctors, others, d, newTime.value, k);
        }
      }
      r
    else r
  }

  const ShiftDoctor: Doctor := Doctor(7, 1, None, None, 10)
  const ShiftDb: Db := Db([ShiftDoctor], [Appt(1, "p1", 7, 1, 600, 630, "checkup", "", Scheduled, None)], [])

  lemma ShiftClashesWithItself()
    ensures ValidateAppointmentTime(ShiftDb.doctors, ShiftDb.appointments, 7, 615)
            == Check(false, SlotTaken)
  {
    assert (a => Clashes(a, 7, 615))(ShiftDb.appointments[0]);
    assert DailyCount(ShiftDb.appointments, 7, 615) <= 1;
  }

  lemma ShiftRowFound()
    ensures FindOwned(ShiftDb.appointments, 1, "p1") == Some(0)
    ensures FindById(ShiftDb.appointments, 1) == Some(0)
  {
  }

  /** Moving a lone appointment by 15 minutes collides with the appointment itself. */
  lemma UpdateRejectsSmallShift()
    ensures UpdateAppointment(ShiftDb, Some("p1"), 1, Some(615), None)
            == Returned(InvalidNewTime + SlotTaken, ShiftDb)
  {
    ShiftClashesWithItself();
    ShiftRowFound();
  }

  /** Under the intended rule a move succeeds when no other row blocks the new time. */
  lemma IntendedUpdateMoves(db: Db, p: string, appointmentId: int, t: int)
    requires p != ""
    requires FindOwned(db.appointments, appointmentId, p).Some?
    requires db.appointments[FindOwned(db.appointments, appointmentId, p).value].status == Scheduled
    requires var d := db.appointments[FindById(db.appointments, appointmentId).value].doctorId;
             ValidateAppointmentTime(db.doctors, Without(db.appointments, appointmentId), d, t).valid
    ensures UpdateAppointmentIntended(db, Some(p), appointmentId, Some(t), None)
            == Returned(UpdateSucceeded,
                        db.(appointments := RewriteOwned(db.appointments, appointmentId, p, Some(t), None)))
  {
    var seen := Without(db.appointments, appointmentId);
    var d := db.appointments[FindById(db.appointments, appointmentId).value].doctorId;
    assert !DoctorGiven(None);
    var r := Reschedule(db, Some(p), appointmentId, Some(t), None, seen);
    assert r.Returned? && r.message == UpdateSucceeded;
  }

  // ---------------------------------------------------------------------------
  // cancel_appointment

  const NotCancellable: string := "Cannot cancel completed or already cancelled appointments."
  const TooLateToCancel: string := "Cannot cancel appointments less than 24 hours before scheduled time."
  const CancelSucceeded: string := "Appointment successfully cancelled"

  /** `cancel_appointment`, at time `now`. */
  function CancelAppointment(db: Db, patientId: Option<string>, appointmentId: int, reason: string, now: int): (r: Outcome)
    ensures r.Raised? <==> !Truthy(patientId)
    ensures Truthy(patientId) && FindOwned(db.appointments, appointmentId, patientId.value).None? ==>
              r == Returned(NotOwned, db)
    ensures Truthy(patientId) && FindOwned(db.appointments, appointmentId, patientId.value).Some? ==>
              var a := db.appointments[FindOwned(db.appointments, appointmentId, patientId.value).value];
              && (a.status != Scheduled ==>
                    r == Returned(NotCancellable, db))
              && (a.status == Scheduled && a.start - now < 24 * 60 ==>
                    r == Returned(TooLateToCancel, db))
              && (a.status == Scheduled && a.start - now >= 24 * 60 ==>
                    && r.Returned? && r.message == CancelSucceeded
                    && r.db.doctors == db.doctors && r.db.reviews == db.reviews
                    && |r.db.appointments| == |db.appointments|
                    && forall j :: 0 <= j < |db.appointments| ==>
                         r.db.appointments[j] ==
                           if Owned(db.appointments[j], appointmentId, patientId.value)
                           then db.appointments[j].(status := Cancelled, cancelledReason := Some(reason))
                           else db.appointments[j])
  {
    if !Truthy(patientId) then Raised
    else
      var p := patientId.value;
      match FindOwned(db.appointments, appointmentId, p)
      case None => Returned(NotOwned, db)
      case Some(i) =>
        var a := db.appointments[i];
        if a.status != Scheduled then Returned(NotCancellable, db)
        else if a.start - now < 24 * 60 then Returned(TooLateToCancel, db)
        else
          Returned(CancelSucceeded, db.(appointments := CancelOwned(db.appointments, appointmentId, p, reason)))
  }

  /** The UPDATE of `cancel_appointment`: the rows the patient owns with that id become cancelled with the reason. */
  function CancelOwned(appts: seq<Appt>, appointmentId: int, p: string, reason: string): (rows: seq<Appt>)
    ensures |rows| == |appts|
    ensures forall j :: 0 <= j < |appts| ==>
              rows[j] == if Owned(appts[j], appointmentId, p)
                         then appts[j].(status := Cancelled, cancelledReason := Some(reason))
                         else appts[j]
  {
    seq(|appts|, j requires 0 <= j < |appts| =>
      if Owned(appts[j], appointmentId, p)
      then appts[j].(status := Cancelled, cancelledReason := Some(reason))
      else appts[j])
  }

  /** Cancelling a cancelled appointment is refused and changes nothing. */
  lemma CancelTwice(db: Db, p: string, appointmentId: int, reason: string, now: int, reason2: string, later: int)
    requires var r := CancelAppointment(db, Some(p), appointmentId, reason, now);
             r.Returned? && r.message == CancelSucceeded
    ensures var after := CancelAppointment(db, Some(p), appointmentId, reason, now).db;
            CancelAppointment(after, Some(p), appointmentId, reason2, later)
            == Returned(NotCancellable, after)
  {
    var after := CancelAppointment(db, Some(p), appointmentId, reason, now).db;
    FindFirstAgrees(db.appointments, after.appointments, a => Owned(a, appointmentId, p));
  }

  // ---------------------------------------------------------------------------
  // submit_doctor_review

  predicate CompletedWith(a: Appt, patientId: string, doctorId: int)
  {
    a.patientId == patientId && a.doctorId == doctorId && a.status == Completed
  }

  function CompletedVisits(appts: seq<Appt>, patientId: string, doctorId: int): nat
  {
    CountIf(appts, a => CompletedWith(a, patientId, doctorId))
  }

  const RatingOutOfRange: string := "Rating must be between 1 and 5"
  const NoCompletedVisit: string := "You can only review doctors you have had appointments with"
  const ReviewSubmitted: string := "Review submitted successfully"
  /** `submit_doctor_review`: the rating is checked before the tables are consulted. */
  function SubmitDoctorReview(db: Db, patientId: Option<string>, doctorId: int, rating: int, comment: string): (r: Outcome)
    ensures r.Raised? <==> !Truthy(patientId)
    ensures Truthy(patientId) && !(1 <= rating <= 5) ==> r == Returned(RatingOutOfRange, db)
    ensures Truthy(patientId) && 1 <= rating <= 5 && CompletedVisits(db.appointments, patientId.value, doctorId) == 0 ==>
              r == Returned(NoCompletedVisit, db)
    ensures Truthy(patientId) && 1 <= rating <= 5 && CompletedVisits(db.appointments, patientId.value, doctorId) > 0 ==>
              r == Returned(ReviewSubmitted,
                            db.(reviews := db.reviews + [Review(doctorId, patientId.value, rating, comment)]))
  {
    if !Truthy(patientId) then Raised
    else if !(1 <= rating <= 5) then Returned(RatingOutOfRange, db)
    else if CompletedVisits(db.appointments, patientId.value, doctorId) == 0 then
      Returned(NoCompletedVisit, db)
    else Returned(ReviewSubmitted, db.(reviews := db.reviews + [Review(doctorId, patientId.value, rating, comment)]))
  }

  /** Every stored review is rated 1 to 5 and backed by a completed visit with that doctor. */
  ghost predicate ReviewsBacked(db: Db)
  {
    forall k :: 0 <= k < |db.reviews| ==>
      1 <= db.reviews[k].rating <= 5 &&
      exists i :: 0 <= i < |db.appointments| && db.appointments[i].patientId == db.reviews[k].patientId &&
                  db.appointments[i].doctorId == db.reviews[k].doctorId && db.appointments[i].status == Completed
  }

  lemma SubmitKeepsReviewsBacked(db: Db, patientId: Option<string>, doctorId: int, rating: int, comment: string)
    requires ReviewsBacked(db)
    requires SubmitDoctorReview(db, patientId, doctorId, rating, comment).Returned?
    ensures ReviewsBacked(SubmitDoctorReview(db, patientId, doctorId, rating, comment).db)
  {
    var r := SubmitDoctorReview(db, patientId, doctorId, rating, comment);
    if r.db != db {
      var p := patientId.value;
      assert exists i :: 0 <= i < |db.appointments| && (a => CompletedWith(a, p, doctorId))(db.appointments[i]);
      assert r.db.reviews[|db.reviews|] == Review(doctorId, p, rating, comment);
    }
  }
}
