/** The admin overview: the three headline numbers, the completed / pending tally
    per doctor and the seven-day appointment chart. */
module Dashboard {
  import opened Base
  import opened Entities
  import opened Seqs

  /** An appointment dated on the given calendar day. */
  predicate OnDay(a: Appointment, day: int) {
    a.appointmentDate.Some? && DayOf(a.appointmentDate.value) == day
  }

  function OnDayBy(day: int): Appointment -> bool { a => OnDay(a, day) }

  /** The headline numbers; `allAppointments` is None until a load succeeds. */
  datatype Stats = Stats(totalPatients: nat, activeDoctors: nat, todaysAppointments: nat,
                         allAppointments: Option<seq<Appointment>>)

  const InitialStats: Stats := Stats(0, 0, 0, None)

  /** `loadStats`: the patient count, every returned doctor counted as active
      whatever its status, and the appointments dated today.  A missing date makes
      `startsWith` throw; the error is caught and the numbers stay as they were. */
  function LoadedStats(previous: Stats, patients: seq<Patient>, doctors: seq<Doctor>, appointments: seq<Appointment>, now: int)
    : (r: Stats)
    ensures (exists i :: 0 <= i < |appointments| && appointments[i].appointmentDate.None?) ==> r == previous
    ensures (forall i :: 0 <= i < |appointments| ==> appointments[i].appointmentDate.Some?) ==>
              && r.totalPatients == |patients| && r.activeDoctors == |doctors|
              && r.todaysAppointments <= |appointments|
              && r.todaysAppointments == |Filter(OnDayBy(DayOf(now)), appointments)|
              && r.allAppointments == Some(appointments)
  {
    if exists i :: 0 <= i < |appointments| && appointments[i].appointmentDate.None? then previous
    else Stats(|patients|, |doctors|, Count(OnDayBy(DayOf(now)), appointments), Some(appointments))
  }

  /** A doctor's tally: completed, and everything else (scheduled, cancelled or
      without a status) as pending. */
  datatype Tally = Tally(completed: nat, pending: nat)

  predicate ForDoctor(a: Appointment, id: int) { DoctorIdOf(a) == Some(id) }

  /** Which of a doctor's appointments are counted: all, the completed ones, or
      the others. */
  datatype Kind = All | Completed | Pending

  predicate CountedAs(a: Appointment, id: int, kind: Kind) {
    ForDoctor(a, id) &&
    match kind
    case All => true
    case Completed => a.status == Some(COMPLETED)
    case Pending => a.status != Some(COMPLETED)
  }

  /** The number of the doctor's appointments of that kind in s. */
  function CountFor(s: seq<Appointment>, id: int, kind: Kind): nat
    decreases |s|
  {
    if s == [] then 0
    else CountFor(s[..|s| - 1], id, kind) + if CountedAs(s[|s| - 1], id, kind) then 1 else 0
  }

  lemma CountForSnoc(s: seq<Appointment>, apt: Appointment, id: int, kind: Kind)
    ensures CountFor(s + [apt], id, kind) == CountFor(s, id, kind) + if CountedAs(apt, id, kind) then 1 else 0
  {
    assert (s + [apt])[..|s|] == s;
  }

  /** A doctor's completed and pending counts add up to all of the doctor's
      appointments. */
  lemma {:induction false} TallyAddsUp(id: int, s: seq<Appointment>)
    ensures CountFor(s, id, Completed) + CountFor(s, id, Pending) == CountFor(s, id, All)
    decreases |s|
  {
    if s != [] {
      TallyAddsUp(id, s[..|s| - 1]);
    }
  }

  /** The doctor's entry as the tally should hold it after s. */
  function TallyFor(s: seq<Appointment>, id: int): Tally {
    Tally(CountFor(s, id, Completed), CountFor(s, id, Pending))
  }

  /** m tallies the appointments of s: an entry for every non-zero doctor id that
      occurs, holding that doctor's completed and pending counts. */
  ghost predicate TalliesOf(m: map<int, Tally>, s: seq<Appointment>) {
    && (forall id :: id in m <==> id != 0 && CountFor(s, id, All) > 0)
    && (forall id :: id in m ==> m[id] == TallyFor(s, id))
  }

  /** What one iteration of the `forEach` does to the dictionary. */
  function Step(m: map<int, Tally>, apt: Appointment): map<int, Tally> {
    var d := DoctorIdOf(apt);
    if d.None? || d.value == 0 then m
    else
      var t := if d.value in m then m[d.value] else Tally(0, 0);
      m[d.value := if apt.status == Some(COMPLETED) then t.(completed := t.completed + 1) else t.(pending := t.pending + 1)]
  }

  lemma StepAt(m: map<int, Tally>, s: seq<Appointment>, apt: Appointment, id: int)
    requires id in m <==> id != 0 && CountFor(s, id, All) > 0
    requires id in m ==> m[id] == TallyFor(s, id)
    ensures id in Step(m, apt) <==> id != 0 && CountFor(s + [apt], id, All) > 0
    ensures id in Step(m, apt) ==> Step(m, apt)[id] == TallyFor(s + [apt], id)
  {
    CountForSnoc(s, apt, id, All);
    CountForSnoc(s, apt, id, Completed);
    CountForSnoc(s, apt, id, Pending);
    if id !in m {
      TallyAddsUp(id, s);
    }
  }

  /** One iteration extends the tally by one appointment. */
  lemma StepTallies(m: map<int, Tally>, s: seq<Appointment>, apt: Appointment)
    requires TalliesOf(m, s)
    ensures TalliesOf(Step(m, apt), s + [apt])
  {
    forall id
      ensures id in Step(m, apt) <==> id != 0 && CountFor(s + [apt], id, All) > 0
      ensures id in Step(m, apt) ==> Step(m, apt)[id] == TallyFor(s + [apt], id)
    {
      StepAt(m, s, apt, id);
    }
  }

  /** `appointmentsByDoctor`, built by one pass over the appointments.  Only
      doctor ids that are present and non-zero (`if (doctorId)`) get an entry;
      each entry counts that doctor's completed and other appointments. */
  method AppointmentsByDoctor(appointments: seq<Appointment>) returns (m: map<int, Tally>)
    ensures forall id :: id in m <==> id != 0 && CountFor(appointments, id, All) > 0
    ensures forall id :: id in m ==> m[id] == TallyFor(appointments, id)
    ensures forall id :: id in m ==> m[id].completed + m[id].pending == CountFor(appointments, id, All)
  {
    m := map[];
    var i := 0;
    while i < |appointments|
      invariant 0 <= i <= |appointments|
      invariant TalliesOf(m, appointments[..i])
    {
      var apt := appointments[i];
      var before := m;
      var doctorId := DoctorIdOf(apt);
      if doctorId.Some? && doctorId.value != 0 {
        var id := doctorId.value;
        if id !in m {
          m := m[id := Tally(0, 0)];
        }
        if apt.status == Some(COMPLETED) {
          m := m[id := m[id].(completed := m[id].completed + 1)];
        } else {
          m := m[id := m[id].(pending := m[id].pending + 1)];
        }
      }
      assert m == Step(before, apt);
      StepTallies(before, appointments[..i], apt);
      assert appointments[..i + 1] == appointments[..i] + [apt];
      i := i + 1;
    }
    assert appointments[..i] == appointments;
    forall id | id in m ensures m[id].completed + m[id].pending == CountFor(appointments, id, All) {
      TallyAddsUp(id, appointments);
    }
  }

  /** `['Sun', ..., 'Sat'][d.getDay()]`; day 0 of the epoch, 1 January 1970, was a
      Thursday. */
  const DayNames: seq<string> := ["Sun", "Mon", "Tue", "Wed", "Thu", "Fri", "Sat"]

  function DayName(day: int): string {
    DayNames[(day + 4) % 7]
  }

  /** One bar of the chart: its day, its label and the appointments counted. */
  datatype DayStat = DayStat(day: int, dayName: string, count: nat)

  /** `Math.max(...counts, 1)` */
  function MaxCount(days: seq<DayStat>): (r: nat)
    ensures r >= 1
    ensures forall k :: 0 <= k < |days| ==> days[k].count <= r
    ensures r == 1 || exists k :: 0 <= k < |days| && days[k].count == r
    decreases |days|
  {
    if days == [] then 1
    else
      var rest := MaxCount(days[1..]);
      if days[0].count > rest then days[0].count else rest
  }

  /** `last7Days.find(d => d.date === aptDate)`: the first bar of that day. */
  function FindDay(days: seq<DayStat>, day: int): (r: Option<nat>)
    ensures r.Some? ==> r.value < |days| && days[r.value].day == day
    ensures r.None? ==> forall k :: 0 <= k < |days| ==> days[k].day != day
    decreases |days|
  {
    if days == [] then None
    else if days[0].day == day then Some(0)
    else
      var r := FindDay(days[1..], day);
      if r.Some? then Some(r.value + 1) else None
  }

  /** One step of the counting loop: the bar found for `day`, if any, counts one
      more; with bars of distinct days that is exactly the bar of that day. */
  function Bump(days: seq<DayStat>, day: int): (r: seq<DayStat>)
    requires forall j, k :: 0 <= j < k < |days| ==> days[j].day != days[k].day
    ensures |r| == |days|
    ensures forall k :: 0 <= k < |r| ==>
              r[k].day == days[k].day && r[k].dayName == days[k].dayName
              && r[k].count == days[k].count + (if days[k].day == day then 1 else 0)
  {
    var found := FindDay(days, day);
    if found.Some? then days[found.value := days[found.value].(count := days[found.value].count + 1)]
    else days
  }

  /** The counting loop of `getAppointmentChartData`: each appointment adds one
      to the bar of its day, if there is one; the bars start at zero and are of
      distinct days, so each ends up counting the appointments of its day. */
  method CountByDay(blank: seq<DayStat>, apts: seq<Appointment>) returns (days: seq<DayStat>)
    requires forall i :: 0 <= i < |apts| ==> apts[i].appointmentDate.Some?
    requires forall k :: 0 <= k < |blank| ==> blank[k].count == 0
    requires forall j, k :: 0 <= j < k < |blank| ==> blank[j].day != blank[k].day
    ensures |days| == |blank|
    ensures forall k :: 0 <= k < |days| ==> days[k].day == blank[k].day && days[k].dayName == blank[k].dayName
    ensures forall k :: 0 <= k < |days| ==> days[k].count == Count(OnDayBy(days[k].day), apts)
  {
    days := blank;
    var j := 0;
    while j < |apts|
      invariant 0 <= j <= |apts| && |days| == |blank|
      invariant forall k :: 0 <= k < |days| ==> days[k].day == blank[k].day && days[k].dayName == blank[k].dayName
      invariant forall k :: 0 <= k < |days| ==> days[k].count == Count(OnDayBy(days[k].day), apts[..j])
    {
      var apt := apts[j];
      assert apts[..j + 1] == apts[..j] + [apt];
      forall k | 0 <= k < |days|
        ensures Count(OnDayBy(days[k].day), apts[..j + 1]) == Count(OnDayBy(days[k].day), apts[..j]) + (if OnDay(apt, days[k].day) then 1 else 0)
      {
        CountSnoc(OnDayBy(days[k].day), apts[..j], apt);
      }
      days := Bump(days, DayOf(apt.appointmentDate.value));
      j := j + 1;
    }
    assert apts[..j] == apts;
  }

  /** `getAppointmentChartData`: seven bars for the six days before today and
      today, oldest first, each counting the appointments dated on its day (all
      zero before the appointments are loaded), and the largest count, at least 1.
      A missing date would make `split` throw; loading never stores such a list. */
  method AppointmentChartData(allAppointments: Option<seq<Appointment>>, now: int) returns (days: seq<DayStat>, maxCount: nat)
    requires allAppointments.Some? ==> forall i :: 0 <= i < |allAppointments.value| ==> allAppointments.value[i].appointmentDate.Some?
    ensures |days| == 7
    ensures forall k :: 0 <= k < 7 ==> days[k].day == DayOf(now) - 6 + k && days[k].dayName == DayName(days[k].day)
    ensures forall k :: 0 <= k < 7 ==>
              days[k].count == if allAppointments.None? then 0 else Count(OnDayBy(days[k].day), allAppointments.value)
    ensures maxCount >= 1 && forall k :: 0 <= k < 7 ==> days[k].count <= maxCount
    ensures maxCount == 1 || exists k :: 0 <= k < 7 && days[k].count == maxCount
  {
    var today := DayOf(now);
    days := [];
    var i := 6;
    while i >= 0
      invariant -1 <= i <= 6 && |days| == 6 - i
      invariant forall k :: 0 <= k < |days| ==> days[k] == DayStat(today - 6 + k, DayName(today - 6 + k), 0)
    {
      days := days + [DayStat(today - i, DayName(today - i), 0)];
      i := i - 1;
    }
    if allAppointments.Some? {
      days := CountByDay(days, allAppointments.value);
    }
    maxCount := MaxCount(days);
  }
}
