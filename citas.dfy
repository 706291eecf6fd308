/** The appointments router: a patient's request, the priority-based doctor and
    time assignment it runs, and the role-filtered listing.

    app/routes/citas.py uses attribute names the models do not define; the model
    follows the evident intent under this renaming:
      urgency_level          -> priority_level  (PriorityLevel)
      PriorityLevel.CRITICAL -> PriorityLevel.URGENT
      AppointmentStatus.PENDING -> AppointmentStatus.REQUESTED
      scheduled_at           -> start_time
      is_telemedicine        -> is_virtual
      reason                 -> notes
    The clock (`datetime.utcnow()`) is the parameter `now`, an instant in minutes. */
module Citas {
  import opened Wrappers
  import opened Users
  import opened Appointments
  import opened Errors
  import opened Database

  /** `query(User).filter(User.role == DOCTOR).first()`: the first DOCTOR row of the
      table, active or not; there is no load balancing. */
  function FirstDoctor(users: seq<User>): (d: Option<User>)
    ensures d.Some? ==> exists k :: 0 <= k < |users| && users[k] == d.value
                                   && (forall j :: 0 <= j < k ==> users[j].role != Doctor)
    ensures d.Some? ==> d.value in users && d.value.role == Doctor
    ensures d.None? <==> forall u :: u in users ==> u.role != Doctor
  {
    if users == [] then None
    else if users[0].role == Doctor then Some(users[0])
    else FirstDoctor(users[1..])
  }

  /** How far after `now` an appointment of priority p is placed. */
  function ScheduleOffset(p: PriorityLevel): (minutes: int)
    ensures minutes > 0
  {
    if p == Urgent then 30 else if p == High then 2 * 60 else 24 * 60
  }

  /** URGENT is placed 30 minutes out, HIGH 2 hours, MEDIUM and LOW 24 hours. */
  lemma ScheduleOffsets()
    ensures ScheduleOffset(Urgent) == 30 && ScheduleOffset(High) == 120
    ensures ScheduleOffset(Medium) == 1440 && ScheduleOffset(Low) == 1440
  {
  }

  /** A higher priority is never scheduled later than a lower one; equal-ranked
      MEDIUM and LOW share the same offset. */
  lemma HigherPriorityNeverLater(p: PriorityLevel, q: PriorityLevel)
    requires p.Rank() >= q.Rank()
    ensures ScheduleOffset(p) <= ScheduleOffset(q)
    ensures p.Rank() > q.Rank() && q != Low ==> ScheduleOffset(p) < ScheduleOffset(q)
  {
  }

  /** The row after `assign_priority_and_schedule`. With a doctor in the table, the
      first one is assigned, the start is set by priority and the status becomes
      CONFIRMED; otherwise only the status is (re)set to REQUESTED. Nothing but
      doctor, start time and status changes. */
  function Assigned(rec: AppointmentRecord, users: seq<User>, now: int): (r: AppointmentRecord)
    ensures r.(doctorId := rec.doctorId, startTime := rec.startTime, status := rec.status) == rec
    ensures r.status == Confirmed <==> exists u :: u in users && u.role == Doctor
    ensures r.status == Confirmed ==>
              (exists u :: u in users && u.role == Doctor && r.doctorId == Some(u.id))
              && r.startTime == Some(now + ScheduleOffset(rec.priorityLevel))
    ensures r.status != Confirmed ==>
              r.status == Requested && r.doctorId == rec.doctorId && r.startTime == rec.startTime
  {
    match FirstDoctor(users)
    case Some(d) => rec.(doctorId := Some(d.id), startTime := Some(now + ScheduleOffset(rec.priorityLevel)), status := Confirmed)
    case None => rec.(status := Requested)
  }

  /** The doctor assigned is exactly the first DOCTOR row. */
  lemma AssignedPicksFirstDoctor(rec: AppointmentRecord, users: seq<User>, now: int, k: nat)
    requires k < |users| && users[k].role == Doctor
    requires forall j :: 0 <= j < k ==> users[j].role != Doctor
    ensures Assigned(rec, users, now).doctorId == Some(users[k].id)
    ensures Assigned(rec, users, now).status == Confirmed
  {
    FirstDoctorIsFirst(users, k);
  }

  lemma {:induction false} FirstDoctorIsFirst(users: seq<User>, k: nat)
    requires k < |users| && users[k].role == Doctor
    requires forall j :: 0 <= j < k ==> users[j].role != Doctor
    ensures FirstDoctor(users) == Some(users[k])
    decreases k
  {
    if k > 0 {
      assert users[0].role != Doctor;
      FirstDoctorIsFirst(users[1..], k - 1);
    }
  }

  /** Every start time the scheduler sets lies strictly after `now`, at the offset
      of the appointment's priority. */
  lemma AssignedStartByPriority(rec: AppointmentRecord, users: seq<User>, now: int)
    requires exists u :: u in users && u.role == Doctor
    ensures var r := Assigned(rec, users, now);
            && r.startTime.Some? && r.startTime.value > now
            && (rec.priorityLevel == Urgent ==> r.startTime.value == now + 30)
            && (rec.priorityLevel == High ==> r.startTime.value == now + 120)
            && (rec.priorityLevel in {Medium, Low} ==> r.startTime.value == now + 1440)
  {
  }

  /** `assign_priority_and_schedule`: writes doctor, start time and status in place.
      The priority is compared through its `.value` string, as `assign_priority_and_schedule` does. */
  method AssignPriorityAndSchedule(users: seq<User>, appointment: Appointment, now: int)
    modifies appointment`doctorId, appointment`startTime, appointment`status
    ensures appointment.Record() == Assigned(old(appointment.Record()), users, now)
  {
    var priorityScore := appointment.priorityLevel.Value();
    var availableDoctor := FirstDoctor(users);
    if availableDoctor.Some? {
      appointment.doctorId := Some(availableDoctor.value.id);
      var scheduledTime;
      PriorityValueInjective(appointment.priorityLevel, Urgent);
      PriorityValueInjective(appointment.priorityLevel, High);
      if priorityScore == Urgent.Value() {
        scheduledTime := now + 30;
      } else if priorityScore == High.Value() {
        scheduledTime := now + 2 * 60;
      } else {
        scheduledTime := now + 24 * 60;
      }
      appointment.startTime := Some(scheduledTime);
      appointment.status := Confirmed;
    } else {
      appointment.status := Requested;
    }
  }

  /** The `AppointmentCreate` body. The route reads only priority, virtuality and notes;
      the requested doctor and times are ignored. */
  datatype AppointmentCreate = AppointmentCreate(
    doctorId: Option<int>,
    startTime: int,
    endTime: int,
    isVirtual: bool,
    priorityLevel: PriorityLevel,
    notes: Option<string>)

  const OnlyPatientsDetail := "Solo los pacientes pueden solicitar citas."

  /** The pending row `request_appointment` builds for a patient before assignment. */
  function PendingRequest(patientId: int, data: AppointmentCreate, now: int): AppointmentRecord {
    AppointmentRecord(None, patientId, None, None, None, data.isVirtual, data.priorityLevel,
                      Requested, None, data.notes, now)
  }

  /** The appointment a patient's request stores belongs to the caller, keeps the
      requested priority, virtuality and notes, ignores the requested doctor and
      times, and is either CONFIRMED with a DOCTOR or still REQUESTED with none. */
  lemma RequestOutcome(caller: User, data: AppointmentCreate, users: seq<User>, now: int)
    ensures var r := Assigned(PendingRequest(caller.id, data, now), users, now);
            && r.patientId == caller.id
            && r.priorityLevel == data.priorityLevel && r.isVirtual == data.isVirtual && r.notes == data.notes
            && r.endTime == None && r.videoUrl == None && r.createdAt == now
            && (r.status == Requested ==> r.doctorId == None && r.startTime == None)
            && (r.status == Confirmed ==> r.doctorId.Some? && r.startTime.Some? && r.startTime.value > now)
            && (r.status == Requested || r.status == Confirmed)
  {
  }

  /** `request_appointment`. Anyone but a PATIENT gets 403 and nothing is stored;
      a patient's request is built REQUESTED, assigned, and stored with a new id. */
  method RequestAppointment(db: Session, caller: User, data: AppointmentCreate, now: int)
    returns (r: Result<AppointmentRecord, HttpException>)
    requires db.Valid()
    modifies db
    ensures db.Valid()
    ensures db.users == old(db.users) && db.nextUserId == old(db.nextUserId)
    ensures caller.role != Patient ==>
              && r == Failure(Raise(Forbidden, OnlyPatientsDetail))
              && db.appointments == old(db.appointments)
              && db.nextAppointmentId == old(db.nextAppointmentId)
    ensures caller.role == Patient ==>
              && r.Success?
              && r.value == Assigned(PendingRequest(caller.id, data, now), old(db.users), now).(id := Some(old(db.nextAppointmentId)))
              && db.appointments == old(db.appointments) + [r.value]
  {
    if caller.role != Patient {
      return Failure(Raise(Forbidden, OnlyPatientsDetail));
    }
    var appointment := new Appointment(caller.id, data.notes, Some(data.priorityLevel),
                                       Some(data.isVirtual), Some(Requested), now);
    AssignPriorityAndSchedule(db.users, appointment, now);
    db.AddAppointment(appointment);
    r := Success(appointment.Record());
  }

  /** The rows of s that `keep` accepts, in their order (a `filter(...).all()`):
      each accepted row as often as it is stored, and no other row. */
  function Where(s: seq<AppointmentRecord>, keep: AppointmentRecord -> bool): (r: seq<AppointmentRecord>)
    ensures |r| <= |s|
    ensures forall x :: multiset(r)[x] == if keep(x) then multiset(s)[x] else 0
    ensures forall x :: x in r <==> x in s && keep(x)
    decreases |s|
  {
    if s == [] then []
    else
      assert s == [s[0]] + s[1..];
      if keep(s[0]) then [s[0]] + Where(s[1..], keep)
      else Where(s[1..], keep)
  }

  const AdminListingDetail := "Acceso no autorizado para este rol. Por favor use una ruta específica de administrador."

  /** `get_my_appointments`: a patient sees the rows where they are the patient, a
      doctor the rows assigned to them, each as often as it is stored (so in
      particular exactly those rows); an admin gets 403. */
  function GetMyAppointments(caller: User, rows: seq<AppointmentRecord>): (r: Result<seq<AppointmentRecord>, HttpException>)
    ensures caller.role == Patient ==>
              && r.Success?
              && (forall a :: multiset(r.value)[a] == if a.patientId == caller.id then multiset(rows)[a] else 0)
              && (forall a :: a in r.value <==> a in rows && a.patientId == caller.id)
    ensures caller.role == Doctor ==>
              && r.Success?
              && (forall a :: multiset(r.value)[a] == if a.doctorId == Some(caller.id) then multiset(rows)[a] else 0)
              && (forall a :: a in r.value <==> a in rows && a.doctorId == Some(caller.id))
    ensures caller.role == Admin ==> r == Failure(Raise(Forbidden, AdminListingDetail))
  {
    if caller.role == Patient then
      Success(Where(rows, (a: AppointmentRecord) => a.patientId == caller.id))
    else if caller.role == Doctor then
      Success(Where(rows, (a: AppointmentRecord) => a.doctorId == Some(caller.id)))
    else
      Failure(Raise(Forbidden, AdminListingDetail))
  }
}
