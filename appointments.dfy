/** The `appointments` table: priority and status enums, the stored row, and
    the ORM object whose fields the scheduling code assigns in place. */
module Appointments {
  import opened Wrappers

  /** The four priority levels, lowest first. */
  datatype PriorityLevel = Low | Medium | High | Urgent {
    function Value(): string {
      match this
      case Low => "Baja"
      case Medium => "Media"
      case High => "Alta"
      case Urgent => "Urgente"
    }
    /** Position in the declared order, Low = 0 .. Urgent = 3. */
    function Rank(): (r: nat)
      ensures r < 4
    {
      match this
      case Low => 0
      case Medium => 1
      case High => 2
      case Urgent => 3
    }
  }

  /** The five lifecycle states. */
  datatype AppointmentStatus = Requested | Confirmed | Cancelled | Completed | NoShow {
    function Value(): string {
      match this
      case Requested => "Solicitada"
      case Confirmed => "Confirmada"
      case Cancelled => "Cancelada"
      case Completed => "Completada"
      case NoShow => "No Presentado"
    }
  }

  /** The enum values are distinct, so comparing `.value` strings (as the scheduler does)
      is the same as comparing the members. */
  lemma PriorityValueInjective(p: PriorityLevel, q: PriorityLevel)
    ensures p.Value() == q.Value() <==> p == q
  {
  }

  const DefaultPriority := Medium
  const DefaultStatus := Requested
  const DefaultIsVirtual := true

  /** A stored appointment row. Times are instants (Clock minutes); `id` is NULL
      until the row is flushed. */
  datatype AppointmentRecord = AppointmentRecord(
    id: Option<int>,
    patientId: int,
    doctorId: Option<int>,
    startTime: Option<int>,
    endTime: Option<int>,
    isVirtual: bool,
    priorityLevel: PriorityLevel,
    status: AppointmentStatus,
    videoUrl: Option<string>,
    notes: Option<string>,
    createdAt: int)

  /** The ORM instance `Appointment(...)`; its fields are assigned in place. */
  class Appointment {
    var id: Option<int>
    var patientId: int
    var doctorId: Option<int>
    var startTime: Option<int>
    var endTime: Option<int>
    var isVirtual: bool
    var priorityLevel: PriorityLevel
    var status: AppointmentStatus
    var videoUrl: Option<string>
    var notes: Option<string>
    var createdAt: int

    /** The row this object stands for. */
    function Record(): AppointmentRecord
      reads this
    {
      AppointmentRecord(id, patientId, doctorId, startTime, endTime, isVirtual,
                        priorityLevel, status, videoUrl, notes, createdAt)
    }

    /** `Appointment(patient_id=..., ...)`: an argument left out (None here) takes the
        column default: priority MEDIUM, status REQUESTED, virtual; doctor, times, video
        link stay NULL and `created_at` is the creation instant `now`. */
    constructor (patientId: int, notes: Option<string>, priority: Option<PriorityLevel>,
                 isVirtual: Option<bool>, status: Option<AppointmentStatus>, now: int)
      ensures Record() == AppointmentRecord(None, patientId, None, None, None,
                                            isVirtual.GetOr(DefaultIsVirtual),
                                            priority.GetOr(DefaultPriority),
                                            status.GetOr(DefaultStatus),
                                            None, notes, now)
    {
      this.id := None;
      this.patientId := patientId;
      this.doctorId := None;
      this.startTime := None;
      this.endTime := None;
      this.isVirtual := isVirtual.GetOr(DefaultIsVirtual);
      this.priorityLevel := priority.GetOr(DefaultPriority);
      this.status := status.GetOr(DefaultStatus);
      this.videoUrl := None;
      this.notes := notes;
      this.createdAt := now;
    }
  }
}
