/** The calendar bridge: builds a Google Calendar event with a Meet conference
    for a doctor and a patient and extracts the meeting link from the answer.
    Google's side is a `Provider` of three oracles: the credential refresh
    (google_tokens.get_credentials_from_refresh_token), the configured zone's
    UTC offset per wall time (pytz `localize`), and `events().insert(...).execute()`. */
module MeetCalendar {
  import opened Wrappers
  import opened Text
  import opened Clock
  import opened Errors
  import opened Users

  /** Refreshed Google credentials (opaque to this code). */
  datatype Credentials = Credentials(accessToken: string)

  datatype Attendee = Attendee(email: string, responseStatus: Option<string>)
  datatype ReminderOverride = ReminderOverride(channel: string, minutes: int)
  datatype Reminders = Reminders(useDefault: bool, overrides: seq<ReminderOverride>)
  datatype ConferenceCreateRequest = ConferenceCreateRequest(requestId: string, conferenceSolutionType: string)
  datatype EventTime = EventTime(dateTime: string, timeZone: string)

  /** The event dictionary sent to Google. */
  datatype EventBody = EventBody(
    summary: string,
    description: string,
    createRequest: ConferenceCreateRequest,
    start: EventTime,
    end: EventTime,
    attendees: seq<Attendee>,
    reminders: Reminders)

  /** The arguments of `service.events().insert(...)`. */
  datatype InsertRequest = InsertRequest(calendarId: string, body: EventBody, conferenceDataVersion: int, sendNotifications: bool)

  /** The parts of the created event the code reads; a missing key is None. */
  datatype EntryPoint = EntryPoint(entryPointType: Option<string>, uri: Option<string>)
  datatype ConferenceData = ConferenceData(entryPoints: Option<seq<EntryPoint>>)
  datatype Event = Event(conferenceData: Option<ConferenceData>, htmlLink: Option<string>)

  /** How the API block ends: the created event, an HttpError with its decoded
      content, or any other exception (raised by `build`, by the zone lookup, or by
      a response of the wrong shape). */
  datatype InsertOutcome = Inserted(event: Event) | HttpFailure(content: string) | OtherFailure

  datatype Provider = Provider(
    refresh: string -> Option<Credentials>,
    zoneOffset: DateTime -> int,
    insert: (Credentials, InsertRequest) -> InsertOutcome)

  /** The dictionary returned: {"meet_url": ..., "event_url": ...}. */
  datatype MeetInfo = MeetInfo(meetUrl: Option<string>, eventUrl: Option<string>)

  const NotConnectedDetail := "Doctor no tiene el calendario de Google conectado."
  const InvalidRefreshDetail := "Token de refresco de Google inválido o expirado."
  const ApiErrorPrefix := "Error de la API de Google: "
  const UnexpectedDetail := "Error inesperado al procesar la cita."

  /** `local_tz.localize(t) if t.tzinfo is None else t`. */
  function Localize(t: DateTime, zoneOffset: DateTime -> int): (a: DateTime)
    ensures a.IsAware() && a.(utcOffset := t.utcOffset) == t
    ensures t.IsAware() ==> a == t
    ensures !t.IsAware() ==> a.utcOffset == Some(zoneOffset(t))
  {
    if t.IsAware() then t else t.(utcOffset := Some(zoneOffset(t)))
  }

  function EventTimeOf(t: DateTime, zoneOffset: DateTime -> int, timeZone: string): EventTime {
    EventTime(IsoFormat(Localize(t, zoneOffset)), timeZone)
  }

  /** `requestId`: "meet-", the doctor's id, "-", and the caller's own start time as
      %Y%m%d%H%M%S (strftime ignores the zone, so localizing would not change it). */
  function RequestId(doctorId: int, start: DateTime): string {
    "meet-" + IntToString(doctorId) + "-" + StampSeconds(start)
  }

  /** The insert call the service makes once it holds credentials. */
  function InsertCall(doctor: User, summary: string, description: string, start: DateTime, end: DateTime,
                      patientEmail: string, timeZone: string, zoneOffset: DateTime -> int): InsertRequest
  {
    InsertRequest(
      "primary",
      EventBody(
        summary,
        description,
        ConferenceCreateRequest(RequestId(doctor.id, start), "hangoutsMeet"),
        EventTimeOf(start, zoneOffset, timeZone),
        EventTimeOf(end, zoneOffset, timeZone),
        [Attendee(doctor.email, None), Attendee(patientEmail, Some("needsAction"))],
        Reminders(false, [ReminderOverride("email", 24 * 60), ReminderOverride("email", 10)])),
      1,
      true)
  }

  /** `event.get('conferenceData', {}).get('entryPoints', [])`. */
  function EntryPoints(e: Event): seq<EntryPoint> {
    match e.conferenceData
    case None => []
    case Some(cd) => cd.entryPoints.GetOr([])
  }

  predicate IsVideo(entry: EntryPoint) {
    entry.entryPointType == Some("video")
  }

  /** Entry k is a video entry point and none before it is. */
  predicate IsFirstVideo(entries: seq<EntryPoint>, k: int) {
    0 <= k < |entries| && IsVideo(entries[k]) && forall j :: 0 <= j < k ==> !IsVideo(entries[j])
  }

  /** The `uri` of the first video entry point (None when it has none), or None
      when no entry is a video one. */
  function FirstVideoUri(entries: seq<EntryPoint>): Option<string> {
    if entries == [] then None
    else if IsVideo(entries[0]) then entries[0].uri
    else FirstVideoUri(entries[1..])
  }

  lemma {:induction false} FirstVideoUriIsFirstVideo(entries: seq<EntryPoint>)
    ensures (forall j :: 0 <= j < |entries| ==> !IsVideo(entries[j])) ==> FirstVideoUri(entries) == None
    ensures forall k :: IsFirstVideo(entries, k) ==> FirstVideoUri(entries) == entries[k].uri
  {
    if entries != [] {
      FirstVideoUriIsFirstVideo(entries[1..]);
      forall k | 0 < k && IsFirstVideo(entries, k)
        ensures FirstVideoUri(entries) == entries[k].uri
      {
        assert !IsVideo(entries[0]);
        assert entries[1..][k - 1] == entries[k];
        assert IsFirstVideo(entries[1..], k - 1);
      }
    }
  }

  /** The `for entry in ...: if ... == 'video': meet_link = entry.get('uri'); break` loop. */
  method FindMeetLink(entries: seq<EntryPoint>) returns (meetLink: Option<string>)
    ensures meetLink == FirstVideoUri(entries)
    ensures (forall j :: 0 <= j < |entries| ==> !IsVideo(entries[j])) ==> meetLink == None
    ensures forall k :: IsFirstVideo(entries, k) ==> meetLink == entries[k].uri
  {
    meetLink := None;
    for i := 0 to |entries|
      invariant forall j :: 0 <= j < i ==> !IsVideo(entries[j])
      invariant FirstVideoUri(entries) == FirstVideoUri(entries[i..])
    {
      assert entries[i..][1..] == entries[i + 1..];
      if IsVideo(entries[i]) {
        meetLink := entries[i].uri;
        break;
      }
    }
    FirstVideoUriIsFirstVideo(entries);
  }

  /** What `create_google_calendar_event` returns or raises: the guards in order
      (no stored refresh token, then a failed refresh), then the API block whose
      every failure becomes a GoogleCalendarError. */
  function CalendarEvent(doctor: User, summary: string, description: string, start: DateTime, end: DateTime,
                         patientEmail: string, timeZone: string, p: Provider): Result<MeetInfo, GoogleCalendarError>
  {
    if !HasRefreshToken(doctor) then Failure(GoogleCalendarError(NotConnectedDetail))
    else match p.refresh(doctor.googleRefreshToken.value)
      case None => Failure(GoogleCalendarError(InvalidRefreshDetail))
      case Some(credentials) =>
        match p.insert(credentials, InsertCall(doctor, summary, description, start, end, patientEmail, timeZone, p.zoneOffset))
        case HttpFailure(content) => Failure(GoogleCalendarError(ApiErrorPrefix + content))
        case OtherFailure => Failure(GoogleCalendarError(UnexpectedDetail))
        case Inserted(event) => Success(MeetInfo(FirstVideoUri(EntryPoints(event)), event.htmlLink))
  }

  /** `create_google_calendar_event`. */
  method CreateGoogleCalendarEvent(doctor: User, summary: string, description: string, start: DateTime, end: DateTime,
                                   patientEmail: string, timeZone: string, p: Provider)
    returns (r: Result<MeetInfo, GoogleCalendarError>)
    ensures r == CalendarEvent(doctor, summary, description, start, end, patientEmail, timeZone, p)
  {
    if !HasRefreshToken(doctor) {
      return Failure(GoogleCalendarError(NotConnectedDetail));
    }
    var credentials := p.refresh(doctor.googleRefreshToken.value);
    if credentials.None? {
      return Failure(GoogleCalendarError(InvalidRefreshDetail));
    }
    var call := InsertCall(doctor, summary, description, start, end, patientEmail, timeZone, p.zoneOffset);
    var outcome := p.insert(credentials.value, call);
    match outcome {
      case HttpFailure(content) =>
        r := Failure(GoogleCalendarError(ApiErrorPrefix + content));
      case OtherFailure =>
        r := Failure(GoogleCalendarError(UnexpectedDetail));
      case Inserted(event) =>
        var meetLink := FindMeetLink(EntryPoints(event));
        r := Success(MeetInfo(meetLink, event.htmlLink));
    }
  }

  /** A doctor without a stored refresh token fails before anything is asked of
      Google: the answer is the same for every provider. */
  lemma NoRefreshTokenFailsFirst(doctor: User, summary: string, description: string, start: DateTime, end: DateTime,
                                 patientEmail: string, timeZone: string, p: Provider, q: Provider)
    requires !HasRefreshToken(doctor)
    ensures CalendarEvent(doctor, summary, description, start, end, patientEmail, timeZone, p)
         == CalendarEvent(doctor, summary, description, start, end, patientEmail, timeZone, q)
         == Failure(GoogleCalendarError(NotConnectedDetail))
  {
  }

  /** A refresh that yields no credentials fails before the API block: the insert
      oracle and the zone do not matter. */
  lemma FailedRefreshStopsBeforeInsert(doctor: User, summary: string, description: string, start: DateTime, end: DateTime,
                                       patientEmail: string, timeZone: string, p: Provider, q: Provider)
    requires HasRefreshToken(doctor)
    requires p.refresh(doctor.googleRefreshToken.value) == None
    requires q.refresh == p.refresh
    ensures CalendarEvent(doctor, summary, description, start, end, patientEmail, timeZone, p)
         == CalendarEvent(doctor, summary, description, start, end, patientEmail, timeZone, q)
         == Failure(GoogleCalendarError(InvalidRefreshDetail))
  {
  }

  /** The event sent: the conference request id from the doctor and the original
      start, start and end in the configured zone (aware times unchanged, naive ones
      localized), attendees exactly [doctor, patient] with the patient `needsAction`,
      and exactly two e-mail reminders, a day and ten minutes before, defaults off. */
  lemma InsertCallShape(doctor: User, summary: string, description: string, start: DateTime, end: DateTime,
                        patientEmail: string, timeZone: string, zoneOffset: DateTime -> int)
    ensures var c := InsertCall(doctor, summary, description, start, end, patientEmail, timeZone, zoneOffset);
            && c.calendarId == "primary" && c.conferenceDataVersion == 1 && c.sendNotifications
            && c.body.summary == summary && c.body.description == description
            && c.body.createRequest.requestId == "meet-" + IntToString(doctor.id) + "-" + StampSeconds(start)
            && c.body.createRequest.conferenceSolutionType == "hangoutsMeet"
            && c.body.start.timeZone == timeZone && c.body.end.timeZone == timeZone
            && (start.IsAware() ==> c.body.start.dateTime == IsoFormat(start))
            && (!start.IsAware() ==> c.body.start.dateTime == IsoFormat(start.(utcOffset := Some(zoneOffset(start)))))
            && (end.IsAware() ==> c.body.end.dateTime == IsoFormat(end))
            && (!end.IsAware() ==> c.body.end.dateTime == IsoFormat(end.(utcOffset := Some(zoneOffset(end)))))
            && |c.body.attendees| == 2
            && c.body.attendees[0].email == doctor.email && c.body.attendees[0].responseStatus == None
            && c.body.attendees[1].email == patientEmail && c.body.attendees[1].responseStatus == Some("needsAction")
            && !c.body.reminders.useDefault
            && c.body.reminders.overrides == [ReminderOverride("email", 1440), ReminderOverride("email", 10)]
  {
  }

  /** The request id does not depend on whether the start carried a zone. */
  lemma RequestIdIgnoresZone(doctorId: int, start: DateTime, offset: Option<int>)
    ensures RequestId(doctorId, start.(utcOffset := offset)) == RequestId(doctorId, start)
  {
  }

  /** On success, meet_url is the uri of the first video entry point (None when
      there is none) and event_url is the event's htmlLink. */
  lemma SuccessCarriesFirstVideoLink(doctor: User, summary: string, description: string, start: DateTime, end: DateTime,
                                     patientEmail: string, timeZone: string, p: Provider, credentials: Credentials, event: Event)
    requires HasRefreshToken(doctor)
    requires p.refresh(doctor.googleRefreshToken.value) == Some(credentials)
    requires p.insert(credentials, InsertCall(doctor, summary, description, start, end, patientEmail, timeZone, p.zoneOffset)) == Inserted(event)
    ensures var r := CalendarEvent(doctor, summary, description, start, end, patientEmail, timeZone, p);
            && r.Success? && r.value.eventUrl == event.htmlLink
            && ((forall j :: 0 <= j < |EntryPoints(event)| ==> !IsVideo(EntryPoints(event)[j])) ==> r.value.meetUrl == None)
            && (forall k :: IsFirstVideo(EntryPoints(event), k) ==> r.value.meetUrl == EntryPoints(event)[k].uri)
  {
    FirstVideoUriIsFirstVideo(EntryPoints(event));
  }

  /** For a doctor with a stored refresh token, the failure is one of the three
      later ones: an invalid refresh, an API error, or an unexpected error. */
  lemma LinkedDoctorFailures(doctor: User, summary: string, description: string, start: DateTime, end: DateTime,
                             patientEmail: string, timeZone: string, p: Provider)
    requires HasRefreshToken(doctor)
    ensures var r := CalendarEvent(doctor, summary, description, start, end, patientEmail, timeZone, p);
            r.Failure? ==>
              || r.error.detail == InvalidRefreshDetail
              || r.error.detail == UnexpectedDetail
              || (exists content :: r.error.detail == ApiErrorPrefix + content)
  {
    var credentials := p.refresh(doctor.googleRefreshToken.value);
    if credentials.Some? {
      var call := InsertCall(doctor, summary, description, start, end, patientEmail, timeZone, p.zoneOffset);
      if p.insert(credentials.value, call).HttpFailure? {
        var content := p.insert(credentials.value, call).content;
        assert CalendarEvent(doctor, summary, description, start, end, patientEmail, timeZone, p).error.detail
            == ApiErrorPrefix + content;
      }
    }
  }

  /** Every failure is a GoogleCalendarError with one of the four details, and
      every provider outcome (HttpError or any other exception) is mapped to one. */
  lemma FailuresAreNormalised(doctor: User, summary: string, description: string, start: DateTime, end: DateTime,
                              patientEmail: string, timeZone: string, p: Provider)
    ensures var r := CalendarEvent(doctor, summary, description, start, end, patientEmail, timeZone, p);
            r.Failure? ==>
              || r.error.detail == NotConnectedDetail
              || r.error.detail == InvalidRefreshDetail
              || r.error.detail == UnexpectedDetail
              || (|r.error.detail| >= |ApiErrorPrefix| && r.error.detail[..|ApiErrorPrefix|] == ApiErrorPrefix)
  {
    if HasRefreshToken(doctor) && p.refresh(doctor.googleRefreshToken.value).Some? {
      var credentials := p.refresh(doctor.googleRefreshToken.value).value;
      var call := InsertCall(doctor, summary, description, start, end, patientEmail, timeZone, p.zoneOffset);
      if p.insert(credentials, call).HttpFailure? {
        var detail := ApiErrorPrefix + p.insert(credentials, call).content;
        assert detail[..|ApiErrorPrefix|] == ApiErrorPrefix;
      }
    }
  }
}
