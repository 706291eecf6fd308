# Medical appointments back end: verified model

This project models the core of a FastAPI back end for medical appointments.

- A patient requests an appointment. A priority-based scheduler assigns the first doctor and a start time that depends on the priority.
- A user lists their own appointments: a patient sees the ones they requested, a doctor the ones assigned to them.
- A doctor links a Google Calendar through OAuth, which stores a refresh token. The doctor can then book a Google Calendar event with a Meet link for a patient.
- Users register and log in. The routes resolve the caller from a bearer token.
- A simulation module lists a doctor's free slots and builds a teleconsultation link.

## Modules

- `Wrappers`: `Option` and `Result`.
- `Text`: Python's `str(n)`, strftime zero padding, and `s.replace(pat, "")`.
- `Clock`: instants in minutes, weekdays and midnights, plus a broken-down `datetime` with strftime and isoformat.
- `Errors`: `HTTPException` and `GoogleCalendarError`.
- `Users`: the `users` table (`app/models/user.py`).
- `Appointments`: the `appointments` table (`app/models/appointment.py`). It has a row datatype and the ORM object as a class whose fields are assigned in place.
- `Database`: a `Session` class holding both tables as sequences, with an invariant that emails and ids are unique.
- `Citas`: `app/routes/citas.py`.
- `MeetCalendar`: `app/utils/servicios_meet_calendar.py`.
- `Integracion`: `integracion.py`.
- `Ruta`: `app/routes/ruta.py`.

## Modelling choices

The outside world enters as parameters:

- The clock (`datetime.utcnow()` or `now()`) is a `now` argument.
- Password hashing and verification, and JWT encoding and decoding, are function-typed parameters.
- The OAuth code exchange is a function-typed parameter. Its outcome is the token dictionary, the HTTPException raised when the OAuth Flow cannot be configured, or any other failure.
- Google is a `Provider` value with three functions: the credential refresh, the time zone's UTC offset for a wall time (pytz `localize`), and `events().insert(...).execute()`.

The calendar-event construction is a method with the service's entry-point loop. It is proved equal to the function `MeetCalendar.CalendarEvent`, and the route and the lemmas reason about that function.

`app/routes/citas.py` uses attribute names the models do not define. The model reads them under this mapping, also stated at the top of `citas.dfy`:

| name in citas.py | model name |
|---|---|
| `urgency_level` | `priority_level` |
| `CRITICAL` | `URGENT` |
| `PENDING` | `REQUESTED` |
| `scheduled_at` | `start_time` |
| `is_telemedicine` | `is_virtual` |
| `reason` | `notes` |

The model follows the code as written:

- The doctor is the first DOCTOR row, active or not; the code does no load balancing.
- The code never sets an appointment's end time.
- With no doctor, the code only sets the status to REQUESTED; `notes` is left as the patient wrote it.
- A doctor without a linked calendar and a refresh that fails both raise `GoogleCalendarError`; only the detail text tells them apart.
- The code does not store the meeting link on the appointment, and a response without a video entry point gives `None` as meet_url.
- The code passes no idempotency key to the event insert and takes no lock.

## Model

| member | source | states |
|---|---|---|
| Users.NewUser | app/models/user.py:19-32 | a new user row defaults to role PATIENT, `is_active` true and no refresh token, and keeps the given id, email, hash and name |
| Users.RoleValueInjective | app/models/user.py:9-13 | the three roles have pairwise distinct stored values |
| Users.HasRefreshToken | app/utils/servicios_meet_calendar.py:39 | a doctor counts as linked exactly when a refresh token is stored and it is not the empty string, the truthiness test of `if not doctor.google_refresh_token` |
| Users.FindByEmail | app/routes/ruta.py:69 | the lookup finds the first row with that email, and finds nothing exactly when no row has it |
| Users.FindById | app/routes/ruta.py:41 | the lookup returns a row whose id equals the requested id, and nothing exactly when no such row exists (or the id is missing) |
| Appointments.PriorityValueInjective | app/models/appointment.py:11-16 | the four priorities have distinct values, so comparing `.value` strings is comparing members |
| Appointments.Appointment.constructor | app/models/appointment.py:31-51 | a new appointment defaults to priority MEDIUM, status REQUESTED and virtual; id, doctor, times and video link are NULL, and `created_at` is the creation instant |
| Database.Session.constructor | app/models/user.py:24 | an empty session satisfies the table invariant (unique emails and ids) |
| Database.Session.AddUser | app/routes/ruta.py:88-90 | for a free email, the user is appended with the next primary key, the invariant (unique emails) is kept, and the appointments are untouched |
| Database.Session.AddAppointment | app/routes/citas.py:95-97 | the appointment gets the next primary key and its row is appended; the users are untouched |
| Database.Session.SetRefreshToken | app/routes/ruta.py:173-174 | only row k changes, and only its refresh token |
| Errors.AsHttp | app/excepciones.py:17-19 | a GoogleCalendarError answers with status 500 and its own detail |
| Citas.FirstDoctor | app/routes/citas.py:37 | the result is the first DOCTOR row (every earlier row is not a doctor), and None exactly when there is no doctor |
| Citas.ScheduleOffset | app/routes/citas.py:44-49 | the start offset in minutes for a priority is always positive: 30 for URGENT, 120 for HIGH, 1440 otherwise |
| Citas.ScheduleOffsets | app/routes/citas.py:44-49 | URGENT is scheduled 30 minutes ahead, HIGH 120, and MEDIUM and LOW 1440 |
| Citas.HigherPriorityNeverLater | app/routes/citas.py:44-49 | a higher-ranked priority is never scheduled later, and strictly earlier unless the lower one is LOW |
| Citas.Assigned | app/routes/citas.py:37-59 | only doctor, start and status change; CONFIRMED exactly when a doctor exists, and then the doctor is a DOCTOR user and the start is now plus the offset; otherwise REQUESTED with doctor and start untouched |
| Citas.AssignedPicksFirstDoctor | app/routes/citas.py:37-40 | the doctor assigned is exactly the first DOCTOR row, and the status becomes CONFIRMED |
| Citas.FirstDoctorIsFirst | app/routes/citas.py:37 | if row k is the first doctor, the lookup returns row k |
| Citas.AssignedStartByPriority | app/routes/citas.py:44-51 | with a doctor present, the start is strictly after now and is exactly now+30, now+120 or now+1440 by priority |
| Citas.AssignPriorityAndSchedule | app/routes/citas.py:20-61 | the in-place update leaves the object's row equal to `Assigned` of its old row |
| Citas.PendingRequest | app/routes/citas.py:84-90 | the row built from the request before scheduling: the caller as patient, no id, doctor or times, the given virtuality, priority and notes, status REQUESTED, created now |
| Citas.RequestOutcome | app/routes/citas.py:84-93 | a stored request belongs to the caller and keeps its priority, virtuality and notes; it ends CONFIRMED with a doctor and a future start, or REQUESTED with neither |
| Citas.RequestAppointment | app/routes/citas.py:67-99 | a non-patient gets 403 with nothing stored; a patient's request is built REQUESTED, assigned, given the next id and appended; the user table never changes |
| Citas.Where | app/routes/citas.py:111-118 | the filter keeps each accepted row exactly as often as it is stored, and no other row |
| Citas.GetMyAppointments | app/routes/citas.py:101-126 | a patient gets exactly the rows where they are the patient, a doctor exactly those assigned to them, each once per stored copy; an admin gets 403 |
| Clock.Weekday | integracion.py:21 | `weekday()` is in 0..6 |
| Clock.WeekdayEpoch | integracion.py:21 | instant 0, 1970-01-01, is a Thursday (weekday 3) |
| Clock.WeekdayNext | integracion.py:21 | one day later is the next weekday, Sunday wrapping to Monday |
| Clock.WeekdaySameDay | integracion.py:21 | two instants on the same date have the same weekday, so the time of day does not matter |
| Clock.StartOfDay | integracion.py:29-30 | midnight of the date is on the same day, at minute 0, not after the instant |
| Clock.StampMinutesShape | integracion.py:53 | for a real date, `%Y%m%d%H%M` is exactly twelve digits |
| MeetCalendar.Localize | app/utils/servicios_meet_calendar.py:58-59 | an aware time is kept unchanged; a naive one gets the zone's offset and keeps its wall-clock fields |
| MeetCalendar.FirstVideoUri | app/utils/servicios_meet_calendar.py:103-107 | the reference reading of the extraction: scan the entry points in order and take the uri of the first video one |
| MeetCalendar.FirstVideoUriIsFirstVideo | app/utils/servicios_meet_calendar.py:103-107 | the extracted link is the uri of the first video entry point, and None when there is none |
| MeetCalendar.FindMeetLink | app/utils/servicios_meet_calendar.py:103-107 | the loop with `break` returns the uri of the first video entry point, and None when none is a video one |
| MeetCalendar.CreateGoogleCalendarEvent | app/utils/servicios_meet_calendar.py:15-120 | the method's result equals the specification function `CalendarEvent` |
| MeetCalendar.NoRefreshTokenFailsFirst | app/utils/servicios_meet_calendar.py:39-42 | without a stored token the result is the "not connected" error, whatever the provider does |
| MeetCalendar.FailedRefreshStopsBeforeInsert | app/utils/servicios_meet_calendar.py:45-48 | a failed refresh gives the "invalid refresh" error, and the insert and zone oracles are not consulted |
| MeetCalendar.InsertCall | app/utils/servicios_meet_calendar.py:61-100 | the `events().insert` call the service makes for a doctor, built from the event body of lines 61-95; its fields are given by the lemma below |
| MeetCalendar.InsertCallShape | app/utils/servicios_meet_calendar.py:61-100 | the request goes to "primary" with conference version 1 and notifications on: requestId "meet-"+id+"-"+the original start as %Y%m%d%H%M%S, localized start and end, attendees exactly [doctor, patient needsAction], exactly two email reminders at 1440 and 10 with defaults off |
| MeetCalendar.RequestIdIgnoresZone | app/utils/servicios_meet_calendar.py:67 | the requestId uses the caller's start time and does not depend on its zone |
| MeetCalendar.SuccessCarriesFirstVideoLink | app/utils/servicios_meet_calendar.py:102-112 | a created event yields meet_url equal to the first video uri (None without one) and event_url equal to htmlLink |
| MeetCalendar.LinkedDoctorFailures | app/utils/servicios_meet_calendar.py:45-48 | for a linked doctor, a failure is an invalid refresh, an API error or an unexpected error |
| MeetCalendar.FailuresAreNormalised | app/utils/servicios_meet_calendar.py:114-120 | every failure is a GoogleCalendarError with one of the four details, HTTP errors prefixed "Error de la API de Google: " |
| Integracion.GetDoctorAvailableSlots | integracion.py:10-36 | a weekend gives no slots; a weekday gives exactly six, 09:00 to 11:30 on the date, 30 minutes apart and strictly increasing, whatever the time of day of the input |
| Integracion.GenerateTeleconsultLink | integracion.py:41-54 | no link exactly when the appointment is not virtual; otherwise the base URL + id + "-" + the `%Y%m%d%H%M` stamp |
| Integracion.TeleconsultLinkShape | integracion.py:53-54 | the link splits back into the base URL, the id, "-" and the minute stamp |
| Integracion.TeleconsultLinksDistinct | integracion.py:53-54 | two appointments linked in the same minute get different links |
| Text.RemoveAll | app/routes/ruta.py:32 | removing every occurrence never lengthens the text; the three lemmas below give its leading, skipping and absent cases |
| Text.RemoveAllSkip | app/routes/ruta.py:32 | where the pattern does not start, the first character is kept and scanning moves on by one character |
| Text.RemoveAllAbsent | app/routes/ruta.py:32 | text without the pattern comes back unchanged |
| Text.RemoveAllLeading | app/routes/ruta.py:32 | a leading occurrence is dropped and scanning resumes after it |
| Ruta.StripBearer | app/routes/ruta.py:32 | the header with every "Bearer " occurrence removed, left to right and non-overlapping; the lemmas below give its cases |
| Ruta.StripBearerAbsent | app/routes/ruta.py:32 | a header without "Bearer " is used unchanged |
| Ruta.StripBearerToken | app/routes/ruta.py:32 | "Bearer "+t gives t when t holds no further "Bearer " |
| Ruta.StripBearerRepeated | app/routes/ruta.py:32 | any number of leading "Bearer " copies is removed, not only the first |
| Ruta.StripBearerSplit | app/routes/ruta.py:32 | a "Bearer " anywhere is removed: the text before it and the text after it are each stripped in turn, for every header |
| Ruta.StripBearerInteriorExample | app/routes/ruta.py:32 | "xBearer y" becomes "xy" |
| Ruta.GetCurrentUser | app/routes/ruta.py:28-44 | an undecodable token gives 401 with the Bearer challenge; an unknown user_id gives 404; otherwise a user row whose id is the payload's user_id |
| Ruta.UserCreateRequest | app/utils/schemas.py:24-29 | a registration body defaults to no full name and role PATIENT |
| Ruta.RegistrationKeepsEmailsUnique | app/routes/ruta.py:69-92 | appending a user with an absent email keeps emails unique, and that email then finds the new row |
| Ruta.RegisterUser | app/routes/ruta.py:63-92 | a taken email gives 400 and leaves the table unchanged; otherwise exactly one row is appended with the email, name, role, hash(password), active and no token; the invariant is kept |
| Ruta.LoginForAccessToken | app/routes/ruta.py:95-119 | an unknown email or a failed verify gives 401 with the Bearer challenge; otherwise a "bearer" token over user_id, the role value and expiry now+30 |
| Ruta.LoginSucceedsIff | app/routes/ruta.py:101-104 | with unique emails, login succeeds exactly when a user with that email has a hash the password verifies against |
| Ruta.MatchEmail | app/routes/ruta.py:164 | a missing OAuth email matches no row; otherwise the first row with that email |
| Ruta.GoogleCallback | app/routes/ruta.py:142-192 | a misconfigured OAuth Flow passes its own 500 "Error de configuración de Google OAuth." through; any other failed exchange gives the generic 500; no refresh token gives 400 and an unmatched email 404; all of these leave the table unchanged; otherwise only the matched user's refresh token changes and the answer is a 302 to "/" |
| Ruta.GoogleAppointmentRequest | app/routes/ruta.py:49-58 | a Meet booking body defaults to the summary "Consulta Médica Online" and the standard description |
| Ruta.CreateAppointmentWithMeet | app/routes/ruta.py:196-250 | a non-doctor gets 403, then a doctor without a token 400; otherwise the service's meet_url and event_url, or 500 with "Error al crear el evento de Google: " + its detail |
| Ruta.GuardsPrecedeCalendar | app/routes/ruta.py:206-217 | while a guard fails, the answer (403 or 400) is the same for every provider |
| Ruta.RouteCalendarFailures | app/routes/ruta.py:246-250 | a 500 from the route carries one of the three failures from the refresh step on; the service's own "not connected" check cannot fire through this route |

## Left out

- Console output (`print`) in the error paths, and the HTTP, JSON and pydantic layers, are not modelled.
- Password hashing (bcrypt with a random salt) and verification are oracles. The hash is a function of the password, so two hashes of one password are equal here.
- JWT signing, decoding and expiry checking are oracles. An expired token is one the decode oracle rejects.
- `google_login` and the OAuth `Flow` (app/utils/google_tokens.py) are not modelled. The code exchange is an oracle whose outcome is the tokens, the Flow-configuration HTTPException, or any other exception.
- The credential refresh, `build`, the pytz zone lookup and `events().insert().execute()` are oracles. An exception from `build`, from the zone lookup or from reading the response is folded into the `OtherFailure` outcome.
- MeetCalendar.CalendarEvent: an HttpError's content is taken as already decoded text. A content that fails to decode is not modelled.
- Clock.IsoFormat: microseconds and seconds in the UTC offset are not printed.
- Clock.Field: `%Y` is always padded to four digits; a platform strftime that prints years below 1000 unpadded is not modelled. The calendar ranges of the fields (months 1 to 12 and so on) are not enforced, except where a lemma requires them.
- Two time representations are used: integer minutes for scheduling and slots, and a broken-down datetime for strftime and isoformat. The model does not convert between them.
- Seconds and microseconds of the scheduling clock are not modelled; the scheduler's instants are whole minutes.
- Integracion.GetDoctorAvailableSlots: `doctor_id` is accepted and ignored, as `get_doctor_available_slots` does.
- `end_time` is never written by the code, so the model leaves it unset.
- The ORM relationships (`patient`, `doctor`, the back-references and clinical records) are not modelled. Tables are sequences queried by field.
- Database commits, rollbacks and failures, and concurrent requests, are not modelled. Each route runs alone on a consistent session.
- `app/utils/security.py` defines a second `get_current_user`, which the appointments router uses. It is not part of this model. `Citas` takes the resolved caller as a parameter.
- The TIME_ZONE setting (default "America/Bogota") is a parameter.
- Three crashes remain in the code after the renaming, and the model follows the code's evident intent instead:
  - `AppointmentCreate` uses `use_enum_values`, so `priority_level` arrives as a string and `.value` on it would fail.
  - `UserCreate` also uses `use_enum_values`, so a role given in the request body reaches `User(role=...)` as its value string ("Doctor", say). The role column stores enum members by name, so that row would not load, and the `User.role == UserRole.DOCTOR` comparison in `assign_priority_and_schedule` would not match it. The model gives registered users their role as a `Role` value.
  - `AppointmentResponse` requires `start_time` and `end_time`, which are NULL on the rows this code creates, so the responses of `request_appointment` and `get_my_appointments` would fail validation after the commit.
