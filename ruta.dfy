/** The authentication router: resolving the caller from the Authorization
    header, registration, login, the Google OAuth callback that stores a
    doctor's refresh token, and the doctor-only route that books a Meet event.
    Password hashing, password checking, JWT encoding and decoding, and the OAuth
    code exchange are oracles given as parameters. */
module Ruta {
  import opened Wrappers
  import opened Text
  import opened Clock
  import opened Errors
  import opened Users
  import opened Database
  import opened MeetCalendar

  // ---------------------------------------------------------------- caller

  const BearerPrefix := "Bearer "

  /** `token.replace("Bearer ", "")`: every occurrence goes, not only a prefix. */
  function StripBearer(authorization: string): string {
    RemoveAll(authorization, BearerPrefix)
  }

  /** A header with no "Bearer " in it is used as it is. */
  lemma StripBearerAbsent(authorization: string)
    requires !Occurs(BearerPrefix, authorization)
    ensures StripBearer(authorization) == authorization
  {
    RemoveAllAbsent(authorization, BearerPrefix);
  }

  /** "Bearer " + t gives back t when t holds no further "Bearer ". */
  lemma StripBearerToken(t: string)
    requires !Occurs(BearerPrefix, t)
    ensures StripBearer(BearerPrefix + t) == t
  {
    RemoveAllLeading(BearerPrefix, t);
    RemoveAllAbsent(t, BearerPrefix);
  }

  function Repeat(s: string, n: nat): string {
    if n == 0 then "" else s + Repeat(s, n - 1)
  }

  /** Any number of leading "Bearer " copies is removed, not just the first. */
  lemma {:induction false} StripBearerRepeated(n: nat, t: string)
    ensures StripBearer(Repeat(BearerPrefix, n) + t) == StripBearer(t)
  {
    if n > 0 {
      var rest := Repeat(BearerPrefix, n - 1) + t;
      assert Repeat(BearerPrefix, n) + t == BearerPrefix + rest;
      RemoveAllLeading(BearerPrefix, rest);
      assert StripBearer(BearerPrefix + rest) == StripBearer(rest);
      StripBearerRepeated(n - 1, t);
    } else {
      assert Repeat(BearerPrefix, n) + t == t;
    }
  }

  /** An occurrence anywhere splits the header: what precedes it and what follows
      it are each stripped in turn. No proper suffix of "Bearer " is also its
      prefix, so a partial match in front cannot swallow the occurrence. */
  lemma {:induction false} StripBearerSplit(a: string, t: string)
    ensures StripBearer(a + BearerPrefix + t) == StripBearer(a) + StripBearer(t)
    decreases |a|
  {
    var s := a + BearerPrefix + t;
    if a == [] {
      assert s == BearerPrefix + t;
      RemoveAllLeading(BearerPrefix, t);
    } else if |BearerPrefix| <= |a| && a[..|BearerPrefix|] == BearerPrefix {
      assert s[..|BearerPrefix|] == BearerPrefix;
      assert s[|BearerPrefix|..] == a[|BearerPrefix|..] + BearerPrefix + t;
      StripBearerSplit(a[|BearerPrefix|..], t);
    } else {
      assert s[..|BearerPrefix|] != BearerPrefix by {
        if |BearerPrefix| <= |a| {
          assert s[..|BearerPrefix|] == a[..|BearerPrefix|];
        } else {
          assert s[|a|] == 'B';
          assert BearerPrefix[|a|] != 'B';
        }
      }
      assert s[1..] == a[1..] + BearerPrefix + t;
      StripBearerSplit(a[1..], t);
      assert [a[0]] + a[1..] == a;
    }
  }

  /** A concrete case: "xBearer y" becomes "xy". */
  lemma StripBearerInteriorExample()
    ensures StripBearer("xBearer y") == "xy"
  {
    assert "xBearer y" == "x" + BearerPrefix + "y";
    StripBearerSplit("x", "y");
    StripBearerAbsent("x");
    StripBearerAbsent("y");
  }

  /** The decoded JWT payload; `user_id` may be missing. */
  datatype Payload = Payload(userId: Option<int>, role: Option<string>)

  const InvalidTokenDetail := "Token inválido o expirado"
  const UserNotFoundDetail := "Usuario no encontrado"

  /** `get_current_user`: 401 (with the Bearer challenge) when the token does not
      decode, 404 when no row has the payload's user_id, else that row. */
  function GetCurrentUser(authorization: string, users: seq<User>, decode: string -> Option<Payload>): (r: Result<User, HttpException>)
    ensures decode(StripBearer(authorization)).None? ==>
              r == Failure(HttpException(Unauthorized, InvalidTokenDetail, BearerChallenge))
    ensures r.Success? ==>
              && decode(StripBearer(authorization)).Some?
              && r.value in users
              && decode(StripBearer(authorization)).value.userId == Some(r.value.id)
    ensures decode(StripBearer(authorization)).Some? && r.Failure? ==>
              && r.error == Raise(NotFound, UserNotFoundDetail)
              && forall u :: u in users ==> decode(StripBearer(authorization)).value.userId != Some(u.id)
  {
    var token := StripBearer(authorization);
    match decode(token)
    case None => Failure(HttpException(Unauthorized, InvalidTokenDetail, BearerChallenge))
    case Some(payload) =>
      match FindById(users, payload.userId)
      case None => Failure(Raise(NotFound, UserNotFoundDetail))
      case Some(u) => Success(u)
  }

  // ---------------------------------------------------------------- register

  /** The `UserCreate` body; the schema's own default role is PATIENT. */
  datatype UserCreate = UserCreate(email: string, password: string, fullName: Option<string>, role: Role)

  /** The body with the schema's defaults: no full name, role PATIENT. */
  function UserCreateRequest(email: string, password: string): (u: UserCreate)
    ensures u.email == email && u.password == password && u.fullName == None && u.role == Patient
  {
    UserCreate(email, password, None, Patient)
  }

  const EmailTakenDetail := "El email ya está registrado"

  /** Adding a user whose email is absent keeps emails unique, and that user is then
      the one found by its email. */
  lemma RegistrationKeepsEmailsUnique(users: seq<User>, u: User)
    requires UniqueEmails(users)
    requires FindByEmail(users, u.email).None?
    ensures UniqueEmails(users + [u])
    ensures FindByEmail(users + [u], u.email) == Some(|users|)
  {
    FindByEmailAppend(users, u);
  }

  lemma {:induction false} FindByEmailAppend(users: seq<User>, u: User)
    requires FindByEmail(users, u.email).None?
    ensures FindByEmail(users + [u], u.email) == Some(|users|)
    decreases |users|
  {
    if users != [] {
      assert (users + [u])[1..] == users[1..] + [u];
      FindByEmailAppend(users[1..], u);
    }
  }

  /** `register_user`: a taken email gives 400 and stores nothing; otherwise exactly
      one row is appended with the given email, name and role, the hashed password,
      `is_active` true and no refresh token. */
  method RegisterUser(db: Session, data: UserCreate, hash: string -> string) returns (r: Result<User, HttpException>)
    requires db.Valid()
    modifies db`users, db`nextUserId
    ensures db.Valid()
    ensures old(FindByEmail(db.users, data.email)).Some? ==>
              && r == Failure(Raise(BadRequest, EmailTakenDetail))
              && db.users == old(db.users) && db.nextUserId == old(db.nextUserId)
    ensures old(FindByEmail(db.users, data.email)).None? ==>
              && r == Success(NewUser(old(db.nextUserId), data.email, hash(data.password), data.fullName, Some(data.role)))
              && db.users == old(db.users) + [r.value]
  {
    if FindByEmail(db.users, data.email).Some? {
      return Failure(Raise(BadRequest, EmailTakenDetail));
    }
    var hashedPassword := hash(data.password);
    var newUser := NewUser(0, data.email, hashedPassword, data.fullName, Some(data.role));
    var stored := db.AddUser(newUser);
    r := Success(stored);
  }

  // ---------------------------------------------------------------- login

  datatype UserLogin = UserLogin(email: string, password: string)

  /** The claims signed into an access token: user_id, the role's value, and `exp`. */
  datatype AccessClaims = AccessClaims(userId: int, role: string, exp: Instant)

  /** The `Token` response; its `token_type` is always "bearer". */
  datatype Token = Token(accessToken: string, tokenType: string)

  /** ACCESS_TOKEN_EXPIRE_MINUTES of the settings. */
  const AccessTokenExpireMinutes := 30

  const BadCredentialsDetail := "Credenciales de acceso inválidas"

  /** `login_for_access_token`: an unknown email or a password that does not verify
      against the first matching row gives 401; otherwise a bearer token signed over
      that row's id and role value, expiring 30 minutes after `now`. */
  function LoginForAccessToken(data: UserLogin, users: seq<User>, verify: (string, string) -> bool,
                               encode: AccessClaims -> string, now: Instant): (r: Result<Token, HttpException>)
    ensures FindByEmail(users, data.email).None? ==>
              r == Failure(HttpException(Unauthorized, BadCredentialsDetail, BearerChallenge))
    ensures FindByEmail(users, data.email).Some? ==>
              var u := users[FindByEmail(users, data.email).value];
              && u.email == data.email
              && (!verify(data.password, u.hashedPassword) ==>
                    r == Failure(HttpException(Unauthorized, BadCredentialsDetail, BearerChallenge)))
              && (verify(data.password, u.hashedPassword) ==>
                    r == Success(Token(encode(AccessClaims(u.id, u.role.Value(), now + AccessTokenExpireMinutes)), "bearer")))
  {
    match FindByEmail(users, data.email)
    case None => Failure(HttpException(Unauthorized, BadCredentialsDetail, BearerChallenge))
    case Some(k) =>
      var u := users[k];
      if !verify(data.password, u.hashedPassword) then
        Failure(HttpException(Unauthorized, BadCredentialsDetail, BearerChallenge))
      else
        Success(Token(encode(AccessClaims(u.id, u.role.Value(), now + AccessTokenExpireMinutes)), "bearer"))
  }

  /** With unique emails, a login succeeds exactly when some user has that email
      and the password verifies against that user's hash. */
  lemma LoginSucceedsIff(data: UserLogin, users: seq<User>, verify: (string, string) -> bool,
                         encode: AccessClaims -> string, now: Instant)
    requires UniqueEmails(users)
    ensures LoginForAccessToken(data, users, verify, encode, now).Success? <==>
              exists k :: 0 <= k < |users| && users[k].email == data.email && verify(data.password, users[k].hashedPassword)
  {
    var r := LoginForAccessToken(data, users, verify, encode, now);
    if k :| 0 <= k < |users| && users[k].email == data.email && verify(data.password, users[k].hashedPassword) {
      assert FindByEmail(users, data.email) == Some(k);
    }
  }

  // ---------------------------------------------------------------- Google OAuth

  /** The dictionary `exchange_code_for_tokens` returns. */
  datatype GoogleTokens = GoogleTokens(refreshToken: Option<string>, accessToken: Option<string>, email: Option<string>)

  /** How `exchange_code_for_tokens(code)` ends: with the token dictionary; with the
      HTTPException `get_google_auth_flow` raises when the Flow cannot be configured;
      or with any other exception (a rejected code, a missing id token). */
  datatype ExchangeOutcome = Exchanged(tokens: GoogleTokens) | FlowMisconfigured | ExchangeFailed

  /** The detail of the HTTPException raised by `get_google_auth_flow`. */
  const OAuthConfigErrorDetail := "Error de configuración de Google OAuth."

  datatype RedirectResponse = RedirectResponse(url: string, statusCode: int, headers: map<string, string>)

  const Found := 302
  const NoRefreshTokenDetail := "No se pudo obtener el token de refresco (Refresh Token). Reintente, asegurándose de dar todos los permisos."
  const GoogleAuthFailedDetail := "Error al procesar la autenticación de Google."
  const LinkedRedirect := RedirectResponse("/", Found, map["X-Auth-Status" := "Google Calendar conectado con éxito."])

  /** Python's rendering of `google_email` inside the f-string. */
  function ShowEmail(email: Option<string>): string {
    match email
    case None => "None"
    case Some(e) => e
  }

  function EmailNotFoundDetail(email: Option<string>): string {
    "Usuario con email " + ShowEmail(email) + " no encontrado en la base de datos."
  }

  /** The row an OAuth e-mail matches; a missing e-mail matches none. */
  function MatchEmail(users: seq<User>, email: Option<string>): (k: Option<nat>)
    ensures k.Some? ==> email.Some? && k.value < |users| && users[k.value].email == email.value
    ensures k.Some? ==> forall j :: 0 <= j < k.value ==> users[j].email != email.value
    ensures k.None? <==> email.None? || forall j :: 0 <= j < |users| ==> users[j].email != email.value
  {
    if email.None? then None else FindByEmail(users, email.value)
  }

  /** `google_callback`: a misconfigured Flow passes its own 500 through, any other
      failed exchange gives the generic 500, a missing refresh token 400 and an unknown
      e-mail 404, all leaving the table as it was; otherwise the matching user's
      `google_refresh_token` is set and nothing else changes. */
  method GoogleCallback(db: Session, code: string, exchange: string -> ExchangeOutcome)
    returns (r: Result<RedirectResponse, HttpException>)
    requires db.Valid()
    modifies db`users
    ensures db.Valid()
    ensures exchange(code).FlowMisconfigured? ==>
              r == Failure(Raise(InternalServerError, OAuthConfigErrorDetail)) && db.users == old(db.users)
    ensures exchange(code).ExchangeFailed? ==>
              r == Failure(Raise(InternalServerError, GoogleAuthFailedDetail)) && db.users == old(db.users)
    ensures exchange(code).Exchanged? && !HasToken(exchange(code).tokens.refreshToken) ==>
              r == Failure(Raise(BadRequest, NoRefreshTokenDetail)) && db.users == old(db.users)
    ensures exchange(code).Exchanged? && HasToken(exchange(code).tokens.refreshToken) ==>
              var tokens := exchange(code).tokens;
              match MatchEmail(old(db.users), tokens.email)
              case None =>
                r == Failure(Raise(NotFound, EmailNotFoundDetail(tokens.email))) && db.users == old(db.users)
              case Some(k) =>
                && r == Success(LinkedRedirect)
                && db.users == old(db.users)[k := old(db.users)[k].(googleRefreshToken := tokens.refreshToken)]
  {
    var outcome := exchange(code);
    match outcome
    case FlowMisconfigured =>
      // re-raised unchanged by `except HTTPException: raise`
      return Failure(Raise(InternalServerError, OAuthConfigErrorDetail));
    case ExchangeFailed =>
      return Failure(Raise(InternalServerError, GoogleAuthFailedDetail));
    case Exchanged(tokens) =>
      var refreshToken := tokens.refreshToken;
      var googleEmail := tokens.email;
      if !HasToken(refreshToken) {
        return Failure(Raise(BadRequest, NoRefreshTokenDetail));
      }
      var k := MatchEmail(db.users, googleEmail);
      if k.None? {
        return Failure(Raise(NotFound, EmailNotFoundDetail(googleEmail)));
      }
      db.SetRefreshToken(k.value, refreshToken.value);
      r := Success(LinkedRedirect);
  }

  // ---------------------------------------------------------------- Meet booking

  /** The `GoogleAppointmentCreate` body. */
  datatype GoogleAppointmentCreate = GoogleAppointmentCreate(
    patientEmail: string, startTime: DateTime, endTime: DateTime, summary: string, description: string)

  /** The body with the schema's default summary and description. */
  function GoogleAppointmentRequest(patientEmail: string, startTime: DateTime, endTime: DateTime): (a: GoogleAppointmentCreate)
    ensures a.summary == "Consulta Médica Online" && a.description == "Videoconsulta agendada por el sistema."
  {
    GoogleAppointmentCreate(patientEmail, startTime, endTime, "Consulta Médica Online", "Videoconsulta agendada por el sistema.")
  }

  datatype MeetResponse = MeetResponse(message: string, meetUrl: Option<string>, calendarUrl: Option<string>)

  const OnlyDoctorsDetail := "Solo los doctores pueden crear citas de calendario."
  const LinkCalendarFirstDetail := "El doctor debe conectar su calendario de Google a través de /auth/google/login primero."
  const BookedMessage := "Cita agendada y evento de Google Calendar/Meet creado con éxito."
  const CalendarFailurePrefix := "Error al crear el evento de Google: "

  /** `create_appointment_with_meet`: 403 for a non-doctor, then 400 for a doctor
      without a linked calendar, then the calendar service, whose error becomes 500. */
  function CreateAppointmentWithMeet(data: GoogleAppointmentCreate, currentUser: User, timeZone: string, p: Provider)
    : (r: Result<MeetResponse, HttpException>)
    ensures currentUser.role != Doctor ==> r == Failure(Raise(Forbidden, OnlyDoctorsDetail))
    ensures currentUser.role == Doctor && !HasRefreshToken(currentUser) ==>
              r == Failure(Raise(BadRequest, LinkCalendarFirstDetail))
    ensures currentUser.role == Doctor && HasRefreshToken(currentUser) ==>
              match CalendarEvent(currentUser, data.summary, data.description, data.startTime, data.endTime,
                                  data.patientEmail, timeZone, p)
              case Success(info) => r == Success(MeetResponse(BookedMessage, info.meetUrl, info.eventUrl))
              case Failure(e) => r == Failure(Raise(InternalServerError, CalendarFailurePrefix + e.detail))
  {
    if currentUser.role != Doctor then
      Failure(Raise(Forbidden, OnlyDoctorsDetail))
    else if !HasRefreshToken(currentUser) then
      Failure(Raise(BadRequest, LinkCalendarFirstDetail))
    else
      match CalendarEvent(currentUser, data.summary, data.description, data.startTime, data.endTime,
                          data.patientEmail, timeZone, p)
      case Success(meetInfo) => Success(MeetResponse(BookedMessage, meetInfo.meetUrl, meetInfo.eventUrl))
      case Failure(e) => Failure(Raise(InternalServerError, CalendarFailurePrefix + e.detail))
  }

  /** Both guards are decided before the calendar is used: while one of them fails,
      the answer is the same whatever the provider does. */
  lemma GuardsPrecedeCalendar(data: GoogleAppointmentCreate, currentUser: User, timeZone: string, p: Provider, q: Provider)
    requires currentUser.role != Doctor || !HasRefreshToken(currentUser)
    ensures CreateAppointmentWithMeet(data, currentUser, timeZone, p) == CreateAppointmentWithMeet(data, currentUser, timeZone, q)
    ensures CreateAppointmentWithMeet(data, currentUser, timeZone, p).error.statusCode in {Forbidden, BadRequest}
  {
  }

  /** Since the route checks the token itself, the service's own "not connected"
      failure never reaches its caller through this route: a 500 carries one of
      the three failures from the refresh step on. */
  lemma RouteCalendarFailures(data: GoogleAppointmentCreate, currentUser: User, timeZone: string, p: Provider)
    ensures var r := CreateAppointmentWithMeet(data, currentUser, timeZone, p);
            r.Failure? && r.error.statusCode == InternalServerError ==>
              || r.error.detail == CalendarFailurePrefix + InvalidRefreshDetail
              || r.error.detail == CalendarFailurePrefix + UnexpectedDetail
              || (exists content :: r.error.detail == CalendarFailurePrefix + (ApiErrorPrefix + content))
  {
    if currentUser.role == Doctor && HasRefreshToken(currentUser) {
      LinkedDoctorFailures(currentUser, data.summary, data.description, data.startTime, data.endTime,
                           data.patientEmail, timeZone, p);
    }
  }
}
