/** The session's two tables, held as sequences of rows. Primary keys are
    handed out by the persistence layer from a counter, so they never repeat. */
module Database {
  import opened Wrappers
  import opened Users
  import opened Appointments

  ghost predicate UniqueAppointmentIds(rows: seq<AppointmentRecord>) {
    forall i, j :: 0 <= i < |rows| && 0 <= j < |rows| && rows[i].id == rows[j].id ==> i == j
  }

  class Session {
    var users: seq<User>
    var appointments: seq<AppointmentRecord>
    var nextUserId: int
    var nextAppointmentId: int

    /** Emails and ids are unique; every stored key is below its counter. */
    ghost predicate Valid()
      reads this
    {
      && UniqueEmails(users)
      && UniqueIds(users)
      && (forall i :: 0 <= i < |users| ==> users[i].id < nextUserId)
      && UniqueAppointmentIds(appointments)
      && (forall i :: 0 <= i < |appointments| ==>
            appointments[i].id.Some? && appointments[i].id.value < nextAppointmentId)
    }

    constructor ()
      ensures Valid() && users == [] && appointments == []
    {
      users, appointments := [], [];
      nextUserId, nextAppointmentId := 1, 1;
    }

    /** `db.add(user); db.commit()` for a user whose email is not yet taken: the row
        is stored with the next primary key. */
    method AddUser(u: User) returns (stored: User)
      requires Valid()
      requires FindByEmail(users, u.email).None?
      modifies this`users, this`nextUserId
      ensures Valid()
      ensures stored == u.(id := old(nextUserId))
      ensures users == old(users) + [stored]
      ensures appointments == old(appointments) && nextAppointmentId == old(nextAppointmentId)
    {
      stored := u.(id := nextUserId);
      users := users + [stored];
      nextUserId := nextUserId + 1;
    }

    /** `db.add(appointment); db.commit(); db.refresh(appointment)`: the object gets
        the next primary key and its row is stored. */
    method AddAppointment(a: Appointment)
      requires Valid()
      modifies this, a`id
      ensures Valid()
      ensures a.Record() == old(a.Record()).(id := Some(old(nextAppointmentId)))
      ensures appointments == old(appointments) + [a.Record()]
      ensures users == old(users) && nextUserId == old(nextUserId)
    {
      a.id := Some(nextAppointmentId);
      appointments := appointments + [a.Record()];
      nextAppointmentId := nextAppointmentId + 1;
    }

    /** `db_user.google_refresh_token = token; db.commit()` on row k. */
    method SetRefreshToken(k: nat, token: string)
      requires Valid() && k < |users|
      modifies this`users
      ensures Valid()
      ensures users == old(users)[k := old(users)[k].(googleRefreshToken := Some(token))]
    {
      users := users[k := users[k].(googleRefreshToken := Some(token))];
    }
  }
}
