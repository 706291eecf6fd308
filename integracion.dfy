/** The simulated external integrations: a doctor's free slots (09:00 to 12:00
    every 30 minutes, nothing at weekends) and the teleconsultation link. The
    clock is a parameter. */
module Integracion {
  import opened Wrappers
  import opened Text
  import opened Clock

  const StartHour := 9
  const EndHour := 12
  const SlotDurationMinutes := 30

  /** An offset within a day stays on that day, at that minute. */
  lemma SameDay(t: Instant, m: int)
    requires 0 <= m < MinutesPerDay
    ensures Day(StartOfDay(t) + m) == Day(t) && MinuteOfDay(StartOfDay(t) + m) == m
  {
    var s := StartOfDay(t) + m;
    assert s == Day(t) * MinutesPerDay + m;
  }

  /** `get_doctor_available_slots`: the doctor id is not consulted; the date's time
      of day is ignored. */
  method GetDoctorAvailableSlots(doctorId: int, date: Instant) returns (slots: seq<Instant>)
    ensures Weekday(date) == 5 || Weekday(date) == 6 ==> slots == []
    ensures Weekday(date) < 5 ==>
              |slots| == 6 && forall k :: 0 <= k < 6 ==> slots[k] == StartOfDay(date) + 9 * 60 + 30 * k
    ensures forall i :: 0 <= i < |slots| ==>
              Day(slots[i]) == Day(date) && 9 * 60 <= MinuteOfDay(slots[i]) < 12 * 60
    ensures forall i :: 0 < i < |slots| ==> slots[i] == slots[i - 1] + 30
    ensures forall i, j :: 0 <= i < j < |slots| ==> slots[i] < slots[j]
  {
    if Weekday(date) == 5 || Weekday(date) == 6 {
      return [];
    }
    slots := [];
    var currentTime := StartOfDay(date) + StartHour * 60;
    var endOfDay := StartOfDay(date) + EndHour * 60;
    while currentTime < endOfDay
      invariant currentTime == StartOfDay(date) + StartHour * 60 + SlotDurationMinutes * |slots|
      invariant |slots| <= 6
      invariant forall k :: 0 <= k < |slots| ==> slots[k] == StartOfDay(date) + 9 * 60 + 30 * k
      decreases endOfDay - currentTime
    {
      slots := slots + [currentTime];
      currentTime := currentTime + SlotDurationMinutes;
    }
    forall i | 0 <= i < |slots|
      ensures Day(slots[i]) == Day(date) && 9 * 60 <= MinuteOfDay(slots[i]) < 12 * 60
    {
      SameDay(date, 9 * 60 + 30 * i);
    }
  }

  const ConsultBaseUrl := "https://meet.healthtech.com/consult/"

  /** `generate_teleconsult_link`: None for an in-person appointment; otherwise the
      base URL, the appointment id, "-" and the clock as %Y%m%d%H%M. */
  function GenerateTeleconsultLink(appointmentId: int, isVirtual: bool, now: DateTime): (link: Option<string>)
    ensures link.None? <==> !isVirtual
    ensures link.Some? ==> |link.value| > |ConsultBaseUrl| && link.value[..|ConsultBaseUrl|] == ConsultBaseUrl
    ensures link.Some? ==> link.value == ConsultBaseUrl + (IntToString(appointmentId) + "-" + StampMinutes(now))
  {
    if !isVirtual then None
    else
      var uniqueId := IntToString(appointmentId) + "-" + StampMinutes(now);
      Some(ConsultBaseUrl + uniqueId)
  }

  /** A link splits back into the id, "-" and the minute stamp (which is twelve
      digits for a real date, by `StampMinutesShape`). */
  lemma TeleconsultLinkShape(appointmentId: int, now: DateTime)
    ensures var link := GenerateTeleconsultLink(appointmentId, true, now).value;
            var idEnd := |ConsultBaseUrl| + |IntToString(appointmentId)|;
            && |link| == idEnd + 1 + |StampMinutes(now)|
            && link[|ConsultBaseUrl|..idEnd] == IntToString(appointmentId)
            && link[idEnd] == '-'
            && link[idEnd + 1..] == StampMinutes(now)
  {
    JoinedParts(ConsultBaseUrl, IntToString(appointmentId), StampMinutes(now));
  }

  lemma JoinedParts(base: string, id: string, stamp: string)
    ensures var link := base + (id + "-" + stamp);
            && |link| == |base| + |id| + 1 + |stamp|
            && link[|base|..|base| + |id|] == id
            && link[|base| + |id|] == '-'
            && link[|base| + |id| + 1..] == stamp
  {
  }

  /** Links made in the same minute for two different appointments differ. */
  lemma TeleconsultLinksDistinct(a: int, b: int, now: DateTime)
    requires a != b
    ensures GenerateTeleconsultLink(a, true, now) != GenerateTeleconsultLink(b, true, now)
  {
    var sa, sb, stamp := IntToString(a), IntToString(b), StampMinutes(now);
    var la, lb := ConsultBaseUrl + (sa + "-" + stamp), ConsultBaseUrl + (sb + "-" + stamp);
    if la == lb {
      assert |sa| == |sb|;
      assert sa == la[|ConsultBaseUrl|..|ConsultBaseUrl| + |sa|];
      assert sb == lb[|ConsultBaseUrl|..|ConsultBaseUrl| + |sb|];
      IntToStringInjective(a, b);
    }
  }
}
