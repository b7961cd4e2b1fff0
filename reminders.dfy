/**
 * The reminder `daily_check` sends: every trip of the user whose stored start date is the
 * ISO spelling of tomorrow, in dict order. The comparison is on the text, so a start date that
 * was typed in another accepted spelling never matches.
 */
module Reminders {
  import opened Wrappers
  import opened Dates
  import opened Trips

  /** The names of the trips, in order, whose start date is the text `day`. */
  function Reminders(trips: seq<Entry>, day: string): (names: seq<string>)
    ensures |names| <= |trips|
  {
    if trips == [] then []
    else (if trips[0].info.startDate == day then [trips[0].name] else []) + Reminders(trips[1..], day)
  }

  /** A name is reminded exactly when some trip with that name starts on `day`. */
  lemma {:induction false} RemindersExact(trips: seq<Entry>, day: string, name: string)
    ensures name in Reminders(trips, day) <==>
      exists k :: 0 <= k < |trips| && trips[k].name == name && trips[k].info.startDate == day
  {
    if trips != [] {
      RemindersExact(trips[1..], day, name);
      if name in Reminders(trips[1..], day) {
        var k :| 0 <= k < |trips[1..]| && trips[1..][k].name == name && trips[1..][k].info.startDate == day;
        assert trips[k + 1] == trips[1..][k];
      }
      if exists k :: 0 <= k < |trips| && trips[k].name == name && trips[k].info.startDate == day {
        var k :| 0 <= k < |trips| && trips[k].name == name && trips[k].info.startDate == day;
        if k > 0 {
          assert trips[1..][k - 1] == trips[k];
        }
      }
    }
  }

  /** Reminders are computed trip by trip: those of a concatenation are those of each part, in
      order. */
  lemma {:induction false} RemindersAppend(a: seq<Entry>, b: seq<Entry>, day: string)
    ensures Reminders(a + b, day) == Reminders(a, day) + Reminders(b, day)
  {
    if a == [] {
      assert a + b == b;
    } else {
      var head := if a[0].info.startDate == day then [a[0].name] else [];
      assert (a + b)[0] == a[0] && (a + b)[1..] == a[1..] + b;
      assert Reminders(a + b, day) == head + Reminders(a[1..] + b, day);
      RemindersAppend(a[1..], b, day);
      assert Reminders(a, day) == head + Reminders(a[1..], day);
    }
  }

  /** A trip whose start date was typed in an accepted spelling other than the ISO one (such
      as "2025-6-1") is never reminded, whatever tomorrow is. */
  lemma NonIsoSpellingNeverReminded(trips: TripMap, k: nat, tomorrow: Date)
    requires k < |trips| && ValidDate(tomorrow)
    requires ParseDate(trips[k].info.startDate).Some?
    requires trips[k].info.startDate != IsoFormat(ParseDate(trips[k].info.startDate).value)
    ensures trips[k].name !in Reminders(trips, IsoFormat(tomorrow))
  {
    RemindersExact(trips, IsoFormat(tomorrow), trips[k].name);
    if trips[k].name in Reminders(trips, IsoFormat(tomorrow)) {
      var j :| 0 <= j < |trips| && trips[j].name == trips[k].name && trips[j].info.startDate == IsoFormat(tomorrow);
      assert j == k;
      ParseIsoFormat(tomorrow);
      assert false;
    }
  }

  /** A trip added as "/addtrip Roma 2025-6-1" is accepted, but never reminded. */
  lemma ShortSpelledTripNeverReminded(name: string, trip: Trip, tomorrow: Date)
    requires trip.startDate == "2025-6-1" && ValidDate(tomorrow)
    ensures ParseDate(trip.startDate) == Some(Date(2025, 6, 1))
    ensures Reminders([Entry(name, trip)], IsoFormat(tomorrow)) == []
  {
    AcceptedShortSpelling();
    NonIsoSpellingNeverReminded([Entry(name, trip)], 0, tomorrow);
  }

  /** A trip stored with the ISO spelling is reminded the day before it starts, and only then. */
  lemma IsoStartDateRemindedOnlyTheDayBefore(name: string, trip: Trip, start: Date, tomorrow: Date)
    requires ValidDate(start) && ValidDate(tomorrow) && trip.startDate == IsoFormat(start)
    ensures Reminders([Entry(name, trip)], IsoFormat(tomorrow)) == if tomorrow == start then [name] else []
  {
    if IsoFormat(tomorrow) == IsoFormat(start) {
      ParseIsoFormat(tomorrow);
      ParseIsoFormat(start);
    }
  }
}
