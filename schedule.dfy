/**
 * The feeding schedule (src/schedule.rs): an ordered list of occasions that
 * only grows, and the first-match lookup by hour and minute.
 */
module Schedules {
  import opened Wrappers

  datatype Weekday = Mon | Tue | Wed | Thu | Fri | Sat | Sun

  type Month = m: int | 1 <= m <= 12 witness 1
  type Day = d: int | 1 <= d <= 31 witness 1
  type Hour = h: int | 0 <= h < 24
  type Minute = m: int | 0 <= m < 60
  type Second = s: int | 0 <= s < 60

  /** A local calendar date and time of day, as chrono's `DateTime<Local>`. */
  datatype DateTime = DateTime(year: int, month: Month, day: Day, hour: Hour, minute: Minute, second: Second)

  /** One feeding occasion: a time of day, its weekdays and how long each servo stays open (ms). */
  datatype Occasion = Occasion(
    time: DateTime,
    enabledWeekdays: seq<Weekday>,
    openedTimeServo1: nat,
    openedTimeServo2: nat)

  /** The matching test of `contains`: hour and minute agree; seconds and date do not take part. */
  predicate Matches(o: Occasion, t: DateTime)
  {
    o.time.hour == t.hour && o.time.minute == t.minute
  }

  /** Position of the first occasion, in insertion order, that matches `t`. */
  function FirstMatchIndex(occasions: seq<Occasion>, t: DateTime): (r: Option<nat>)
    ensures r.Some? ==> r.value < |occasions| && Matches(occasions[r.value], t)
    ensures r.Some? ==> forall j :: 0 <= j < r.value ==> !Matches(occasions[j], t)
    ensures r.None? <==> forall j :: 0 <= j < |occasions| ==> !Matches(occasions[j], t)
  {
    if occasions == [] then None
    else if Matches(occasions[0], t) then Some(0)
    else match FirstMatchIndex(occasions[1..], t)
      case None => None
      case Some(k) => Some(k + 1)
  }

  /** The occasion `contains` reports for `t`: the first match, or none. */
  function Lookup(occasions: seq<Occasion>, t: DateTime): (r: Option<Occasion>)
    ensures r.Some? ==> r.value in occasions && Matches(r.value, t)
    ensures r.None? <==> forall j :: 0 <= j < |occasions| ==> !Matches(occasions[j], t)
  {
    match FirstMatchIndex(occasions, t)
    case None => None
    case Some(k) => Some(occasions[k])
  }

  /** Appending never changes an existing match: the earlier occasion keeps winning. */
  lemma {:induction false} LookupAppend(front: seq<Occasion>, back: seq<Occasion>, t: DateTime)
    ensures Lookup(front + back, t) == if Lookup(front, t).Some? then Lookup(front, t) else Lookup(back, t)
  {
    var all := front + back;
    match FirstMatchIndex(front, t)
    case Some(k) =>
      assert all[k] == front[k];
      assert forall j :: 0 <= j < k ==> all[j] == front[j];
      FirstMatchIsUnique(all, t, k);
    case None =>
      assert forall j :: 0 <= j < |front| ==> all[j] == front[j];
      match FirstMatchIndex(back, t)
      case Some(k) =>
        assert all[|front| + k] == back[k];
        assert forall j :: |front| <= j < |front| + k ==> all[j] == back[j - |front|];
        FirstMatchIsUnique(all, t, |front| + k);
      case None =>
        assert forall j :: |front| <= j < |all| ==> all[j] == back[j - |front|];
  }

  /** A matching position with no matching position before it is the one `FirstMatchIndex` finds. */
  lemma FirstMatchIsUnique(occasions: seq<Occasion>, t: DateTime, k: nat)
    requires k < |occasions| && Matches(occasions[k], t)
    requires forall j :: 0 <= j < k ==> !Matches(occasions[j], t)
    ensures FirstMatchIndex(occasions, t) == Some(k)
  {
  }

  /** Only hour and minute of the query matter: seconds and the calendar date are ignored. */
  lemma LookupIgnoresSecondsAndDate(occasions: seq<Occasion>, t1: DateTime, t2: DateTime)
    requires t1.hour == t2.hour && t1.minute == t2.minute
    ensures Lookup(occasions, t1) == Lookup(occasions, t2)
  {
  }

  /** The schedule of src/schedule.rs: a growable list of occasions. */
  class Schedule {
    var times: seq<Occasion>

    /** `Schedule::new`: the empty schedule. */
    constructor ()
      ensures times == []
    {
      times := [];
    }

    /** `Schedule::push`: appends at the end, keeping every earlier entry in place. */
    method Push(occasion: Occasion)
      modifies this
      ensures times == old(times) + [occasion]
    {
      times := times + [occasion];
    }

    /** `Schedule::contains`: scans in insertion order and returns at the first hour-and-minute match. */
    method Contains(t: DateTime) returns (r: Option<Occasion>)
      ensures r == Lookup(times, t)
      ensures r.Some? <==> exists i :: 0 <= i < |times| && Matches(times[i], t)
      ensures r.Some? ==> exists i :: 0 <= i < |times| && times[i] == r.value && Matches(r.value, t) &&
                                      forall j :: 0 <= j < i ==> !Matches(times[j], t)
    {
      var i := 0;
      while i < |times|
        invariant 0 <= i <= |times|
        invariant forall j :: 0 <= j < i ==> !Matches(times[j], t)
      {
        if times[i].time.hour == t.hour && times[i].time.minute == t.minute {
          FirstMatchIsUnique(times, t, i);
          return Some(times[i]);
        }
        i := i + 1;
      }
      return None;
    }
  }

  /** The test `contains_true`: after pushing 07:30:00, a query at 07:30:10 matches. */
  method ContainsTrue() returns (found: bool)
    ensures found
  {
    var schedule := new Schedule();
    schedule.Push(Occasion(DateTime(1970, 1, 1, 7, 30, 0), [], 0, 0));
    var r := schedule.Contains(DateTime(1970, 1, 1, 7, 30, 10));
    found := r.Some?;
  }

  /** The test `contains_false`: after pushing 07:30:00, a query at 07:31:00 does not match. */
  method ContainsFalse() returns (found: bool)
    ensures !found
  {
    var schedule := new Schedule();
    schedule.Push(Occasion(DateTime(1970, 1, 1, 7, 30, 0), [], 0, 0));
    var r := schedule.Contains(DateTime(1970, 1, 1, 7, 31, 0));
    found := r.Some?;
  }
}
