/**
 * Persistence of the schedule (src/persistant_schedule_storage.rs), at the
 * level of the list of persisted records. The JSON text that holds the list
 * and the RFC 3339 text that holds each timestamp are abstracted: a record's
 * time is kept as the date-time fields that text spells out.
 */
module ScheduleStorage {
  import opened Wrappers
  import opened Schedules

  /** The fields an RFC 3339 timestamp spells out; any integers, as a text could hold any digits. */
  datatype Rfc3339 = Rfc3339(year: int, month: int, day: int, hour: int, minute: int, second: int)

  /** One entry of the persisted list, as `PersistedSchedule`. */
  datatype PersistedSchedule = PersistedSchedule(
    enabled: bool,
    time: Rfc3339,
    enabledWeekdays: seq<nat>,
    openedTimeServo1: nat,
    openedTimeServo2: nat)

  const DESERIALIZE_ERROR: string := "Error deserializing"

  /** `weekday_to_int`: Monday is 1, Sunday is 7. */
  function WeekdayToInt(weekday: Weekday): (code: nat)
    ensures 1 <= code <= 7
  {
    match weekday
    case Mon => 1
    case Tue => 2
    case Wed => 3
    case Thu => 4
    case Fri => 5
    case Sat => 6
    case Sun => 7
  }

  /** `int_to_weekday`: total; every code other than 1 to 6 (0 and anything above 7 included) is Sunday. */
  function IntToWeekday(code: nat): (weekday: Weekday)
    ensures 1 <= code <= 7 ==> WeekdayToInt(weekday) == code
    ensures !(1 <= code <= 6) ==> weekday == Sun
  {
    match code
    case 1 => Mon
    case 2 => Tue
    case 3 => Wed
    case 4 => Thu
    case 5 => Fri
    case 6 => Sat
    case _ => Sun
  }

  /** Decoding undoes encoding for every weekday. */
  lemma WeekdayRoundTrip(weekday: Weekday)
    ensures IntToWeekday(WeekdayToInt(weekday)) == weekday
  {
    match weekday
    case Mon => case Tue => case Wed => case Thu => case Fri => case Sat => case Sun =>
  }

  /** A code survives decoding and re-encoding exactly when it is one of 1 to 7. */
  lemma CodeRoundTrip(code: nat)
    ensures WeekdayToInt(IntToWeekday(code)) == code <==> 1 <= code <= 7
  {
  }

  /** `to_rfc3339`, abstracted to the fields it writes. */
  function ToRfc3339(t: DateTime): Rfc3339
  {
    Rfc3339(t.year, t.month, t.day, t.hour, t.minute, t.second)
  }

  /** Parsing a timestamp, abstracted: it fails when a field is out of range. */
  function ParseRfc3339(stamp: Rfc3339): (r: Option<DateTime>)
    ensures r.Some? ==> ToRfc3339(r.value) == stamp
  {
    if 1 <= stamp.month <= 12 && 1 <= stamp.day <= 31 && 0 <= stamp.hour < 24 &&
       0 <= stamp.minute < 60 && 0 <= stamp.second < 60
    then Some(DateTime(stamp.year, stamp.month, stamp.day, stamp.hour, stamp.minute, stamp.second))
    else None
  }

  /** A written timestamp parses back to the same date and time. */
  lemma TimestampRoundTrip(t: DateTime)
    ensures ParseRfc3339(ToRfc3339(t)) == Some(t)
  {
  }

  function EncodeWeekdays(weekdays: seq<Weekday>): (codes: seq<nat>)
  {
    seq(|weekdays|, i requires 0 <= i < |weekdays| => WeekdayToInt(weekdays[i]))
  }

  function DecodeWeekdays(codes: seq<nat>): (weekdays: seq<Weekday>)
  {
    seq(|codes|, i requires 0 <= i < |codes| => IntToWeekday(codes[i]))
  }

  /** The record `serialize` writes for one occasion. */
  function EncodeOccasion(o: Occasion): (p: PersistedSchedule)
  {
    PersistedSchedule(true, ToRfc3339(o.time), EncodeWeekdays(o.enabledWeekdays), o.openedTimeServo1, o.openedTimeServo2)
  }

  /** A record whose timestamp parses; `deserialize` panics on any other. */
  predicate Readable(p: PersistedSchedule)
  {
    ParseRfc3339(p.time).Some?
  }

  predicate AllReadable(records: seq<PersistedSchedule>)
  {
    forall i :: 0 <= i < |records| ==> Readable(records[i])
  }

  /** The occasion `deserialize` pushes for one record; `enabled` is not read. */
  function DecodeRecord(p: PersistedSchedule): (o: Occasion)
    requires Readable(p)
  {
    Occasion(ParseRfc3339(p.time).value, DecodeWeekdays(p.enabledWeekdays), p.openedTimeServo1, p.openedTimeServo2)
  }

  /** The record list `serialize` builds: one record per occasion, in schedule order. */
  function EncodeSchedule(occasions: seq<Occasion>): (records: seq<PersistedSchedule>)
  {
    seq(|occasions|, i requires 0 <= i < |occasions| => EncodeOccasion(occasions[i]))
  }

  /** The occasions `deserialize` pushes, one per record, in record order. */
  function DecodeRecords(records: seq<PersistedSchedule>): (occasions: seq<Occasion>)
    requires AllReadable(records)
  {
    seq(|records|, i requires 0 <= i < |records| => DecodeRecord(records[i]))
  }

  /** Every written record is enabled, carries codes 1 to 7 and copies the durations. */
  lemma EncodedRecords(occasions: seq<Occasion>, i: nat)
    requires i < |occasions|
    ensures |EncodeSchedule(occasions)| == |occasions|
    ensures var p := EncodeSchedule(occasions)[i];
            p.enabled &&
            |p.enabledWeekdays| == |occasions[i].enabledWeekdays| &&
            (forall k :: 0 <= k < |p.enabledWeekdays| ==> 1 <= p.enabledWeekdays[k] <= 7) &&
            p.openedTimeServo1 == occasions[i].openedTimeServo1 &&
            p.openedTimeServo2 == occasions[i].openedTimeServo2
  {
  }

  /** Weekday lists come back with the same length, order and days. */
  lemma WeekdaysRoundTrip(weekdays: seq<Weekday>)
    ensures DecodeWeekdays(EncodeWeekdays(weekdays)) == weekdays
  {
    var back := DecodeWeekdays(EncodeWeekdays(weekdays));
    forall i | 0 <= i < |weekdays|
      ensures back[i] == weekdays[i]
    {
      WeekdayRoundTrip(weekdays[i]);
    }
  }

  /** A written record is always readable, and reads back as the occasion it was written from. */
  lemma OccasionRoundTrip(o: Occasion)
    ensures Readable(EncodeOccasion(o))
    ensures DecodeRecord(EncodeOccasion(o)) == o
  {
    TimestampRoundTrip(o.time);
    WeekdaysRoundTrip(o.enabledWeekdays);
  }

  /** Serialising and deserialising a schedule gives back the same occasions: count, order, times, weekdays and durations. */
  lemma ScheduleRoundTrip(occasions: seq<Occasion>)
    ensures AllReadable(EncodeSchedule(occasions))
    ensures DecodeRecords(EncodeSchedule(occasions)) == occasions
  {
    var records := EncodeSchedule(occasions);
    forall i | 0 <= i < |records|
      ensures Readable(records[i]) && DecodeRecord(records[i]) == occasions[i]
    {
      OccasionRoundTrip(occasions[i]);
    }
  }

  /** `serialize`, up to the JSON text: builds one record per occasion with nested loops. */
  method Serialize(schedule: Schedule) returns (persisted: seq<PersistedSchedule>)
    ensures persisted == EncodeSchedule(schedule.times)
    ensures |persisted| == |schedule.times|
    ensures forall i :: 0 <= i < |persisted| ==> persisted[i].enabled
  {
    persisted := [];
    var times := schedule.times;
    for k := 0 to |times|
      invariant persisted == EncodeSchedule(times[..k])
    {
      var time := times[k];
      var codes: seq<nat> := [];
      for w := 0 to |time.enabledWeekdays|
        invariant codes == EncodeWeekdays(time.enabledWeekdays[..w])
      {
        codes := codes + [WeekdayToInt(time.enabledWeekdays[w])];
      }
      assert time.enabledWeekdays[..|time.enabledWeekdays|] == time.enabledWeekdays;
      persisted := persisted + [PersistedSchedule(true, ToRfc3339(time.time), codes,
                                                  time.openedTimeServo1, time.openedTimeServo2)];
    }
    assert times[..|times|] == times;
  }

  /**
   * `deserialize`, after the JSON text has been parsed: `parsed` is None when
   * the text is not a list of records. On success it appends one occasion per
   * record after what `schedule` already holds; on failure it pushes nothing.
   * A timestamp that does not parse panics in the source, hence the requires.
   */
  method Deserialize(parsed: Option<seq<PersistedSchedule>>, schedule: Schedule) returns (r: Result<(), string>)
    requires parsed.Some? ==> AllReadable(parsed.value)
    modifies schedule
    ensures parsed.None? ==> r == Err(DESERIALIZE_ERROR) && schedule.times == old(schedule.times)
    ensures parsed.Some? ==> r == Ok(()) && schedule.times == old(schedule.times) + DecodeRecords(parsed.value)
  {
    match parsed {
      case None =>
        return Err(DESERIALIZE_ERROR);
      case Some(records) =>
        for k := 0 to |records|
          invariant schedule.times == old(schedule.times) + DecodeRecords(records[..k])
        {
          var sched := records[k];
          var enabledWeekdays: seq<Weekday> := [];
          for w := 0 to |sched.enabledWeekdays|
            invariant enabledWeekdays == DecodeWeekdays(sched.enabledWeekdays[..w])
          {
            enabledWeekdays := enabledWeekdays + [IntToWeekday(sched.enabledWeekdays[w])];
          }
          assert sched.enabledWeekdays[..|sched.enabledWeekdays|] == sched.enabledWeekdays;
          var timestamp := ParseRfc3339(sched.time).value;
          schedule.Push(Occasion(timestamp, enabledWeekdays, sched.openedTimeServo1, sched.openedTimeServo2));
        }
        assert records[..|records|] == records;
        return Ok(());
    }
  }

  /**
   * `load` after the file has been read: `read` is the outcome of opening and
   * reading the file, holding the parsed record list. The source unwraps the
   * result of `deserialize`, so unparsable content is a panic, not an error.
   */
  method Load(read: Result<Option<seq<PersistedSchedule>>, string>) returns (r: Result<Schedule, string>)
    requires read.Ok? ==> read.value.Some? && AllReadable(read.value.value)
    ensures read.Err? ==> r.Err? && r.error == read.error
    ensures read.Ok? ==> r.Ok? && fresh(r.value) && r.value.times == DecodeRecords(read.value.value)
  {
    match read {
      case Err(e) =>
        return Err(e);
      case Ok(content) =>
        var schedule := new Schedule();
        var _ := Deserialize(content, schedule);
        return Ok(schedule);
    }
  }

  /** The test `test_serialization`: serialise, deserialise into a new schedule, same occasions. */
  method SerializationRoundTrip(schedule: Schedule) returns (copy: Schedule, r: Result<(), string>)
    ensures r == Ok(())
    ensures copy.times == schedule.times
  {
    var json := Serialize(schedule);
    copy := new Schedule();
    ScheduleRoundTrip(schedule.times);
    r := Deserialize(Some(json), copy);
  }
}
