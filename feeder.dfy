/**
 * The feeder program (src/main.rs): the servo feed sequence, the default
 * schedule, the start-up load-or-default decision and one iteration of the
 * polling loop.
 */
module Feeder {
  import opened Wrappers
  import opened Schedules
  import opened ScheduleStorage
  import opened Servos

  const PULSE_OPEN_US: nat := 1850
  const PULSE_CLOSED_US: nat := 2400
  const PULSE_PASSED_US: nat := 2650

  /** Sleep after each settle command, ms. */
  const SETTLE_MS: nat := 200
  /** Number of (passed, closed) cycles: the range `1..4`. */
  const SETTLE_CYCLES: nat := 3
  /** Commands of a complete feed: open, then each settle cycle's two. */
  const FEED_COMMANDS: nat := 1 + 2 * SETTLE_CYCLES
  /** Sleep after a feed so the same minute cannot match twice, ms. */
  const COOLDOWN_MS: nat := 60000
  /** Sleep between polls, ms. */
  const POLL_MS: nat := 30000

  datatype FeedError = HardwareWrite

  /** Failure to open the PWM channel. */
  datatype HardwareInitError = HardwareInitError

  /** The `index`-th pulse width `feed_cat` commands: open, then passed and closed alternately. */
  function CommandAt(servo: Servo, index: nat): nat
  {
    if index == 0 then servo.pulseOpen
    else if index % 2 == 1 then servo.pulsePassed
    else servo.pulseClosed
  }

  /** The whole command sequence of a feed that meets no write error. */
  function FeedSequence(servo: Servo): seq<nat>
  {
    seq(FEED_COMMANDS, i requires 0 <= i => CommandAt(servo, i))
  }

  /** The complete sequence is open, then three times passed and closed; it ends closed. */
  lemma FeedSequenceShape(servo: Servo)
    ensures FeedSequence(servo) == [servo.pulseOpen,
                                    servo.pulsePassed, servo.pulseClosed,
                                    servo.pulsePassed, servo.pulseClosed,
                                    servo.pulsePassed, servo.pulseClosed]
    ensures FeedSequence(servo)[|FeedSequence(servo)| - 1] == servo.pulseClosed
  {
  }

  /** One more command of the sequence: open first, then passed at odd positions and closed at even ones. */
  lemma FeedPrefixStep(servo: Servo, n: nat)
    requires n < FEED_COMMANDS
    ensures FeedSequence(servo)[..n + 1] == FeedSequence(servo)[..n] + [CommandAt(servo, n)]
  {
  }

  function Min(a: int, b: int): int
  {
    if a <= b then a else b
  }

  /** How many commands a feed on `pwm` issues: up to and including the first that fails. */
  function Attempted(pwm: PwmHandle): nat
  {
    Min(pwm.acceptedWrites + 1, FEED_COMMANDS)
  }

  /** How many commands of a feed on `pwm` succeed. */
  function Completed(pwm: PwmHandle): nat
  {
    Min(pwm.acceptedWrites, FEED_COMMANDS)
  }

  /** Total sleep of a feed once `done` commands have succeeded: the feed time after the first, 200 ms after each later one. */
  function SleepAfter(feedTime: nat, done: nat): nat
  {
    if done == 0 then 0 else feedTime + SETTLE_MS * (done - 1)
  }

  /**
   * `feed_cat`: without a channel it only logs; with one it commands open,
   * sleeps `feedTime`, then runs three (passed, closed) cycles with 200 ms
   * sleeps, returning at the first write that fails. `commands` are the
   * pulse widths it asks for, the failing one included; `sleptMs` is the
   * total of its sleeps.
   */
  method FeedCat(servo: Servo, feedTime: nat) returns (r: Result<(), FeedError>, commands: seq<nat>, sleptMs: nat)
    ensures servo.pwm.None? ==> r == Ok(()) && commands == [] && sleptMs == 0
    ensures servo.pwm.Some? ==> (r.Ok? <==> servo.pwm.value.acceptedWrites >= FEED_COMMANDS)
    ensures servo.pwm.Some? ==> commands == FeedSequence(servo)[..Attempted(servo.pwm.value)]
    ensures servo.pwm.Some? ==> sleptMs == SleepAfter(feedTime, Completed(servo.pwm.value))
    ensures servo.pwm.Some? && r.Ok? ==> commands == FeedSequence(servo) && sleptMs == feedTime + 1200
  {
    commands, sleptMs := [], 0;
    match servo.pwm {
      case None =>
        // the intent to feed is logged; nothing is commanded.
        r := Ok(());
      case Some(pwm) =>
        FeedPrefixStep(servo, 0);
        commands := commands + [servo.pulseOpen];
        if !Accepts(pwm, |commands| - 1) {
          return Err(HardwareWrite), commands, sleptMs;
        }
        sleptMs := sleptMs + feedTime;
        for cycle := 1 to 4
          invariant |commands| == 2 * cycle - 1
          invariant commands == FeedSequence(servo)[..|commands|]
          invariant pwm.acceptedWrites >= |commands|
          invariant sleptMs == SleepAfter(feedTime, |commands|)
        {
          FeedPrefixStep(servo, |commands|);
          commands := commands + [servo.pulsePassed];
          if !Accepts(pwm, |commands| - 1) {
            return Err(HardwareWrite), commands, sleptMs;
          }
          sleptMs := sleptMs + SETTLE_MS;
          FeedPrefixStep(servo, |commands|);
          commands := commands + [servo.pulseClosed];
          if !Accepts(pwm, |commands| - 1) {
            return Err(HardwareWrite), commands, sleptMs;
          }
          sleptMs := sleptMs + SETTLE_MS;
        }
        r := Ok(());
    }
  }

  /** The weekday list every default occasion carries. */
  function AllWeekdays(): seq<Weekday>
  {
    [Mon, Tue, Wed, Thu, Fri, Sat, Sun]
  }

  /** A default occasion: 1970-01-01 at the given time, every weekday, 320 ms and 280 ms. */
  function DailyAt(hour: Hour, minute: Minute): Occasion
  {
    Occasion(DateTime(1970, 1, 1, hour, minute, 0), AllWeekdays(), 320, 280)
  }

  /** The fifteen occasions `create_default_schedule` pushes, in order. */
  function DefaultOccasions(): seq<Occasion>
  {
    [DailyAt(4, 25), DailyAt(7, 30), DailyAt(8, 30), DailyAt(9, 30), DailyAt(10, 30),
     DailyAt(11, 30), DailyAt(12, 30), DailyAt(11, 30), DailyAt(11, 30), DailyAt(15, 30),
     DailyAt(16, 30), DailyAt(17, 30), DailyAt(18, 30), DailyAt(19, 30), DailyAt(20, 30)]
  }

  lemma AppendOne(front: seq<Occasion>, back: seq<Occasion>, o: Occasion)
    ensures (front + back) + [o] == front + (back + [o])
  {
  }

  /** The default list, written as the fifteen single pushes that build it. */
  lemma DefaultOccasionsAsPushes()
    ensures DefaultOccasions() ==
      [DailyAt(4, 25)] + [DailyAt(7, 30)] + [DailyAt(8, 30)] + [DailyAt(9, 30)] + [DailyAt(10, 30)] +
      [DailyAt(11, 30)] + [DailyAt(12, 30)] + [DailyAt(11, 30)] + [DailyAt(11, 30)] + [DailyAt(15, 30)] +
      [DailyAt(16, 30)] + [DailyAt(17, 30)] + [DailyAt(18, 30)] + [DailyAt(19, 30)] + [DailyAt(20, 30)]
  {
  }

  /** `create_default_schedule`: appends the fifteen default occasions after what is already there. */
  method CreateDefaultSchedule(schedule: Schedule)
    modifies schedule
    ensures schedule.times == old(schedule.times) + DefaultOccasions()
  {
    ghost var before := schedule.times;
    schedule.Push(DailyAt(4, 25));
    ghost var added := [DailyAt(4, 25)];
    AppendOne(before, added, DailyAt(7, 30));
    schedule.Push(DailyAt(7, 30));
    added := added + [DailyAt(7, 30)];
    AppendOne(before, added, DailyAt(8, 30));
    schedule.Push(DailyAt(8, 30));
    added := added + [DailyAt(8, 30)];
    AppendOne(before, added, DailyAt(9, 30));
    schedule.Push(DailyAt(9, 30));
    added := added + [DailyAt(9, 30)];
    AppendOne(before, added, DailyAt(10, 30));
    schedule.Push(DailyAt(10, 30));
    added := added + [DailyAt(10, 30)];
    AppendOne(before, added, DailyAt(11, 30));
    schedule.Push(DailyAt(11, 30));
    added := added + [DailyAt(11, 30)];
    AppendOne(before, added, DailyAt(12, 30));
    schedule.Push(DailyAt(12, 30));
    added := added + [DailyAt(12, 30)];
    AppendOne(before, added, DailyAt(11, 30));
    schedule.Push(DailyAt(11, 30));
    added := added + [DailyAt(11, 30)];
    AppendOne(before, added, DailyAt(11, 30));
    schedule.Push(DailyAt(11, 30));
    added := added + [DailyAt(11, 30)];
    AppendOne(before, added, DailyAt(15, 30));
    schedule.Push(DailyAt(15, 30));
    added := added + [DailyAt(15, 30)];
    AppendOne(before, added, DailyAt(16, 30));
    schedule.Push(DailyAt(16, 30));
    added := added + [DailyAt(16, 30)];
    AppendOne(before, added, DailyAt(17, 30));
    schedule.Push(DailyAt(17, 30));
    added := added + [DailyAt(17, 30)];
    AppendOne(before, added, DailyAt(18, 30));
    schedule.Push(DailyAt(18, 30));
    added := added + [DailyAt(18, 30)];
    AppendOne(before, added, DailyAt(19, 30));
    schedule.Push(DailyAt(19, 30));
    added := added + [DailyAt(19, 30)];
    AppendOne(before, added, DailyAt(20, 30));
    schedule.Push(DailyAt(20, 30));
    added := added + [DailyAt(20, 30)];
    DefaultOccasionsAsPushes();
  }

  /** Fifteen occasions, each on all seven weekdays with 320 ms for servo 1 and 280 ms for servo 2. */
  lemma DefaultOccasionsShape()
    ensures |DefaultOccasions()| == 15
    ensures forall i :: 0 <= i < 15 ==>
      var o := DefaultOccasions()[i];
      (forall d: Weekday :: d in o.enabledWeekdays) && |o.enabledWeekdays| == 7 &&
      o.openedTimeServo1 == 320 && o.openedTimeServo2 == 280
  {
    assert forall d: Weekday :: d in AllWeekdays() by {
      forall d: Weekday ensures d in AllWeekdays() {
        match d
        case Mon => case Tue => case Wed => case Thu => case Fri => case Sat => case Sun =>
      }
    }
  }

  /** 11:30 is in the defaults three times, at positions 5, 7 and 8 (0-based), and the first of them is the one matched. */
  lemma DefaultDuplicateElevenThirty(t: DateTime)
    requires t.hour == 11 && t.minute == 30
    ensures forall i :: 0 <= i < |DefaultOccasions()| ==> (Matches(DefaultOccasions()[i], t) <==> i == 5 || i == 7 || i == 8)
    ensures FirstMatchIndex(DefaultOccasions(), t) == Some(5)
  {
    var d := DefaultOccasions();
    forall i | 0 <= i < |d|
      ensures Matches(d[i], t) <==> i == 5 || i == 7 || i == 8
    {
    }
    FirstMatchIsUnique(d, t, 5);
  }

  /** The times of day in the default list: 04:25 and the half hours 07:30 to 12:30 and 15:30 to 20:30. */
  predicate IsDefaultTime(hour: int, minute: int)
  {
    (hour == 4 && minute == 25) || (minute == 30 && (7 <= hour <= 12 || 15 <= hour <= 20))
  }

  /** The default list holds every default time, and no other. */
  lemma DefaultTimesListed(hour: Hour, minute: Minute)
    ensures IsDefaultTime(hour, minute) <==>
            exists i :: 0 <= i < |DefaultOccasions()| && DefaultOccasions()[i].time.hour == hour &&
                        DefaultOccasions()[i].time.minute == minute
  {
    var d := DefaultOccasions();
    if IsDefaultTime(hour, minute) {
      var i := if hour == 4 then 0 else hour - 6;
      assert d[i].time.hour == hour && d[i].time.minute == minute;
    }
    forall i | 0 <= i < |d|
      ensures IsDefaultTime(d[i].time.hour, d[i].time.minute)
    {
    }
  }

  /**
   * The default schedule matches exactly the default times, on any date,
   * and every match feeds servo 1 for 320 ms.
   */
  lemma DefaultMatchTimes(t: DateTime)
    ensures Lookup(DefaultOccasions(), t).Some? <==> IsDefaultTime(t.hour, t.minute)
    ensures Lookup(DefaultOccasions(), t).Some? ==> Lookup(DefaultOccasions(), t).value.openedTimeServo1 == 320
  {
    var d := DefaultOccasions();
    DefaultOccasionsShape();
    DefaultTimesListed(t.hour, t.minute);
    if IsDefaultTime(t.hour, t.minute) {
      var i :| 0 <= i < |d| && d[i].time.hour == t.hour && d[i].time.minute == t.minute;
      assert Matches(d[i], t);
    }
    var k := FirstMatchIndex(d, t);
    if k.Some? {
      assert Lookup(d, t).value == d[k.value];
    }
  }

  /**
   * Start-up of `main_feeder_loop`: a schedule that loaded is used as it is
   * and nothing is saved; otherwise the default schedule is built and saved
   * once. `saved` is what that save writes; its outcome `saveResult` is only
   * logged.
   */
  method Startup(loaded: Result<Schedule, string>, saveResult: Result<(), string>)
    returns (schedule: Schedule, saved: Option<seq<PersistedSchedule>>)
    ensures loaded.Ok? ==> schedule == loaded.value && saved == None
    ensures loaded.Err? ==> schedule.times == DefaultOccasions()
    ensures loaded.Err? ==> saved == Some(EncodeSchedule(DefaultOccasions()))
  {
    schedule := new Schedule();
    var createdDefault: bool;
    match loaded {
      case Ok(x) =>
        // a message that the persisted schedule is used is logged
        schedule := x;
        createdDefault := false;
      case Err(_) =>
        // a message that a new schedule is created is logged
        CreateDefaultSchedule(schedule);
        createdDefault := true;
    }
    saved := None;
    if createdDefault {
      var json := Serialize(schedule);
      saved := Some(json);
      match saveResult {
        case Ok(_) =>
        case Err(_) => // the failure to persist is only logged
      }
    }
  }

  /** The servo driven on PWM channel 0, with the servo-1 pulse widths. */
  function ServoOne(pwm: Option<PwmHandle>): Servo
  {
    Servo(PULSE_CLOSED_US, PULSE_OPEN_US, PULSE_PASSED_US, pwm)
  }

  /** Whether the polling loop goes on after an iteration. */
  datatype LoopControl = Continue | Exit(error: HardwareInitError)

  /**
   * One iteration of the polling loop at time `now`. `channel` is the outcome
   * of opening PWM channel 0, which the source only attempts on a match. On a
   * match servo 1 is fed for the occasion's `opened_time_servo1`, in dummy
   * mode if the channel did not open; a feed error is only logged. After the
   * feed, `pwm?` ends the loop if the channel did not open; otherwise the
   * channel is disabled and the loop sleeps the cooldown. Every iteration
   * that continues ends with the poll sleep.
   */
  method FeederStep(schedule: Schedule, now: DateTime, channel: Result<PwmHandle, HardwareInitError>)
    returns (matched: Option<Occasion>, commands: seq<nat>, sleptMs: nat, control: LoopControl)
    ensures matched == Lookup(schedule.times, now)
    ensures matched.None? ==> commands == [] && sleptMs == POLL_MS && control == Continue
    ensures matched.Some? && channel.Err? ==> commands == [] && sleptMs == 0 && control == Exit(channel.error)
    ensures matched.Some? && channel.Ok? ==>
      control == Continue &&
      commands == FeedSequence(ServoOne(Some(channel.value)))[..Attempted(channel.value)] &&
      sleptMs == SleepAfter(matched.value.openedTimeServo1, Completed(channel.value)) + COOLDOWN_MS + POLL_MS
  {
    matched := schedule.Contains(now);
    commands, sleptMs, control := [], 0, Continue;
    if matched.Some? {
      var servo1 := match channel
        case Ok(p) => ServoOne(Some(p))
        case Err(_) => ServoOne(None);  // the fallback to a dummy servo is logged
      var fed, feedSleep;
      fed, commands, feedSleep := FeedCat(servo1, matched.value.openedTimeServo1);
      sleptMs := sleptMs + feedSleep;
      // Either outcome of the feed is only logged.
      match channel {
        case Err(e) =>
          return matched, commands, sleptMs, Exit(e);
        case Ok(_) =>
          // disable() is called and its failure ignored.
      }
      sleptMs := sleptMs + COOLDOWN_MS;
    }
    sleptMs := sleptMs + POLL_MS;
  }
}
