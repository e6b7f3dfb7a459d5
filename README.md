# picat feeder — Dafny model

A model of the core of a cat-feeder controller written in Rust. It wakes every
30 seconds and looks up the current hour and minute in a feeding schedule. On a
match it drives a servo through a fixed pulse-width sequence. It also persists
the schedule as a list of records.

- `wrappers.dfy` — `Option` and `Result`.
- `schedule.dfy` (module `Schedules`, src/schedule.rs) — weekdays, date-times and
  occasions. `Schedule` is a class whose `times` list `Push` appends to.
  `Contains` is the first-match scan, specified by `FirstMatchIndex` and `Lookup`.
- `storage.dfy` (module `ScheduleStorage`, src/persistant_schedule_storage.rs) —
  weekday codes, the `PersistedSchedule` record, and `Serialize`, `Deserialize`
  and `Load` at record level. Also the round-trip lemmas.
- `servo.dfy` (module `Servos`, src/servo.rs) — the `Servo` record. The PWM
  channel is an abstract handle that accepts a number of writes and then fails.
- `feeder.dfy` (module `Feeder`, src/main.rs) — `FeedCat` as a command trace
  plus total sleep. Also the default schedule, the start-up decision, and one
  iteration of the polling loop.

The `schedule.rs` file stores bare date-times and returns a `bool`. The rest of
the program uses a newer interface: an `Occasion` record, `get_times()`, and a
`contains` that returns the matched occasion (src/main.rs:283, 345). The model
follows that newer interface. `Contains` returns the first matching occasion as
an `Option`, and the old `bool` is `r.Some?`. Matching compares hour and minute
only. There is no weekday check in the matching code.

Behaviours of the code that the model keeps as written:
- A malformed schedule file does not fall back to the default schedule.
  `load` unwraps the result of `deserialize`, so malformed content panics. It is
  a precondition of `Load`.
- There is no weekday gating and no budget splitting in the code. Neither is
  modelled.
- When PWM channel 0 fails to open, the feed still runs, in dummy mode, and
  then `pwm?` returns the error from `main_feeder_loop`, ending the polling
  loop (src/main.rs:335-350).
- The settle sleeps are 200 ms after both the "passed" and the "closed"
  command, with three cycles. A successful feed therefore sleeps
  `feed_time + 1200` ms.

## Model

| member | source | states |
|---|---|---|
| Schedules.Schedule.constructor | src/schedule.rs:7-9 | `new()` gives an empty schedule. |
| Schedules.Schedule.Push | src/schedule.rs:11-13 | Appends at the end. The new list is the old list plus the occasion, so every earlier entry stays in place. |
| Schedules.FirstMatchIndex | src/schedule.rs:15-22 | The index of the first occasion whose hour and minute equal the query's. Nothing before it matches. It is None exactly when no occasion matches. |
| Schedules.Lookup | src/schedule.rs:15-22 | The reported occasion is stored in the schedule and matches the query. It is None exactly when no entry matches, so an empty schedule matches nothing. |
| Schedules.Schedule.Contains | src/schedule.rs:15-22 | The loop returns `Lookup(times, t)`. The result is Some iff some entry has the same hour and minute. A returned occasion has no matching entry before it. The method only reads the schedule. |
| Schedules.LookupAppend | src/schedule.rs:11-18 | Appending occasions never changes an existing match: the earlier occasion keeps winning. |
| Schedules.LookupIgnoresSecondsAndDate | src/schedule.rs:17 | Two queries with the same hour and minute get the same answer, whatever their seconds and dates. |
| Schedules.ContainsTrue | src/schedule.rs:25-31 | Through `new`, `Push` and `Contains`: a stored 07:30:00 matches a query at 07:30:10. |
| Schedules.ContainsFalse | src/schedule.rs:33-39 | Through `new`, `Push` and `Contains`: a stored 07:30:00 does not match 07:31:00. |
| ScheduleStorage.WeekdayToInt | src/persistant_schedule_storage.rs:16-26 | Every weekday maps to a code in 1..7. |
| ScheduleStorage.IntToWeekday | src/persistant_schedule_storage.rs:28-38 | Total. A code in 1..7 decodes to the weekday that encodes to it. Every code outside 1..6, including 0 and codes above 7, decodes to Sunday. |
| ScheduleStorage.WeekdayRoundTrip | src/persistant_schedule_storage.rs:16-38 | `int_to_weekday(weekday_to_int(d)) == d` for every weekday. |
| ScheduleStorage.CodeRoundTrip | src/persistant_schedule_storage.rs:16-38 | A code survives decoding and re-encoding exactly when it is in 1..7. |
| ScheduleStorage.EncodedRecords | src/persistant_schedule_storage.rs:43-53 | Serialising gives one record per occasion. Each record has `enabled == true`, a weekday list of the same length with codes in 1..7, and both servo durations copied. |
| ScheduleStorage.WeekdaysRoundTrip | src/persistant_schedule_storage.rs:43-46 | A weekday list comes back with the same length, order and days. |
| ScheduleStorage.OccasionRoundTrip | src/persistant_schedule_storage.rs:43-53 | A written record always has a readable timestamp. It reads back as the occasion it was written from. |
| ScheduleStorage.ScheduleRoundTrip | src/persistant_schedule_storage.rs:40-80 | Deserialising the serialised records gives the same occasions: the same count and order, times, weekdays and durations. |
| ScheduleStorage.Serialize | src/persistant_schedule_storage.rs:40-57 | The nested loops build exactly `EncodeSchedule(times)`: one enabled record per occasion, in schedule order. |
| ScheduleStorage.Deserialize | src/persistant_schedule_storage.rs:59-80 | If parsing succeeds, it returns `Ok` and appends one decoded occasion per record after the existing contents. If parsing fails, it returns `Err("Error deserializing")` and pushes nothing. |
| ScheduleStorage.Load | src/persistant_schedule_storage.rs:88-99 | A read error is passed on. Otherwise it returns a fresh schedule that holds exactly the decoded records. |
| ScheduleStorage.SerializationRoundTrip | src/persistant_schedule_storage.rs:101-119 | Deserialising the serialised schedule into a new schedule returns `Ok` and gives the same occasions. |
| Feeder.FeedCat | src/main.rs:24-42 | With no handle: `Ok`, no commands and no sleep. With a handle, the commands are the prefix of open, 3 × (passed, closed) that ends at the first failing write. The result is `Ok` iff no write fails. The sleep is the feed time after the first success plus 200 ms after each later one. A complete feed sleeps `feed_time + 1200` ms. |
| Feeder.FeedSequenceShape | src/main.rs:27-35 | The complete sequence is exactly [open, passed, closed, passed, closed, passed, closed], and its last command is closed. |
| Feeder.CreateDefaultSchedule | src/main.rs:44-255 | Appends the fifteen default occasions after the prior contents. |
| Feeder.DefaultOccasionsShape | src/main.rs:44-255 | There are fifteen default occasions. Each has all seven weekdays, 320 ms for servo 1 and 280 ms for servo 2. |
| Feeder.DefaultDuplicateElevenThirty | src/main.rs:115-170 | 11:30 occurs at positions 5, 7 and 8 (0-based) and nowhere else. The first match is position 5. |
| Feeder.DefaultTimesListed | src/main.rs:44-255 | A time of day is in the default list iff it is 04:25 or one of the half hours 07:30–12:30 and 15:30–20:30. |
| Feeder.DefaultMatchTimes | src/main.rs:44-255 | The defaults match exactly 04:25, the half hours 07:30–12:30 and the half hours 15:30–20:30. Every match feeds 320 ms. |
| Feeder.Startup | src/main.rs:257-278 | A loaded schedule is used as it is, with no save. After a failed load, the schedule is the default list and exactly one save of its records is attempted. A failure of that save changes nothing. |
| Feeder.FeederStep | src/main.rs:280-357 | The matched occasion is `Lookup(times, now)`. With no match: no commands and a 30 s sleep. With a match and an opened channel, servo 1 is fed for the occasion's `opened_time_servo1`. A feed error changes nothing. The loop continues after the 60 s cooldown and the 30 s poll. With a match and no channel, the feed runs in dummy mode and `pwm?` ends the loop with the error. |

## Left out

- JSON text: serde encoding and decoding are not modelled. `Deserialize` receives the parse outcome (None when the text is not a record list). `SerializationRoundTrip` takes it as given that serde reads back what it wrote.
- RFC 3339 text: a timestamp is kept as the fields the text spells out (`Rfc3339`). Parsing is a range check. Time zones and offsets, sub-second precision and month lengths are not modelled. A timestamp that does not parse panics in the source, so it is a precondition of `Deserialize`.
- `save` and the file I/O inside `load`: `Load` starts from the outcome of reading the file. `Startup` reports the records the save would write and takes the save outcome as a parameter.
- The rppal PWM hardware: a channel is a `PwmHandle` that accepts a number of writes and then fails. Opening a channel is a parameter of `FeederStep`. The initial closed pulse set when the channel opens, and `disable()` (whose failure is ignored), are not part of the command trace.
- `thread::sleep` is modelled as accumulated milliseconds. `Local::now()` is the `now` parameter.
- The unbounded `loop` of `main_feeder_loop` is modelled one iteration at a time (`FeederStep`). The CLI dispatch in `main` and `test_servo_loop`, a duplicate of the feed path, are not modelled.
- The servo-2 code and the web server are commented out in the source, so they are not modelled. The servo-2 pulse constants are therefore unused.
- Console logging (`println!`) is not modelled; comments in the model mark where the source logs.
- Integer widths: durations (u64), pulse widths (u64) and weekday codes (u32) are `nat`. No arithmetic in the model can overflow them except the sleep totals, which the source never adds up.
