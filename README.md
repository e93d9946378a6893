# RxSwift virtual-time operators

This project models the time-based operators that RxSwift's virtual-time test suite
exercises, together with the deterministic test scheduler that drives them. The operators are
`throttle`, `sample`, `sampleLatest`, `interval`, `take(duration)` and `delaySubscription`.

A trace is a sequence of records `(time, Next(v) | Error | Completed)`. The harness
(`scheduler.start`) subscribes at 200 and disposes at 1000, or at the bound passed to
`start(n)`.

- A hot source delivers its messages at their absolute times. A subscriber attached at 200
  sees only the messages after 200 (`Trace.Visible`).
- A cold source's times are counted from the moment it is subscribed.

Each operator appears twice:

1. **As a pure function over traces**: `ThrottleFrom`, `SampleFrom`, `IntervalFrom`,
   `TakeFrom` and `ColdFrom`. Each comes with an independent reference definition or an exact
   characterisation (`ThrottleReference`, `SampleReference`, `TakeReference`, `TicksFrom`,
   `Shift` of a `Window`), and each test scenario of the suite is a lemma about them.
2. **As an imperative run on the test scheduler**: `RunThrottle`, `RunSample`, `RunInterval`,
   `RunTake` and `RunDelaySubscription`. Each one builds a `VirtualTime.TestScheduler`, queues
   the sources' messages, the subscription and the disposal, and then runs the earliest pending
   action until nothing is left. The operator's sink keeps its state step by step, and its
   timers go onto the same queue. Every run method is proved to record exactly what the pure
   function says.

The scheduler (`VirtualTime.TestScheduler`) is a class with a clock, a queue of pending
items and a sequence counter.

- Items run in order of due time. Items due at the same time run in the order they were
  scheduled.
- Work scheduled at or before the current time runs one tick later. This is why `take(0)`
  completes at 201 and `interval(0)` ticks at 201, 202, and so on.
- Hot sources are created before `start` schedules the subscription and the disposal, and
  operator timers are scheduled later still. So at equal times the order is: hot message,
  then subscription or disposal, then timer. Two consequences follow:
  - a hot message due exactly at the bound is still delivered;
  - an interval tick or a throttle timer due exactly at the bound is lost.
- For a cold source under `delaySubscription`, the disposal was scheduled before the source's
  messages, so it also wins a tie with them.

Some behaviour is not spelled out by the test suite as text. In those places the model
follows what the scheduler's ordering implies:

- `take(D)` forwards a source message due exactly at the deadline 200 + D before completing,
  because the hot message was scheduled before the deadline timer. It is therefore not
  "messages strictly before 200 + D".
- `sample`: when the sampler completes while the source is still running, the fresh value (if
  any) is flushed and the output completes. This is a choice of the model: no test and no text
  in the repository fixes this case. When the sampler ticks after the source has completed,
  any pending value is emitted and the output completes at that tick.
- A recorded time at or before the current clock becomes clock + 1. This applies to a hot
  message at time 0, a zero or negative `dueTime` or period, and a cold message at relative
  time 0.

## Model

| member | source | states |
|---|---|---|
| VirtualTime.TestScheduler.constructor | RxTests/RxSwiftTests/Tests/Observable+TimeTest.swift:28 | a fresh scheduler has the given clock and nothing pending |
| VirtualTime.TestScheduler.ScheduleAbsolute | RxTests/RxSwiftTests/Tests/Observable+TimeTest.swift:39-41 | the pending set gains exactly one item at the requested time, or at clock + 1 if that time has passed; it gets the next sequence number and the clock does not move |
| VirtualTime.TestScheduler.CreateHotObservable | RxTests/RxSwiftTests/Tests/Observable+TimeTest.swift:30-37 | the pending set gains one item per recorded message, at its absolute time and with consecutive sequence numbers; nothing else changes |
| VirtualTime.TestScheduler.ScheduleRelative | RxTests/RxSwiftTests/Tests/Observable+TimeTest.swift:231-261 | the pending set gains one item `delay` ticks from now (at least one tick) |
| VirtualTime.TestScheduler.SubscribeColdObservable | RxTests/RxSwiftTests/Tests/Observable+TimeTest.swift:976-994 | subscribing a cold source queues each of its messages relative to the current clock, with consecutive sequence numbers |
| VirtualTime.TestScheduler.Cancel | RxTests/RxSwiftTests/Tests/Observable+TimeTest.swift:93-124 | disposing a scheduled action removes exactly the pending items with that sequence number and leaves the others |
| VirtualTime.TestScheduler.Dequeue | RxTests/RxSwiftTests/Tests/Observable+TimeTest.swift:704-744 | the returned item precedes every other pending item (earlier due time, or equal time and scheduled first); it is removed and the clock moves to its due time |
| Trace.VisibleIsLate | RxTests/RxSwiftTests/Tests/Observable+TimeTest.swift:30-47 | a subscriber attached at 200 sees exactly the hot messages after 200, in order, and none of those at or before 200 |
| Trace.FiresAt | RxTests/RxSwiftTests/Tests/Observable+TimeTest.swift:797-817 | a timer started at the subscription fires after 200, at 200 + delay for a positive delay; it is the take deadline and the delayed subscription time |
| Throttle.ThrottleFrom | RxTests/RxSwiftTests/Tests/Observable+TimeTest.swift:27-261 | the throttled output has at most one terminal, which is last, and the subscription ends at it or else at the disposal |
| Throttle.Throttle | RxTests/RxSwiftTests/Tests/Observable+TimeTest.swift:39-57 | what `scheduler.start` records for `xs >- throttle(dueTime)`: the state machine run over the source's messages after 200, with the source subscribed once, from 200 until the output's terminal or else until the disposal |
| Throttle.ThrottleMatchesReference | RxTests/RxSwiftTests/Tests/Observable+TimeTest.swift:27-261 | the state machine equals the message-by-message reference: a value is emitted when its timer fires before the next message and the disposal, flushed by a completion that arrives no later, and dropped otherwise |
| Throttle.ThrottleWellFormed | RxTests/RxSwiftTests/Tests/Observable+TimeTest.swift:27-261 | for a time-ordered source, the output is time-ordered, terminates at most once, lies in (200, bound], and the source subscription is (200, terminal or bound) |
| Throttle.ThrottleSparse | RxTests/RxSwiftTests/Tests/Observable+TimeTest.swift:27-91 | when values are further apart than dueTime, every value is emitted when its timer fires and the terminal passes through at its own time |
| Throttle.ThrottleBurst | RxTests/RxSwiftTests/Tests/Observable+TimeTest.swift:93-156 | in a burst that ends in a terminal, every value but the last is dropped; the last is flushed at a completion or discarded by an error, and the subscription ends at the terminal |
| Throttle.ThrottleAllPassTest | RxTests/RxSwiftTests/Tests/Observable+TimeTest.swift:27-58 | the AllPass trace and subscription |
| Throttle.ThrottleAllPassErrorEndTest | RxTests/RxSwiftTests/Tests/Observable+TimeTest.swift:60-91 | the AllPass_ErrorEnd trace and subscription |
| Throttle.ThrottleAllDropTest | RxTests/RxSwiftTests/Tests/Observable+TimeTest.swift:93-124 | the AllDrop trace: only the last value, flushed at the completion |
| Throttle.ThrottleAllDropErrorEndTest | RxTests/RxSwiftTests/Tests/Observable+TimeTest.swift:126-156 | the AllDrop_ErrorEnd trace: the error alone |
| Throttle.ThrottleEmptyTest | RxTests/RxSwiftTests/Tests/Observable+TimeTest.swift:158-181 | an empty source only completes |
| Throttle.ThrottleErrorTest | RxTests/RxSwiftTests/Tests/Observable+TimeTest.swift:183-206 | an erroring source only errors |
| Throttle.ThrottleNeverTest | RxTests/RxSwiftTests/Tests/Observable+TimeTest.swift:208-229 | a silent source records nothing and stays subscribed until 1000 |
| Throttle.ThrottleSimpleTest | RxTests/RxSwiftTests/Tests/Observable+TimeTest.swift:231-261 | the Simple trace, mixing emitted, dropped and flushed values |
| Throttle.RunThrottle | RxTests/RxSwiftTests/Tests/Observable+TimeTest.swift:27-261 | running the scheduler over the hot source, the throttle sink, its timer and the harness records exactly the state machine's trace and subscription |
| Sample.SampleFrom | RxTests/RxSwiftTests/Tests/Observable+TimeTest.swift:267-697 | the sampled output has at most one terminal, which is last, and the sampler subscription ends at it or else at the disposal |
| Sample.Sampled | RxTests/RxSwiftTests/Tests/Observable+TimeTest.swift:288-305 | what `scheduler.start` records for sample or sampleLatest: the state machine run over both streams' messages after 200; the sampler is subscribed once, from 200 until the output's terminal or else until the disposal, and the source once, from 200 |
| Sample.Sample | RxTests/RxSwiftTests/Tests/Observable+TimeTest.swift:288-305 | what `scheduler.start` records for `xs >- sample(ys)`: the sampler's one subscription runs from 200 to the output's terminal or else the disposal, and the source's one subscription starts at 200 |
| Sample.SampleLatest | RxTests/RxSwiftTests/Tests/Observable+TimeTest.swift:501-519 | what `scheduler.start` records for `xs >- sampleLatest(ys)`: the sampler's one subscription runs from 200 to the output's terminal or else the disposal, and the source's one subscription starts at 200 |
| Sample.SampleWellFormed | RxTests/RxSwiftTests/Tests/Observable+TimeTest.swift:267-697 | for time-ordered inputs, the output is time-ordered, terminates at most once and lies in (200, bound]; both subscriptions start at 200, and the source's ends no later than the sampler's, which ends at the output's terminal or at the bound |
| Sample.SampleEmitsLatest | RxTests/RxSwiftTests/Tests/Observable+TimeTest.swift:308-653 | every emitted value is the source's most recent value at the time it is emitted |
| Sample.SampleEmitsAtTicks | RxTests/RxSwiftTests/Tests/Observable+TimeTest.swift:308-653 | every emitted value lies at a sampler message's time |
| Sample.SampleNeverRepeats | RxTests/RxSwiftTests/Tests/Observable+TimeTest.swift:308-478 | sample's values are a subsequence of the source's visible values, so no source value is emitted twice |
| Sample.SampleMatchesReference | RxTests/RxSwiftTests/Tests/Observable+TimeTest.swift:267-697 | for time-ordered streams, sample and sampleLatest record exactly a tick-by-tick reference over the whole source. At each sampler message before the disposal: a source error by then is forwarded; otherwise a sampler error is forwarded; otherwise the source's latest value is emitted if it has one (for sample, only if it arrived after the previous tick), and a sampler completion or a source completion by then completes the output. After the last tick, only a source error before the disposal is forwarded. The sampler's subscription ends at the output's terminal or at the disposal; the source's ends at its own terminal if that comes no later, else with the sampler's |
| Sample.SampleThinsLatest | RxTests/RxSwiftTests/Tests/Observable+TimeTest.swift:267-697 | sample's output is a subsequence of sampleLatest's on the same inputs, and their subscriptions are the same |
| Sample.SampleLatestEveryTick | RxTests/RxSwiftTests/Tests/Observable+TimeTest.swift:522-653 | once the source has a value, sampleLatest emits the latest value at every sampler tick before the run ends, repeats included |
| Sample.SampleSourceError | RxTests/RxSwiftTests/Tests/Observable+TimeTest.swift:437-478 | a source error ends the output with that error at its own time, and both subscriptions end then |
| Sample.SampleSamplerError | RxTests/RxSwiftTests/Tests/Observable+TimeTest.swift:267-306 | a sampler error ends the output with that error at its own time, and both subscriptions end then |
| Sample.SampleSamplerThrowsTest | RxTests/RxSwiftTests/Tests/Observable+TimeTest.swift:267-306 | the sample SamplerThrows trace and both subscriptions |
| Sample.SampleSimple1Test | RxTests/RxSwiftTests/Tests/Observable+TimeTest.swift:308-349 | the sample Simple1 trace and both subscriptions |
| Sample.SampleSimple2Test | RxTests/RxSwiftTests/Tests/Observable+TimeTest.swift:351-394 | the sample Simple2 trace: the sampler's completion flushes the fresh value |
| Sample.SampleSimple3Test | RxTests/RxSwiftTests/Tests/Observable+TimeTest.swift:396-435 | the sample Simple3 trace: the tick after the source completed emits the value, then completes |
| Sample.SampleSourceThrowsTest | RxTests/RxSwiftTests/Tests/Observable+TimeTest.swift:437-478 | the sample SourceThrows trace; a value at the same instant as a tick is seen by that tick |
| Sample.SampleLatestSamplerThrowsTest | RxTests/RxSwiftTests/Tests/Observable+TimeTest.swift:480-520 | the sampleLatest SamplerThrows trace and both subscriptions |
| Sample.SampleLatestSimple1Test | RxTests/RxSwiftTests/Tests/Observable+TimeTest.swift:522-565 | the sampleLatest Simple1 trace, repeats included |
| Sample.SampleLatestSimple2Test | RxTests/RxSwiftTests/Tests/Observable+TimeTest.swift:567-611 | the sampleLatest Simple2 trace and both subscriptions |
| Sample.SampleLatestSimple3Test | RxTests/RxSwiftTests/Tests/Observable+TimeTest.swift:613-653 | the sampleLatest Simple3 trace and both subscriptions |
| Sample.SampleLatestSourceThrowsTest | RxTests/RxSwiftTests/Tests/Observable+TimeTest.swift:655-697 | the sampleLatest SourceThrows trace and both subscriptions |
| Sample.RunSample | RxTests/RxSwiftTests/Tests/Observable+TimeTest.swift:267-697 | running the scheduler over both hot streams, the sample sink and the harness records exactly the state machine's trace and both subscriptions |
| Interval.Step | RxTests/RxSwiftTests/Tests/Observable+TimeTest.swift:724-744 | the period actually used is at least one tick, and it is the given period when that is positive |
| Interval.IntervalFrom | RxTests/RxSwiftTests/Tests/Observable+TimeTest.swift:704-744 | no tick is recorded exactly when the next one is due at or after the disposal |
| Interval.Interval | RxTests/RxSwiftTests/Tests/Observable+TimeTest.swift:707-721 | what `scheduler.start` records for `interval(period)`: the ticks from the first one, due one effective period after 200; the run is empty exactly when that first tick is not before the disposal |
| Interval.IntervalTicks | RxTests/RxSwiftTests/Tests/Observable+TimeTest.swift:704-744 | the n-th message is Next(n) at 200 + p·(n+1), where p is the effective period; every message lies before the bound and the tick after the last one is due at or after it, so the run is exactly the ticks before the bound |
| Interval.IntervalDisposedFirst | RxTests/RxSwiftTests/Tests/Observable+TimeTest.swift:777-790 | a first tick due at or after the disposal leaves the run empty |
| Interval.IntervalWellFormed | RxTests/RxSwiftTests/Tests/Observable+TimeTest.swift:704-744 | the interval's trace is time-ordered and never terminates |
| Interval.IntervalBasicTest | RxTests/RxSwiftTests/Tests/Observable+TimeTest.swift:704-722 | interval(100) ticks 0..6 at 300..900 |
| Interval.IntervalZeroTest | RxTests/RxSwiftTests/Tests/Observable+TimeTest.swift:724-744 | interval(0) with start(210) ticks 0..8 at 201..209 |
| Interval.IntervalDisposedTest | RxTests/RxSwiftTests/Tests/Observable+TimeTest.swift:777-790 | interval(1000) records nothing before the disposal at 1000 |
| Interval.RunInterval | RxTests/RxSwiftTests/Tests/Observable+TimeTest.swift:704-744 | running the scheduler with the interval sink's self-rescheduling timer records exactly the interval trace |
| Take.TakeFrom | RxTests/RxSwiftTests/Tests/Observable+TimeTest.swift:797-965 | the source subscription ends at the output's terminal, or else at the disposal |
| Take.Take | RxTests/RxSwiftTests/Tests/Observable+TimeTest.swift:806-816 | what `scheduler.start` records for `xs >- take(duration)`: the race over the source's messages after 200 with the deadline timer, with the source subscribed once, from 200 until the output's terminal or else until the disposal |
| Take.TakeMatchesReference | RxTests/RxSwiftTests/Tests/Observable+TimeTest.swift:797-965 | take is the race outcome: the source's messages up to the earlier of deadline and disposal; then its own terminal, or a completion at the deadline if that comes before the disposal; the subscription ends at the winner |
| Take.TakeKeepsEarly | RxTests/RxSwiftTests/Tests/Observable+TimeTest.swift:819-866 | every source message up to the earlier of deadline and disposal, before its first terminal, is forwarded unchanged at the same position |
| Take.TakeWellFormed | RxTests/RxSwiftTests/Tests/Observable+TimeTest.swift:797-965 | the output is time-ordered, terminates at most once, and lies between 200 and the earlier of deadline and disposal |
| Take.TakeZeroTest | RxTests/RxSwiftTests/Tests/Observable+TimeTest.swift:797-817 | take(0) completes at 201, subscription (200, 201) |
| Take.TakeSomeTest | RxTests/RxSwiftTests/Tests/Observable+TimeTest.swift:819-842 | take(25) forwards two values and completes at 225 |
| Take.TakeLateTest | RxTests/RxSwiftTests/Tests/Observable+TimeTest.swift:844-866 | take(50) on a source completing at 230 passes the completion through |
| Take.TakeErrorTest | RxTests/RxSwiftTests/Tests/Observable+TimeTest.swift:868-887 | a source error before the deadline is forwarded and ends the subscription |
| Take.TakeNeverTest | RxTests/RxSwiftTests/Tests/Observable+TimeTest.swift:889-907 | a silent source completes at the deadline 250 |
| Take.TakeTwiceTest | RxTests/RxSwiftTests/Tests/Observable+TimeTest.swift:909-965 | take(35) forwards three values and completes at 235 (the TakeTwice1 and TakeDefault scenarios) |
| Take.RunTake | RxTests/RxSwiftTests/Tests/Observable+TimeTest.swift:797-965 | running the scheduler over the hot source, the deadline timer and the harness records exactly take's trace and subscription |
| DelaySubscription.ColdFrom | RxTests/RxSwiftTests/Tests/Observable+TimeTest.swift:973-1042 | the cold source's subscription ends at the output's terminal, or else at the disposal |
| DelaySubscription.DelaySubscription | RxTests/RxSwiftTests/Tests/Observable+TimeTest.swift:1030-1041 | what `scheduler.start` records for `xs >- delaySubscription(duration)`: no subscription and no messages exactly when the delay timer (200 + D for a positive D) is not due before the disposal; otherwise one subscription from the timer's instant until the output's terminal or else until the disposal |
| DelaySubscription.DelaySubscriptionShift | RxTests/RxSwiftTests/Tests/Observable+TimeTest.swift:973-1042 | delaying by D and disposing D later gives the undelayed run with every message and the subscription interval moved by D |
| DelaySubscription.ColdFromWindow | RxTests/RxSwiftTests/Tests/Observable+TimeTest.swift:973-1042 | for a cold source whose relative times are all at least 1, subscribed at `start`, the output is exactly the source's messages up to its terminal that are due before the disposal, each moved by `start` |
| DelaySubscription.DelaySubscriptionTimes | RxTests/RxSwiftTests/Tests/Observable+TimeTest.swift:973-1042 | the source is subscribed when the timer fires (200 + D for a positive D) exactly when that is before the disposal; the output is then exactly the source's messages up to its terminal and before the disposal, moved by that instant, and otherwise empty; the subscription ends at the terminal or at the disposal |
| DelaySubscription.DelaySubscriptionSimpleTest | RxTests/RxSwiftTests/Tests/Observable+TimeTest.swift:973-995 | the Simple trace shifted by 230, subscription (230, 300) |
| DelaySubscription.DelaySubscriptionErrorTest | RxTests/RxSwiftTests/Tests/Observable+TimeTest.swift:997-1019 | the Error trace shifted by 230, subscription (230, 300) |
| DelaySubscription.DelaySubscriptionDisposeTest | RxTests/RxSwiftTests/Tests/Observable+TimeTest.swift:1021-1042 | the disposal at 291 cuts the trace before the error and ends the subscription at 291 |
| DelaySubscription.RunDelaySubscription | RxTests/RxSwiftTests/Tests/Observable+TimeTest.swift:973-1042 | running the scheduler with the delay timer, the cold source it subscribes and the harness records exactly delaySubscription's trace and subscription |

## Left out

- `testInterval_TimeSpan_Zero_DefaultScheduler` (Observable+TimeTest.swift:746-775) runs on a real dispatch queue with a spin lock. It is concurrency and operating-system scheduling, not virtual time.
- `interval(0)` at :724-744 runs on `PeriodicTestScheduler`. It is modelled with the same queue semantics as `TestScheduler`, which yields the same trace.
- The XCTest scaffolding (`setUp`/`tearDown` at :13-21, `XCTAssertEqual`) and the `>-` pipe are left out. Each assertion is a lemma instead.
- The error payload is opaque, so an error is a single constant. The sampler's string payloads are ignored.
- Interval's counter is an unbounded natural number. The 64-bit wrap-around of `Int64` is not modelled; the suite stays below 10.
- The scheduler stores action tags, not closures. The drivers dispatch on the tag.
- The disposable graph is not modelled. Disposal shows up only as cancelled queue items and the recorded subscription end.
- The `start` harness creates the operator at 100. That step has no visible effect and is not modelled.
- Each run records one subscription per source. Repeated subscriptions to the same source do not occur in the suite and are not modelled.
- RunThrottle, RunSample, RunTake and RunDelaySubscription require time-ordered recorded messages, as every trace in the suite is. The pure functions accept any input.
- DelaySubscription.ColdFromWindow: stated only for cold messages at relative times of at least 1. A message at relative time 0 runs one tick after the subscription, so it is not moved by exactly the subscription instant.
- DelaySubscription.DelaySubscriptionTimes: stated only for cold messages at relative times of at least 1, for the same reason as ColdFromWindow.
- Sample.SampleLatestEveryTick: stated for time-ordered source and sampler traces only.
- Sample.SampleFrom: a sampler completion while the source is still running flushes the fresh value and completes the output. This is unconfirmed: nothing in the repository fixes that case, and an implementation that emits nothing there, or completes only after the source has ended, would record something different.
