/** interval(period): a periodic counter. The first tick comes one period after the
    subscription, each later tick one period after the one before, and the n-th tick
    emits n. It never completes on its own; disposal cancels the pending tick. */
module Interval {
  import opened Trace
  import opened VirtualTime

  /** The period the scheduler actually uses: a period that is not positive becomes one
      tick, because work scheduled at or before the current time runs one tick later. */
  function Step(period: int): (p: int)
    ensures p >= 1 && (period >= 1 ==> p == period)
  {
    if period <= 0 then 1 else period
  }

  /** The ticks from the one due at `due`, counting from `count`, until the disposal at
      `bound`. At equal times the disposal runs first, so a tick due at the bound is lost. */
  function IntervalFrom(period: int, bound: int, due: int, count: nat): (ms: seq<Recorded>)
    ensures due >= bound <==> ms == []
    decreases bound - due
  {
    if due >= bound then []
    else [Recorded(due, Next(count))] + IntervalFrom(period, bound, Adjusted(due, due + period), count + 1)
  }

  /** What `scheduler.start(bound) { interval(period, scheduler) }` records. */
  function Interval(period: int, bound: int): (ms: seq<Recorded>)
    ensures ms == [] <==> FiresAt(period) >= bound
  {
    IntervalFrom(period, bound, Adjusted(Subscribed, Subscribed + period), 0)
  }

  /** The ticks are exactly those at 200 + p·(n+1) that come before the bound. */
  predicate TicksFrom(ms: seq<Recorded>, p: int, k: nat, bound: int)
  {
    && (forall i :: 0 <= i < |ms| ==> ms[i] == Recorded(Subscribed + p * (k + i + 1), Next(k + i)))
    && (forall i :: 0 <= i < |ms| ==> ms[i].time < bound)
    && Subscribed + p * (k + |ms| + 1) >= bound
  }

  lemma {:induction false} IntervalFromTicks(period: int, bound: int, k: nat)
    ensures TicksFrom(IntervalFrom(period, bound, Subscribed + Step(period) * (k + 1), k), Step(period), k, bound)
    decreases bound - (Subscribed + Step(period) * (k + 1))
  {
    var p := Step(period);
    var due := Subscribed + p * (k + 1);
    var ms := IntervalFrom(period, bound, due, k);
    if due < bound {
      assert Adjusted(due, due + period) == Subscribed + p * (k + 2);
      IntervalFromTicks(period, bound, k + 1);
      var rest := IntervalFrom(period, bound, Subscribed + p * (k + 2), k + 1);
      assert ms == [Recorded(due, Next(k))] + rest;
      assert k + 1 + |rest| + 1 == k + |ms| + 1;
      forall i | 0 <= i < |ms|
        ensures ms[i] == Recorded(Subscribed + p * (k + i + 1), Next(k + i))
      {
        if i > 0 {
          assert ms[i] == rest[i - 1];
          assert k + 1 + (i - 1) + 1 == k + i + 1;
        }
      }
      forall i | 0 <= i < |ms|
        ensures ms[i].time < bound
      {
        if i > 0 {
          assert ms[i] == rest[i - 1];
        }
      }
    }
  }

  /** The n-th value is n, emitted at 200 + p·(n+1) with p the effective period, and the run
      holds every such tick before the bound and no other message. */
  lemma IntervalTicks(period: int, bound: int)
    ensures TicksFrom(Interval(period, bound), Step(period), 0, bound)
  {
    assert Adjusted(Subscribed, Subscribed + period) == Subscribed + Step(period) * (0 + 1);
    IntervalFromTicks(period, bound, 0);
  }

  /** A first tick due at or after the bound leaves the run empty. */
  lemma IntervalDisposedFirst(period: int, bound: int)
    requires Subscribed + Step(period) >= bound
    ensures Interval(period, bound) == []
  {
    IntervalTicks(period, bound);
  }

  /** The counter never goes back: the run is well formed and never terminates. */
  lemma IntervalWellFormed(period: int, bound: int)
    ensures WellFormed(Interval(period, bound))
    ensures forall i :: 0 <= i < |Interval(period, bound)| ==> Interval(period, bound)[i].note.Next?
  {
    var p := Step(period);
    var ms := Interval(period, bound);
    IntervalTicks(period, bound);
    forall i, j | 0 <= i < j < |ms|
      ensures ms[i].time <= ms[j].time
    {
      assert p * (i + 1) <= p * (j + 1);
    }
  }

  // ---------------------------------------------------------------------------
  // The scenarios of the test suite

  lemma IntervalBasicTest()
    ensures Interval(100, Disposed)
         == [OnNext(300, 0), OnNext(400, 1), OnNext(500, 2), OnNext(600, 3), OnNext(700, 4), OnNext(800, 5), OnNext(900, 6)]
  {
  }

  lemma IntervalZeroTest()
    ensures Interval(0, 210)
         == [OnNext(201, 0), OnNext(202, 1), OnNext(203, 2), OnNext(204, 3), OnNext(205, 4),
             OnNext(206, 5), OnNext(207, 6), OnNext(208, 7), OnNext(209, 8)]
  {
  }

  lemma IntervalDisposedTest()
    ensures Interval(1000, Disposed) == []
  {
  }

  // ---------------------------------------------------------------------------
  // The run on the test scheduler

  /** The interval sink's state during a run: whether the harness has subscribed and whether its
      disposal is still pending, the due time of the pending tick and its sequence number, the
      counter and the recorded messages. */
  datatype IntervalState = IntervalState(subscribed: bool, disposePending: bool, timer: Option<int>,
                                         timerId: nat, count: nat, messages: seq<Recorded>)

  /** What a run has still pending: the subscription (sequence number 0), the disposal (1) and
      the next tick (2 or later). */
  ghost function Queue(bound: int, st: IntervalState): set<Item>
  {
    (if st.subscribed then {} else {Item(Subscribed, 0, Subscribe)})
    + (if st.disposePending then {Item(bound, 1, Dispose)} else {})
    + (if st.timer.Some? then {Item(st.timer.value, st.timerId, Tick)} else {})
  }

  /** The state agrees with `goal`: recorded so far, followed by the ticks from the pending one. */
  ghost predicate Consistent(period: int, bound: int, goal: seq<Recorded>, st: IntervalState, nextId: nat)
  {
    && Subscribed <= bound && nextId >= 2
    && (st.timer.Some? ==> 2 <= st.timerId < nextId && st.subscribed && st.disposePending)
    && (!st.subscribed ==> st.disposePending && st.count == 0 && st.messages == [])
    && (st.subscribed && st.disposePending ==>
          st.timer.Some? && st.messages + IntervalFrom(period, bound, st.timer.value, st.count) == goal)
    && (!st.disposePending ==> st.messages == goal)
  }

  /** Termination measure of a run: subscription, then ticks up to the bound, then disposal. */
  function Remaining(st: IntervalState): int
  {
    (if st.disposePending then 1 else 0) + (if st.subscribed then 0 else 1)
  }

  /** Runs `item`, the action that runs first: the subscription starts the timer, a tick emits
      the counter and restarts the timer, the disposal cancels it. */
  method IntervalStep(s: TestScheduler, period: int, bound: int, ghost goal: seq<Recorded>, st: IntervalState)
    returns (st': IntervalState)
    requires s.Valid() && Consistent(period, bound, goal, st, s.nextId) && s.Pending() == Queue(bound, st)
    requires |s.queue| > 0 && goal == Interval(period, bound)
    modifies s
    ensures s.Valid() && Consistent(period, bound, goal, st', s.nextId) && s.Pending() == Queue(bound, st')
    ensures Remaining(st') < Remaining(st)
         || (Remaining(st') == Remaining(st) && st.timer.Some? && st'.timer.Some?
             && st.timer.value < st'.timer.value && st.timer.value < bound)
  {
    ghost var q := Queue(bound, st);
    var item := s.Dequeue();
    assert item in q;
    if item.action.Subscribe? {
      assert st.timer.None?;
      var id := s.ScheduleRelative(period, Tick);
      st' := st.(subscribed := true, timer := Some(Adjusted(Subscribed, Subscribed + period)), timerId := id);
      assert [] + goal == goal;
    } else if item.action.Dispose? {
      if st.timer.Some? {
        assert Item(st.timer.value, st.timerId, Tick) in q;
        assert IntervalFrom(period, bound, st.timer.value, st.count) == [];
        assert st.messages + [] == st.messages;
        s.Cancel(st.timerId);
      }
      st' := st.(disposePending := false, timer := None);
    } else {
      assert Item(bound, 1, Dispose) in q;
      var t := s.clock;
      var id := s.ScheduleRelative(period, Tick);
      var emitted := [Recorded(t, Next(st.count))];
      var rest := IntervalFrom(period, bound, Adjusted(t, t + period), st.count + 1);
      assert IntervalFrom(period, bound, t, st.count) == emitted + rest;
      AppendAssoc(st.messages, emitted, rest);
      st' := st.(timer := Some(Adjusted(t, t + period)), timerId := id, count := st.count + 1,
                 messages := st.messages + emitted);
    }
  }

  /** The run of `scheduler.start(bound) { interval(period, scheduler) }` on the test scheduler. */
  method RunInterval(period: int, bound: int) returns (ms: seq<Recorded>)
    requires Subscribed <= bound
    ensures ms == Interval(period, bound)
  {
    var s := new TestScheduler(0);
    var subscribeId := s.ScheduleAbsolute(Subscribed, Subscribe);
    var disposeId := s.ScheduleAbsolute(bound, Dispose);
    ghost var goal := Interval(period, bound);
    var st := IntervalState(false, true, None, 0, 0, []);
    while |s.queue| > 0
      invariant s.Valid() && Consistent(period, bound, goal, st, s.nextId) && s.Pending() == Queue(bound, st)
      decreases Remaining(st), bound - (if st.timer.Some? then st.timer.value else Subscribed)
    {
      st := IntervalStep(s, period, bound, goal, st);
    }
    assert Item(bound, 1, Dispose) !in s.Pending();
    ms := st.messages;
  }
}
