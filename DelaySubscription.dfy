/** delaySubscription(duration): subscribes to the cold source only when a timer started at
    the subscription fires, so the source's whole timeline starts that much later. Disposal
    before the timer fires means the source is never subscribed. */
module DelaySubscription {
  import opened Trace
  import opened VirtualTime

  /** What the observer of a cold source subscribed at `start` records, and when the
      subscription ends, with the disposal at `bound`. Each message runs at its time relative
      to `start`; the disposal runs before a message due at the same time (it was scheduled first). */
  function ColdFrom(xs: seq<Recorded>, start: int, bound: int): (o: Outcome)
    ensures o.end == EndTime(o.messages, bound)
  {
    if xs == [] || Adjusted(start, start + xs[0].time) >= bound then Outcome([], bound)
    else
      var m := Recorded(Adjusted(start, start + xs[0].time), xs[0].note);
      if m.note.Next? then
        var rest := ColdFrom(xs[1..], start, bound);
        Outcome([m] + rest.messages, rest.end)
      else Outcome([m], m.time)
  }

  /** What `scheduler.start(bound) { xs >- delaySubscription(duration, scheduler) }` records for
      a cold source `xs`. */
  function DelaySubscription(xs: seq<Recorded>, duration: int, bound: int): (r: Run)
    ensures FiresAt(duration) >= bound <==> r.subscriptions == []
    ensures r.subscriptions == [] ==> r.messages == []
    ensures r.subscriptions != [] ==> r.subscriptions == [Subscription(FiresAt(duration), EndTime(r.messages, bound))]
  {
    var start := FiresAt(duration);
    if start >= bound then Run([], [])
    else
      var o := ColdFrom(xs, start, bound);
      Run(o.messages, [Subscription(start, o.end)])
  }

  // ---------------------------------------------------------------------------
  // Properties

  /** Every message of `ms` `d` ticks later. */
  function Shift(ms: seq<Recorded>, d: int): (r: seq<Recorded>)
    ensures |r| == |ms|
  {
    if ms == [] then [] else [Recorded(ms[0].time + d, ms[0].note)] + Shift(ms[1..], d)
  }

  /** A cold source's messages all come after its subscription. */
  predicate Positive(xs: seq<Recorded>)
  {
    forall i :: 0 <= i < |xs| ==> xs[i].time >= 1
  }

  /** Subscribing `d` ticks later and disposing `d` ticks later shifts the whole run by `d`. */
  lemma {:induction false} ColdFromShift(xs: seq<Recorded>, start: int, bound: int, d: int)
    ensures ColdFrom(xs, start + d, bound + d).messages == Shift(ColdFrom(xs, start, bound).messages, d)
    ensures ColdFrom(xs, start + d, bound + d).end == ColdFrom(xs, start, bound).end + d
    decreases |xs|
  {
    if xs != [] {
      var t := Adjusted(start, start + xs[0].time);
      assert Adjusted(start + d, start + d + xs[0].time) == t + d;
      if t < bound && xs[0].note.Next? {
        ColdFromShift(xs[1..], start, bound, d);
        var m := Recorded(t, xs[0].note);
        var rest := ColdFrom(xs[1..], start, bound).messages;
        assert Shift([m] + rest, d) == [Recorded(m.time + d, m.note)] + Shift(rest, d) by {
          assert ([m] + rest)[1..] == rest;
        }
      }
    }
  }

  /** The delay shifts the source's timeline: with a delay of `duration` and the disposal moved
      by as much, the run is the undelayed one (subscribed at 200) with every message and the
      subscription interval `duration` ticks later. */
  lemma {:induction false} DelaySubscriptionShift(xs: seq<Recorded>, duration: int, bound: int)
    requires duration >= 1 && Subscribed < bound
    ensures var plain := ColdFrom(xs, Subscribed, bound);
            DelaySubscription(xs, duration, bound + duration)
            == Run(Shift(plain.messages, duration), [Subscription(Subscribed + duration, plain.end + duration)])
  {
    ColdFromShift(xs, Subscribed, bound, duration);
  }

  /** A cold source whose messages all come after its subscription at `start` delivers, before
      the disposal at `bound`, exactly its messages up to its terminal that are due before the
      bound, each moved by `start`. */
  lemma {:induction false} ColdFromWindow(xs: seq<Recorded>, start: int, bound: int)
    requires Positive(xs)
    ensures ColdFrom(xs, start, bound).messages == Shift(Window(xs, bound - start - 1), start)
    decreases |xs|
  {
    if xs != [] && start + xs[0].time < bound {
      var w := Window(xs, bound - start - 1);
      if xs[0].note.Next? {
        assert Positive(xs[1..]) by {
          assert forall i :: 0 <= i < |xs| - 1 ==> xs[1..][i] == xs[i + 1];
        }
        ColdFromWindow(xs[1..], start, bound);
        assert w[1..] == Window(xs[1..], bound - start - 1);
      } else {
        assert w == [xs[0]];
      }
    }
  }

  /** The source is subscribed when the delay timer fires (200 + duration for a positive
      duration) unless the disposal comes first. Its messages are then received with their times
      moved by that instant, exactly those up to its terminal that are due before the disposal,
      and the subscription ends at the terminal or at the disposal. */
  lemma DelaySubscriptionTimes(xs: seq<Recorded>, duration: int, bound: int)
    requires Positive(xs)
    ensures var r := DelaySubscription(xs, duration, bound);
            var start := FiresAt(duration);
            && (start >= bound <==> r.subscriptions == [])
            && (start >= bound ==> r.messages == [])
            && (start < bound ==>
                  && r.messages == Shift(Window(xs, bound - start - 1), start)
                  && r.subscriptions == [Subscription(start, EndTime(r.messages, bound))])
  {
    ColdFromWindow(xs, FiresAt(duration), bound);
  }

  // ---------------------------------------------------------------------------
  // The scenarios of the test suite

  lemma DelaySubscriptionSimpleTest()
    ensures DelaySubscription([OnNext(50, 42), OnNext(60, 43), OnCompleted(70)], 30, Disposed)
         == Run([OnNext(280, 42), OnNext(290, 43), OnCompleted(300)], [Subscription(230, 300)])
  {
  }

  lemma DelaySubscriptionErrorTest()
    ensures DelaySubscription([OnNext(50, 42), OnNext(60, 43), OnError(70)], 30, Disposed)
         == Run([OnNext(280, 42), OnNext(290, 43), OnError(300)], [Subscription(230, 300)])
  {
  }

  lemma DelaySubscriptionDisposeTest()
    ensures DelaySubscription([OnNext(50, 42), OnNext(60, 43), OnError(70)], 30, 291)
         == Run([OnNext(280, 42), OnNext(290, 43)], [Subscription(230, 291)])
  {
  }

  // ---------------------------------------------------------------------------
  // The run on the test scheduler

  /** The sink's state during a run: whether the harness has subscribed and whether its disposal
      is still pending, whether the delay timer is pending, whether the cold source has been
      subscribed and how many of its messages have run, whether the sink has stopped, the
      recorded messages and where the source's subscription ended. */
  datatype DelayState = DelayState(subscribed: bool, disposePending: bool, timerPending: bool,
                                   sourceSubscribed: bool, next: nat, stopped: bool,
                                   messages: seq<Recorded>, subscriptionEnd: int)

  /** What a run has still pending: the subscription (sequence number 0), the disposal (1),
      the delay timer (2), and the cold source's messages (3 onwards) once it is subscribed. */
  ghost function Queue(xs: seq<Recorded>, start: int, bound: int, st: DelayState): set<Item>
  {
    (if st.subscribed then {} else {Item(Subscribed, 0, Subscribe)})
    + (if st.disposePending then {Item(bound, 1, Dispose)} else {})
    + (if st.timerPending then {Item(start, 2, DelayedSubscribe)} else {})
    + (if st.sourceSubscribed then ColdItems(start, 3, xs, st.next) else {})
  }

  /** The phases of a run: before the subscription, waiting for the delay, and afterwards. */
  function Phase(st: DelayState): nat
  {
    if !st.subscribed then 2 else if st.timerPending then 1 else 0
  }

  /** The state agrees with the run: the messages recorded so far, followed by what the cold
      source still delivers, are what the run records. */
  ghost predicate Consistent(xs: seq<Recorded>, start: int, bound: int, st: DelayState, nextId: nat)
  {
    && Ordered(xs) && Subscribed <= bound && Subscribed < start && st.next <= |xs|
    && nextId == (if st.subscribed then 3 else 2) + (if st.sourceSubscribed then |xs| else 0)
    && (!st.subscribed ==> st.disposePending && !st.timerPending && !st.sourceSubscribed && !st.stopped)
    && (st.timerPending ==> st.subscribed && st.disposePending && !st.sourceSubscribed && !st.stopped)
    && (!st.sourceSubscribed ==> st.messages == [] && st.next == 0)
    && (st.subscribed && !st.timerPending && !st.sourceSubscribed ==> !st.disposePending && start >= bound)
    && (st.sourceSubscribed ==> start < bound)
    && (st.sourceSubscribed && !st.stopped ==>
          st.disposePending
          && var rest := ColdFrom(xs[st.next..], start, bound);
             Outcome(st.messages + rest.messages, rest.end) == ColdFrom(xs, start, bound))
    && (!st.disposePending ==> st.stopped)
    && (st.sourceSubscribed && st.stopped ==> Outcome(st.messages, st.subscriptionEnd) == ColdFrom(xs, start, bound))
  }

  /** The run's most urgent pending action is `item`. */
  lemma ColdRunsFirst(xs: seq<Recorded>, start: int, bound: int, st: DelayState, item: Item)
    requires Ordered(xs) && st.next <= |xs| && RunsFirst(Queue(xs, start, bound, st), item) && item.action.ColdNote?
    ensures st.sourceSubscribed && st.next < |xs| && item == ColdItem(start, 3, xs, st.next)
    ensures st.disposePending ==> item.due < bound
    ensures Queue(xs, start, bound, st) - {item} == Queue(xs, start, bound, st.(next := st.next + 1))
  {
    var q := Queue(xs, start, bound, st);
    assert item in ColdItems(start, 3, xs, st.next);
    ColdItemsSplit(start, 3, xs, st.next);
    var c := ColdItem(start, 3, xs, st.next);
    assert c in q;
    ColdFirst(start, 3, xs, st.next, item);
    if st.disposePending {
      assert Item(bound, 1, Dispose) in q;
    }
    assert c !in ColdItems(start, 3, xs, st.next + 1);
  }

  lemma DisposeRunsFirst(xs: seq<Recorded>, start: int, bound: int, st: DelayState, item: Item)
    requires st.next <= |xs| && Subscribed <= bound && RunsFirst(Queue(xs, start, bound, st), item) && item.action.Dispose?
    ensures st.disposePending && item == Item(bound, 1, Dispose) && st.subscribed
    ensures st.timerPending ==> start >= bound
    ensures st.sourceSubscribed && st.next < |xs| ==> ColdItem(start, 3, xs, st.next).due >= bound
    ensures Queue(xs, start, bound, st) - {item} == Queue(xs, start, bound, st.(disposePending := false))
  {
    var q := Queue(xs, start, bound, st);
    if st.timerPending {
      assert Item(start, 2, DelayedSubscribe) in q;
    }
    if st.sourceSubscribed && st.next < |xs| {
      assert ColdItem(start, 3, xs, st.next) in q;
    }
  }

  lemma TimerRunsFirst(xs: seq<Recorded>, start: int, bound: int, st: DelayState, item: Item)
    requires RunsFirst(Queue(xs, start, bound, st), item) && item.action.DelayedSubscribe?
    ensures st.timerPending && item == Item(start, 2, DelayedSubscribe)
    ensures st.disposePending ==> start < bound
    ensures Queue(xs, start, bound, st) - {item} == Queue(xs, start, bound, st.(timerPending := false))
  {
    if st.disposePending {
      assert Item(bound, 1, Dispose) in Queue(xs, start, bound, st);
    }
  }

  /** Runs `item`, the action that runs first. */
  method DelayStep(s: TestScheduler, xs: seq<Recorded>, duration: int, bound: int, st: DelayState)
    returns (st': DelayState)
    requires s.Valid() && Consistent(xs, FiresAt(duration), bound, st, s.nextId)
    requires s.Pending() == Queue(xs, FiresAt(duration), bound, st) && |s.queue| > 0
    modifies s
    ensures s.Valid() && Consistent(xs, FiresAt(duration), bound, st', s.nextId)
    ensures s.Pending() == Queue(xs, FiresAt(duration), bound, st')
    ensures Phase(st') < Phase(st) || (Phase(st') == Phase(st) && |s.queue| < old(|s.queue|))
  {
    var start := FiresAt(duration);
    ghost var q := Queue(xs, start, bound, st);
    var item := s.Dequeue();
    assert RunsFirst(q, item) && s.Pending() == q - {item};
    if item.action.Subscribe? {
      st' := OnSubscribe(s, xs, duration, bound, st);
    } else if item.action.DelayedSubscribe? {
      TimerRunsFirst(xs, start, bound, st, item);
      st' := OnTimer(s, xs, start, bound, st);
    } else if item.action.Dispose? {
      DisposeRunsFirst(xs, start, bound, st, item);
      st' := OnDispose(s, xs, start, bound, st);
    } else {
      assert item.action.ColdNote?;
      ColdRunsFirst(xs, start, bound, st, item);
      st' := OnCold(xs, start, bound, st, s.clock);
    }
  }

  /** The harness subscribes: the sink starts the delay timer. */
  method OnSubscribe(s: TestScheduler, xs: seq<Recorded>, duration: int, bound: int, st: DelayState)
    returns (st': DelayState)
    requires s.Valid() && Consistent(xs, FiresAt(duration), bound, st, s.nextId) && s.clock == Subscribed
    requires !st.subscribed && s.Pending() == Queue(xs, FiresAt(duration), bound, st) - {Item(Subscribed, 0, Subscribe)}
    modifies s
    ensures s.Valid() && Consistent(xs, FiresAt(duration), bound, st', s.nextId)
    ensures s.Pending() == Queue(xs, FiresAt(duration), bound, st') && Phase(st') < Phase(st)
  {
    var id := s.ScheduleRelative(duration, DelayedSubscribe);
    st' := st.(subscribed := true, timerPending := true);
  }

  /** The delay timer fires: the sink subscribes to the cold source, which queues its messages. */
  method OnTimer(s: TestScheduler, xs: seq<Recorded>, start: int, bound: int, st: DelayState)
    returns (st': DelayState)
    requires s.Valid() && Consistent(xs, start, bound, st, s.nextId) && s.clock == start
    requires st.timerPending && (st.disposePending ==> start < bound)
    requires s.Pending() == Queue(xs, start, bound, st.(timerPending := false))
    modifies s
    ensures s.Valid() && Consistent(xs, start, bound, st', s.nextId)
    ensures s.Pending() == Queue(xs, start, bound, st') && Phase(st') < Phase(st)
  {
    s.SubscribeColdObservable(xs);
    st' := st.(timerPending := false, sourceSubscribed := true);
    assert [] + ColdFrom(xs, start, bound).messages == ColdFrom(xs, start, bound).messages;
  }

  /** The harness disposes: a pending delay timer is cancelled, so the source is never subscribed;
      a running sink releases the source. */
  method OnDispose(s: TestScheduler, xs: seq<Recorded>, start: int, bound: int, st: DelayState)
    returns (st': DelayState)
    requires s.Valid() && Consistent(xs, start, bound, st, s.nextId)
    requires st.disposePending && st.subscribed && (st.timerPending ==> start >= bound)
    requires st.sourceSubscribed && st.next < |xs| ==> ColdItem(start, 3, xs, st.next).due >= bound
    requires s.Pending() == Queue(xs, start, bound, st.(disposePending := false))
    modifies s
    ensures s.Valid() && Consistent(xs, start, bound, st', s.nextId)
    ensures s.Pending() == Queue(xs, start, bound, st') && Phase(st') <= Phase(st) && |s.queue| <= old(|s.queue|)
  {
    if st.timerPending {
      s.Cancel(2);
      st' := st.(disposePending := false, timerPending := false, stopped := true);
    } else if st.sourceSubscribed && !st.stopped {
      assert st.next < |xs| ==> xs[st.next..][0] == xs[st.next];
      assert st.messages + [] == st.messages;
      st' := st.(disposePending := false, stopped := true, subscriptionEnd := bound);
    } else {
      st' := st.(disposePending := false);
    }
  }

  /** The cold source delivers its next message; a running sink forwards it, and a terminal
      stops the sink and ends the source's subscription. */
  method OnCold(xs: seq<Recorded>, start: int, bound: int, st: DelayState, t: int) returns (st': DelayState)
    requires Consistent(xs, start, bound, st, 3 + |xs|) && st.sourceSubscribed && st.next < |xs|
    requires t == Adjusted(start, start + xs[st.next].time) && (st.disposePending ==> t < bound)
    ensures Consistent(xs, start, bound, st', 3 + |xs|) && st' == st.(next := st.next + 1, stopped := st'.stopped,
                                                         messages := st'.messages, subscriptionEnd := st'.subscriptionEnd)
  {
    if st.stopped {
      st' := st.(next := st.next + 1);
    } else {
      var m := Recorded(t, xs[st.next].note);
      assert xs[st.next..][0] == xs[st.next] && xs[st.next..][1..] == xs[st.next + 1..];
      if m.note.Next? {
        st' := st.(next := st.next + 1, messages := st.messages + [m]);
        assert st.messages + ([m] + ColdFrom(xs[st.next + 1..], start, bound).messages)
            == st'.messages + ColdFrom(xs[st.next + 1..], start, bound).messages;
      } else {
        st' := st.(next := st.next + 1, stopped := true, messages := st.messages + [m], subscriptionEnd := t);
      }
    }
  }

  /** The run of `scheduler.start(bound) { xs >- delaySubscription(duration, scheduler) }` for a
      cold source `xs`, on the test scheduler. */
  method RunDelaySubscription(xs: seq<Recorded>, duration: int, bound: int) returns (r: Run)
    requires Ordered(xs) && Subscribed <= bound
    ensures r == DelaySubscription(xs, duration, bound)
  {
    var s := new TestScheduler(0);
    var subscribeId := s.ScheduleAbsolute(Subscribed, Subscribe);
    var disposeId := s.ScheduleAbsolute(bound, Dispose);
    var st := DelayState(false, true, false, false, 0, false, [], bound);
    while |s.queue| > 0
      invariant s.Valid() && Consistent(xs, FiresAt(duration), bound, st, s.nextId)
      invariant s.Pending() == Queue(xs, FiresAt(duration), bound, st)
      decreases Phase(st), |s.queue|
    {
      st := DelayStep(s, xs, duration, bound, st);
    }
    assert Item(bound, 1, Dispose) !in s.Pending();
    if st.sourceSubscribed {
      r := Run(st.messages, [Subscription(FiresAt(duration), st.subscriptionEnd)]);
    } else {
      r := Run([], []);
    }
  }
}
