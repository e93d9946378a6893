/** take(duration): forwards the source until a deadline timer, started at subscription,
    fires and completes the output; a terminal from the source before then wins the race.
    Either way the source's subscription ends at the winning time. */
module Take {
  import opened Trace
  import opened VirtualTime

  function Min(a: int, b: int): int
  {
    if a <= b then a else b
  }

  /** The operator over the source's visible messages `vs`. A source message runs before the
      timer and before the disposal at the same time (it was scheduled first), and the disposal
      runs before the timer. */
  function TakeFrom(vs: seq<Recorded>, deadline: int, bound: int): (o: Outcome)
    ensures o.end == EndTime(o.messages, bound)
  {
    if vs != [] && vs[0].time <= deadline && vs[0].time <= bound then
      if vs[0].note.Next? then
        var rest := TakeFrom(vs[1..], deadline, bound);
        Outcome([vs[0]] + rest.messages, rest.end)
      else
        Outcome([vs[0]], vs[0].time)
    else if deadline < bound then
      Outcome([OnCompleted(deadline)], deadline)
    else
      Outcome([], bound)
  }

  /** What `scheduler.start { xs >- take(duration, scheduler) }` records, disposing at `bound`. */
  function Take(xs: seq<Recorded>, duration: int, bound: int): (r: Run)
    ensures r.subscriptions == [Subscription(Subscribed, EndTime(r.messages, bound))]
  {
    var o := TakeFrom(Visible(xs), FiresAt(duration), bound);
    Run(o.messages, [Subscription(Subscribed, o.end)])
  }

  // ---------------------------------------------------------------------------
  // Reference definition

  /** Race outcome: the source's messages up to the earlier of the deadline and the disposal
      (and up to its terminal); then the source's own terminal if it had one, or else a
      completion at the deadline if the deadline comes before the disposal. */
  function TakeReference(vs: seq<Recorded>, deadline: int, bound: int): Outcome
  {
    var ws := Window(vs, Min(deadline, bound));
    if ws != [] && IsTerminal(ws[|ws| - 1]) then Outcome(ws, ws[|ws| - 1].time)
    else if deadline < bound then Outcome(ws + [OnCompleted(deadline)], deadline)
    else Outcome(ws, bound)
  }

  lemma {:induction false} TakeFromMatches(vs: seq<Recorded>, deadline: int, bound: int)
    ensures TakeFrom(vs, deadline, bound) == TakeReference(vs, deadline, bound)
    decreases |vs|
  {
    if vs != [] && vs[0].time <= deadline && vs[0].time <= bound && vs[0].note.Next? {
      TakeFromMatches(vs[1..], deadline, bound);
      var ws := Window(vs[1..], Min(deadline, bound));
      assert Window(vs, Min(deadline, bound)) == [vs[0]] + ws;
      if ws != [] {
        assert ([vs[0]] + ws)[|ws|] == ws[|ws| - 1];
      }
      assert [vs[0]] + (ws + [OnCompleted(deadline)]) == [vs[0]] + ws + [OnCompleted(deadline)];
    }
  }

  /** The run is the source cut at the race's winner. */
  lemma TakeMatchesReference(xs: seq<Recorded>, duration: int, bound: int)
    ensures var r := TakeReference(Visible(xs), FiresAt(duration), bound);
            Take(xs, duration, bound) == Run(r.messages, [Subscription(Subscribed, r.end)])
  {
    TakeFromMatches(Visible(xs), FiresAt(duration), bound);
  }

  lemma {:induction false} TakeFromKeeps(vs: seq<Recorded>, deadline: int, bound: int, i: nat)
    requires Ordered(vs) && i < |vs| && vs[i].time <= Min(deadline, bound)
    requires forall j :: 0 <= j < i ==> vs[j].note.Next?
    ensures i < |TakeFrom(vs, deadline, bound).messages| && TakeFrom(vs, deadline, bound).messages[i] == vs[i]
  {
    assert vs[0].time <= vs[i].time;
    if i > 0 {
      assert forall j :: 0 <= j < i - 1 ==> vs[1..][j] == vs[j + 1];
      TakeFromKeeps(vs[1..], deadline, bound, i - 1);
    }
  }

  /** Nothing the source sends before the deadline and the disposal is dropped, up to its first
      terminal. */
  lemma TakeKeepsEarly(xs: seq<Recorded>, duration: int, bound: int, i: nat)
    requires Ordered(xs) && i < |Visible(xs)| && Visible(xs)[i].time <= Min(FiresAt(duration), bound)
    requires forall j :: 0 <= j < i ==> Visible(xs)[j].note.Next?
    ensures i < |Take(xs, duration, bound).messages| && Take(xs, duration, bound).messages[i] == Visible(xs)[i]
  {
    VisibleIsLate(xs);
    TakeFromKeeps(Visible(xs), FiresAt(duration), bound, i);
  }

  lemma {:induction false} TakeFromWellFormed(vs: seq<Recorded>, deadline: int, bound: int, low: int)
    requires Ordered(vs) && (forall i :: 0 <= i < |vs| ==> low <= vs[i].time) && low <= deadline && low <= bound
    ensures WellFormed(TakeFrom(vs, deadline, bound).messages)
    ensures Within(TakeFrom(vs, deadline, bound).messages, low, Min(deadline, bound))
    decreases |vs|
  {
    if vs != [] && vs[0].time <= deadline && vs[0].time <= bound && vs[0].note.Next? {
      TakeFromWellFormed(vs[1..], deadline, bound, vs[0].time);
      var rest := TakeFrom(vs[1..], deadline, bound).messages;
      assert TakeFrom(vs, deadline, bound).messages == [vs[0]] + rest;
    }
  }

  /** The run is well formed, ends with a terminal unless the disposal comes first, and lies
      between the subscription and the earlier of the deadline and the disposal. */
  lemma TakeWellFormed(xs: seq<Recorded>, duration: int, bound: int)
    requires Ordered(xs) && Subscribed <= bound
    ensures WellFormed(Take(xs, duration, bound).messages)
    ensures Within(Take(xs, duration, bound).messages, Subscribed, Min(FiresAt(duration), bound))
  {
    VisibleIsLate(xs);
    TakeFromWellFormed(Visible(xs), FiresAt(duration), bound, Subscribed);
  }

  // ---------------------------------------------------------------------------
  // The scenarios of the test suite

  lemma TakeZeroTest()
    ensures Take([OnNext(210, 1), OnNext(220, 2), OnCompleted(230)], 0, Disposed)
         == Run([OnCompleted(201)], [Subscription(200, 201)])
  {
  }

  lemma TakeSomeTest()
    ensures Take([OnNext(210, 1), OnNext(220, 2), OnNext(230, 3), OnCompleted(240)], 25, Disposed)
         == Run([OnNext(210, 1), OnNext(220, 2), OnCompleted(225)], [Subscription(200, 225)])
  {
  }

  lemma TakeLateTest()
    ensures Take([OnNext(210, 1), OnNext(220, 2), OnCompleted(230)], 50, Disposed)
         == Run([OnNext(210, 1), OnNext(220, 2), OnCompleted(230)], [Subscription(200, 230)])
  {
  }

  lemma TakeErrorTest()
    ensures Take([OnNext(0, 0), OnError(210)], 50, Disposed) == Run([OnError(210)], [Subscription(200, 210)])
  {
    assert Visible([OnNext(0, 0), OnError(210)]) == [OnError(210)] by {
      assert [OnNext(0, 0), OnError(210)][1..] == [OnError(210)];
    }
  }

  lemma TakeNeverTest()
    ensures Take([OnNext(0, 0)], 50, Disposed) == Run([OnCompleted(250)], [Subscription(200, 250)])
  {
    assert Visible([OnNext(0, 0)]) == [] by {
      assert [OnNext(0, 0)][1..] == [];
    }
  }

  /** `testTake_TakeTwice1` and `testTake_TakeDefault` run the same scenario. */
  lemma TakeTwiceTest()
    ensures Take([OnNext(210, 1), OnNext(220, 2), OnNext(230, 3), OnNext(240, 4), OnNext(250, 5), OnNext(260, 6),
                  OnCompleted(270)], 35, Disposed)
         == Run([OnNext(210, 1), OnNext(220, 2), OnNext(230, 3), OnCompleted(235)], [Subscription(200, 235)])
  {
  }

  // ---------------------------------------------------------------------------
  // The run on the test scheduler

  /** The take sink's state during a run: how many hot messages have been delivered, whether the
      harness has subscribed and whether its disposal is still pending, whether the sink has
      stopped, the deadline timer's sequence number, the recorded messages and where the
      subscription ended. The deadline timer runs from the subscription until the sink stops. */
  datatype TakeState = TakeState(next: nat, subscribed: bool, disposePending: bool, stopped: bool,
                                 timerId: nat, messages: seq<Recorded>, subscriptionEnd: int)

  function TimerItem(deadline: int, st: TakeState): Option<Item>
  {
    if st.subscribed && !st.stopped then Some(Item(deadline, st.timerId, Tick)) else None
  }

  ghost function Queue(xs: seq<Recorded>, deadline: int, bound: int, st: TakeState): set<Item>
  {
    HotQueue(xs, st.next, bound, st.subscribed, st.disposePending, TimerItem(deadline, st))
  }

  /** The state agrees with `goal`: what is recorded so far, followed by what the operator makes of
      the rest of the source, is `goal`. */
  ghost predicate Consistent(xs: seq<Recorded>, deadline: int, bound: int, goal: Outcome, st: TakeState, nextId: nat)
  {
    && Ordered(xs) && Subscribed <= bound && Subscribed < deadline
    && st.next <= |xs| && nextId >= |xs| + 2
    && (st.subscribed && !st.stopped ==> |xs| + 2 <= st.timerId < nextId)
    && (!st.subscribed ==> !st.stopped && st.disposePending && st.messages == []
                           && forall i :: 0 <= i < st.next ==> xs[i].time <= Subscribed)
    && (st.subscribed && st.next < |xs| ==> xs[st.next].time > Subscribed)
    && (st.subscribed && !st.stopped ==> st.disposePending)
    && (!st.disposePending ==> st.stopped)
    && (st.subscribed && !st.stopped ==>
          var rest := TakeFrom(xs[st.next..], deadline, bound);
          Outcome(st.messages + rest.messages, rest.end) == goal)
    && (st.stopped ==> Outcome(st.messages, st.subscriptionEnd) == goal)
  }

  /** The hot source delivers its next message; a subscribed, running sink forwards it, and a
      terminal stops the sink and cancels the deadline timer. */
  method HotStep(s: TestScheduler, xs: seq<Recorded>, deadline: int, bound: int, ghost goal: Outcome, st: TakeState)
    returns (st': TakeState)
    requires s.Valid() && Consistent(xs, deadline, bound, goal, st, s.nextId)
    requires st.next < |xs| && s.clock == Adjusted(0, xs[st.next].time)
    requires st.subscribed && !st.stopped ==> s.clock <= deadline
    requires st.disposePending ==> s.clock <= bound
    requires !st.subscribed ==> s.clock <= Subscribed
    requires s.Pending() == HotQueue(xs, st.next + 1, bound, st.subscribed, st.disposePending, TimerItem(deadline, st))
    modifies s
    ensures s.Valid() && Consistent(xs, deadline, bound, goal, st', s.nextId)
    ensures s.Pending() == Queue(xs, deadline, bound, st') && st'.next == st.next + 1 && st'.subscribed == st.subscribed
  {
    if st.subscribed && !st.stopped {
      var m := xs[st.next];
      assert xs[st.next..][0] == m && xs[st.next..][1..] == xs[st.next + 1..];
      if m.note.Next? {
        st' := st.(next := st.next + 1, messages := st.messages + [m]);
        assert st.messages + ([m] + TakeFrom(xs[st.next + 1..], deadline, bound).messages)
            == st'.messages + TakeFrom(xs[st.next + 1..], deadline, bound).messages;
      } else {
        HotCancelTimer(xs, st.next + 1, bound, st.subscribed, st.disposePending, TimerItem(deadline, st));
        s.Cancel(st.timerId);
        st' := st.(next := st.next + 1, stopped := true, messages := st.messages + [m], subscriptionEnd := m.time);
      }
    } else {
      st' := st.(next := st.next + 1);
    }
  }

  /** The harness subscribes the sink, which starts the deadline timer. */
  method OnSubscribe(s: TestScheduler, xs: seq<Recorded>, duration: int, bound: int, ghost goal: Outcome, st: TakeState)
    returns (st': TakeState)
    requires s.Valid() && Consistent(xs, FiresAt(duration), bound, goal, st, s.nextId) && s.clock == Subscribed
    requires goal == TakeFrom(Visible(xs), FiresAt(duration), bound)
    requires !st.subscribed && (st.next < |xs| ==> xs[st.next].time > Subscribed)
    requires s.Pending() == HotQueue(xs, st.next, bound, true, st.disposePending, None)
    modifies s
    ensures s.Valid() && Consistent(xs, FiresAt(duration), bound, goal, st', s.nextId)
    ensures s.Pending() == Queue(xs, FiresAt(duration), bound, st') && st'.next == st.next && st'.subscribed
  {
    var id := s.ScheduleRelative(duration, Tick);
    st' := st.(subscribed := true, timerId := id);
    SubscribedConsistent(xs, FiresAt(duration), bound, goal, st, st', id);
  }

  /** Subscribing starts the deadline timer; nothing is recorded yet, so the state machine run
      over the visible part of the source is what is still to come. */
  lemma SubscribedConsistent(xs: seq<Recorded>, deadline: int, bound: int, goal: Outcome, st: TakeState,
                             st': TakeState, id: nat)
    requires Consistent(xs, deadline, bound, goal, st, id)
    requires goal == TakeFrom(Visible(xs), deadline, bound)
    requires !st.subscribed && (st.next < |xs| ==> xs[st.next].time > Subscribed)
    requires st' == st.(subscribed := true, timerId := id)
    ensures Consistent(xs, deadline, bound, goal, st', id + 1)
  {
    VisibleFrom(xs, st.next);
    assert [] + goal.messages == goal.messages;
  }

  /** The deadline timer fires: the output completes and the source is released. */
  method OnTick(s: TestScheduler, xs: seq<Recorded>, deadline: int, bound: int, ghost goal: Outcome, st: TakeState)
    returns (st': TakeState)
    requires s.Valid() && Consistent(xs, deadline, bound, goal, st, s.nextId)
    requires st.subscribed && !st.stopped && s.clock == deadline
    requires st.next < |xs| ==> deadline < Adjusted(0, xs[st.next].time)
    requires st.disposePending ==> deadline < bound
    requires s.Pending() == HotQueue(xs, st.next, bound, st.subscribed, st.disposePending, None)
    ensures Consistent(xs, deadline, bound, goal, st', s.nextId)
    ensures s.Pending() == Queue(xs, deadline, bound, st') && st'.next == st.next && st'.subscribed
  {
    assert st.next < |xs| ==> xs[st.next..][0] == xs[st.next];
    st' := st.(stopped := true, messages := st.messages + [OnCompleted(deadline)], subscriptionEnd := deadline);
  }

  /** The harness disposes: a running sink cancels the deadline timer and releases the source. */
  method OnDispose(s: TestScheduler, xs: seq<Recorded>, deadline: int, bound: int, ghost goal: Outcome, st: TakeState)
    returns (st': TakeState)
    requires s.Valid() && Consistent(xs, deadline, bound, goal, st, s.nextId)
    requires st.subscribed && st.disposePending && s.clock == bound
    requires st.next < |xs| ==> Adjusted(0, xs[st.next].time) > bound
    requires TimerItem(deadline, st).Some? ==> deadline >= bound
    requires s.Pending() == HotQueue(xs, st.next, bound, st.subscribed, false, TimerItem(deadline, st))
    modifies s
    ensures s.Valid() && Consistent(xs, deadline, bound, goal, st', s.nextId)
    ensures s.Pending() == Queue(xs, deadline, bound, st') && st'.next == st.next && |s.queue| <= old(|s.queue|)
    ensures st'.subscribed
  {
    assert st.next < |xs| ==> xs[st.next..][0] == xs[st.next];
    if st.stopped {
      st' := st.(disposePending := false);
    } else {
      HotCancelTimer(xs, st.next, bound, st.subscribed, false, TimerItem(deadline, st));
      s.Cancel(st.timerId);
      st' := st.(disposePending := false, stopped := true, subscriptionEnd := bound);
    }
  }

  /** Runs the earliest pending action of the run. */
  method TakeStep(s: TestScheduler, xs: seq<Recorded>, duration: int, bound: int, ghost goal: Outcome, st: TakeState)
    returns (st': TakeState)
    requires s.Valid() && Consistent(xs, FiresAt(duration), bound, goal, st, s.nextId)
    requires s.Pending() == Queue(xs, FiresAt(duration), bound, st) && |s.queue| > 0
    requires goal == TakeFrom(Visible(xs), FiresAt(duration), bound)
    modifies s
    ensures s.Valid() && Consistent(xs, FiresAt(duration), bound, goal, st', s.nextId)
    ensures s.Pending() == Queue(xs, FiresAt(duration), bound, st')
    ensures st.subscribed ==> st'.subscribed
    ensures st'.next > st.next || (st'.next == st.next && |s.queue| < old(|s.queue|))
         || (st'.next == st.next && !st.subscribed && st'.subscribed)
  {
    var deadline := FiresAt(duration);
    var timer := TimerItem(deadline, st);
    var item := s.Dequeue();
    HotQueueActions(xs, st.next, bound, st.subscribed, st.disposePending, timer, item);
    if item.action.HotNote? {
      HotRunsFirst(xs, st.next, bound, st.subscribed, st.disposePending, timer, item);
      st' := HotStep(s, xs, deadline, bound, goal, st);
    } else if item.action.Subscribe? {
      HotSubscribeRunsFirst(xs, st.next, bound, st.subscribed, st.disposePending, timer, item);
      st' := OnSubscribe(s, xs, duration, bound, goal, st);
    } else if item.action.Dispose? {
      HotDisposeRunsFirst(xs, st.next, bound, st.subscribed, st.disposePending, timer, item);
      st' := OnDispose(s, xs, deadline, bound, goal, st);
    } else {
      HotTickRunsFirst(xs, st.next, bound, st.subscribed, st.disposePending, timer, item);
      st' := OnTick(s, xs, deadline, bound, goal, st);
    }
  }

  /** The run of `scheduler.start { xs >- take(duration, scheduler) }`, disposing at `bound`, on the
      test scheduler. */
  method RunTake(xs: seq<Recorded>, duration: int, bound: int) returns (r: Run)
    requires Ordered(xs) && Subscribed <= bound
    ensures r == Take(xs, duration, bound)
  {
    var s := new TestScheduler(0);
    s.CreateHotObservable(xs, 0);
    var subscribeId := s.ScheduleAbsolute(Subscribed, Subscribe);
    var disposeId := s.ScheduleAbsolute(bound, Dispose);
    ghost var goal := TakeFrom(Visible(xs), FiresAt(duration), bound);
    var st := TakeState(0, false, true, false, 0, [], bound);
    while |s.queue| > 0
      invariant s.Valid() && Consistent(xs, FiresAt(duration), bound, goal, st, s.nextId)
      invariant s.Pending() == Queue(xs, FiresAt(duration), bound, st)
      decreases |xs| - st.next, (if st.subscribed then 0 else 1), |s.queue|
    {
      st := TakeStep(s, xs, duration, bound, goal, st);
    }
    HotQueueDrained(xs, st.next, bound, st.subscribed, st.disposePending, TimerItem(FiresAt(duration), st));
    r := Run(st.messages, [Subscription(Subscribed, st.subscriptionEnd)]);
  }
}
