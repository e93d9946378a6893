/** throttle(dueTime): trailing-edge debounce. Each source value starts a timer of
    `dueTime`; a newer value cancels it; when the timer fires the pending value is
    emitted. Completion flushes the pending value first, an error discards it. */
module Throttle {
  import opened Trace
  import opened VirtualTime

  /** The pending value and the due time of the timer that will emit it. */
  datatype Timer = Timer(due: int, value: int)

  /** When the timer started by a value at `time` fires. */
  function FireTime(time: int, dueTime: int): int
  {
    Adjusted(time, time + dueTime)
  }

  /** The operator as a state machine over the source's visible messages `vs`, with the
      disposal at `bound`. At equal times a source message runs before the disposal
      (scheduled earlier), and the disposal before a timer (scheduled later still). */
  function ThrottleFrom(vs: seq<Recorded>, dueTime: int, bound: int, pending: Option<Timer>): (o: Outcome)
    ensures TerminalOnce(o.messages)
    ensures o.end == EndTime(o.messages, bound)
    decreases |vs|, pending.Some?
  {
    if pending.Some? && pending.value.due < bound && (vs == [] || pending.value.due < vs[0].time) then
      var rest := ThrottleFrom(vs, dueTime, bound, None);
      Outcome([Recorded(pending.value.due, Next(pending.value.value))] + rest.messages, rest.end)
    else if vs == [] || vs[0].time > bound then
      Outcome([], bound)
    else
      var t := vs[0].time;
      match vs[0].note
      case Next(v) => ThrottleFrom(vs[1..], dueTime, bound, Some(Timer(FireTime(t, dueTime), v)))
      case Error => Outcome([Recorded(t, Error)], t)
      case Completed =>
        var flushed := if pending.Some? then [Recorded(t, Next(pending.value.value))] else [];
        Outcome(flushed + [Recorded(t, Completed)], t)
  }

  /** What `scheduler.start { xs >- throttle(dueTime, scheduler) }` records, disposing at `bound`. */
  function Throttle(xs: seq<Recorded>, dueTime: int, bound: int): (r: Run)
    ensures r.subscriptions == [Subscription(Subscribed, EndTime(r.messages, bound))]
  {
    var o := ThrottleFrom(Visible(xs), dueTime, bound, None);
    Run(o.messages, [Subscription(Subscribed, o.end)])
  }

  // ---------------------------------------------------------------------------
  // Reference definition: what each source message contributes on its own.

  /** The output due to message `i` of the window `ws`: a value is emitted when its timer
      fires before both the next message and the disposal, is flushed by a completion
      arriving no later than its timer, and is dropped otherwise; terminals pass through. */
  function Contribution(ws: seq<Recorded>, dueTime: int, bound: int, i: nat): seq<Recorded>
    requires i < |ws|
  {
    match ws[i].note
    case Next(v) =>
      var f := FireTime(ws[i].time, dueTime);
      if f < bound && (i + 1 == |ws| || f < ws[i + 1].time) then [Recorded(f, Next(v))]
      else if i + 1 < |ws| && ws[i + 1].note.Completed? then [Recorded(ws[i + 1].time, Next(v))]
      else []
    case _ => [ws[i]]
  }

  function Contributions(ws: seq<Recorded>, dueTime: int, bound: int, i: nat): seq<Recorded>
    requires i <= |ws|
    decreases |ws| - i
  {
    if i == |ws| then [] else Contribution(ws, dueTime, bound, i) + Contributions(ws, dueTime, bound, i + 1)
  }

  function ThrottleReference(xs: seq<Recorded>, dueTime: int, bound: int): Run
  {
    var ws := Window(Visible(xs), bound);
    Run(Contributions(ws, dueTime, bound, 0), [Subscription(Subscribed, EndTime(ws, bound))])
  }

  lemma {:induction false} ContributionsShift(e: Recorded, ws: seq<Recorded>, dueTime: int, bound: int, i: nat)
    requires i <= |ws|
    ensures Contributions([e] + ws, dueTime, bound, i + 1) == Contributions(ws, dueTime, bound, i)
    decreases |ws| - i
  {
    if i < |ws| {
      assert ([e] + ws)[i + 1] == ws[i];
      assert i + 2 <= |ws| ==> ([e] + ws)[i + 2] == ws[i + 1];
      ContributionsShift(e, ws, dueTime, bound, i + 1);
    }
  }

  /** The state machine agrees with the reference; `last` is the value message whose timer is pending. */
  lemma {:induction false} ThrottleFromMatches(vs: seq<Recorded>, dueTime: int, bound: int, last: Option<Recorded>)
    requires last.Some? ==> last.value.note.Next? && last.value.time <= bound
    ensures var ws := if last.Some? then [last.value] + Window(vs, bound) else Window(vs, bound);
            var pending := if last.Some? then Some(Timer(FireTime(last.value.time, dueTime), last.value.note.value)) else None;
            ThrottleFrom(vs, dueTime, bound, pending) == Outcome(Contributions(ws, dueTime, bound, 0), EndTime(ws, bound))
    decreases |vs|, if last.Some? then 3 else 0
  {
    if last.Some? {
      ThrottleFromMatchesPending(vs, dueTime, bound, last.value);
    } else {
      if vs != [] && vs[0].time <= bound && vs[0].note.Next? {
        ThrottleFromMatches(vs[1..], dueTime, bound, Some(vs[0]));
      }
    }
  }

  /** The case of `ThrottleFromMatches` with a value `e` waiting for its timer. */
  lemma {:induction false} ThrottleFromMatchesPending(vs: seq<Recorded>, dueTime: int, bound: int, e: Recorded)
    requires e.note.Next? && e.time <= bound
    ensures var ws := [e] + Window(vs, bound);
            ThrottleFrom(vs, dueTime, bound, Some(Timer(FireTime(e.time, dueTime), e.note.value)))
            == Outcome(Contributions(ws, dueTime, bound, 0), EndTime(ws, bound))
    decreases |vs|, 2
  {
    var f := FireTime(e.time, dueTime);
    if f < bound && (vs == [] || f < vs[0].time) {
      ThrottleFromMatchesFires(vs, dueTime, bound, e);
    } else if vs != [] && vs[0].time <= bound {
      ThrottleFromMatchesArrives(vs, dueTime, bound, e);
    } else {
      assert Window(vs, bound) == [];
      assert Contributions([e], dueTime, bound, 0) == Contribution([e], dueTime, bound, 0) + Contributions([e], dueTime, bound, 1);
    }
  }

  /** The case of `ThrottleFromMatchesPending` where the timer fires first. */
  lemma {:induction false} ThrottleFromMatchesFires(vs: seq<Recorded>, dueTime: int, bound: int, e: Recorded)
    requires e.note.Next? && e.time <= bound
    requires FireTime(e.time, dueTime) < bound && (vs == [] || FireTime(e.time, dueTime) < vs[0].time)
    ensures var ws := [e] + Window(vs, bound);
            ThrottleFrom(vs, dueTime, bound, Some(Timer(FireTime(e.time, dueTime), e.note.value)))
            == Outcome(Contributions(ws, dueTime, bound, 0), EndTime(ws, bound))
    decreases |vs|, 1
  {
    var w := Window(vs, bound);
    var ws := [e] + w;
    var f := FireTime(e.time, dueTime);
    var rest := ThrottleFrom(vs, dueTime, bound, None);
    assert ThrottleFrom(vs, dueTime, bound, Some(Timer(f, e.note.value)))
        == Outcome([Recorded(f, Next(e.note.value))] + rest.messages, rest.end);
    assert rest == Outcome(Contributions(w, dueTime, bound, 0), EndTime(w, bound)) by {
      ThrottleFromMatches(vs, dueTime, bound, None);
    }
    assert Contributions(ws, dueTime, bound, 0) == [Recorded(f, Next(e.note.value))] + Contributions(w, dueTime, bound, 0) by {
      ContributionsShift(e, w, dueTime, bound, 0);
      assert w != [] ==> ws[1] == vs[0];
      assert Contribution(ws, dueTime, bound, 0) == [Recorded(f, Next(e.note.value))];
    }
    assert EndTime(ws, bound) == EndTime(w, bound) by {
      if w != [] {
        assert ws[|ws| - 1] == w[|w| - 1];
      }
    }
  }

  /** The case of `ThrottleFromMatchesPending` where the next source message comes before the
      timer fires. */
  lemma {:induction false} ThrottleFromMatchesArrives(vs: seq<Recorded>, dueTime: int, bound: int, e: Recorded)
    requires e.note.Next? && e.time <= bound
    requires vs != [] && vs[0].time <= bound
    requires FireTime(e.time, dueTime) >= bound || FireTime(e.time, dueTime) >= vs[0].time
    ensures var ws := [e] + Window(vs, bound);
            ThrottleFrom(vs, dueTime, bound, Some(Timer(FireTime(e.time, dueTime), e.note.value)))
            == Outcome(Contributions(ws, dueTime, bound, 0), EndTime(ws, bound))
    decreases |vs|, 0
  {
    var w := Window(vs, bound);
    var ws := [e] + w;
    assert Contributions(ws, dueTime, bound, 0) == Contribution(ws, dueTime, bound, 0) + Contributions(w, dueTime, bound, 0) by {
      ContributionsShift(e, w, dueTime, bound, 0);
    }
    assert w[0] == vs[0] && ws[1] == vs[0];
    if vs[0].note.Next? {
      ThrottleFromMatches(vs[1..], dueTime, bound, Some(vs[0]));
      assert w == [vs[0]] + Window(vs[1..], bound);
      assert Contribution(ws, dueTime, bound, 0) == [];
      assert EndTime(ws, bound) == EndTime(w, bound);
    } else {
      assert w == [vs[0]] && |ws| == 2;
      assert Contributions(w, dueTime, bound, 0) == Contribution(w, dueTime, bound, 0) + Contributions(w, dueTime, bound, 1);
      assert Contributions(w, dueTime, bound, 1) == [];
      assert Contribution(w, dueTime, bound, 0) == [vs[0]];
    }
  }

  /** The operator is characterised message by message. */
  lemma ThrottleMatchesReference(xs: seq<Recorded>, dueTime: int, bound: int)
    ensures Throttle(xs, dueTime, bound) == ThrottleReference(xs, dueTime, bound)
  {
    ThrottleFromMatches(Visible(xs), dueTime, bound, None);
  }

  // ---------------------------------------------------------------------------
  // Properties

  lemma {:induction false} ThrottleFromOrdered(vs: seq<Recorded>, dueTime: int, bound: int, pending: Option<Timer>, low: int)
    requires Ordered(vs) && (forall i :: 0 <= i < |vs| ==> low <= vs[i].time)
    requires pending.Some? ==> low <= pending.value.due
    ensures Ordered(ThrottleFrom(vs, dueTime, bound, pending).messages)
    ensures Within(ThrottleFrom(vs, dueTime, bound, pending).messages, low, bound)
    decreases |vs|, pending.Some?
  {
    if pending.Some? && pending.value.due < bound && (vs == [] || pending.value.due < vs[0].time) {
      ThrottleFromOrdered(vs, dueTime, bound, None, pending.value.due);
    } else if vs == [] || vs[0].time > bound {
    } else {
      var t := vs[0].time;
      match vs[0].note
      case Next(v) => ThrottleFromOrdered(vs[1..], dueTime, bound, Some(Timer(FireTime(t, dueTime), v)), t);
      case Error =>
      case Completed =>
    }
  }

  /** For a time-ordered source the output is time-ordered, has at most one terminal, which
      is last, lies after the subscription and not after the disposal, and the source's
      subscription ends at that terminal or at the disposal. */
  lemma ThrottleWellFormed(xs: seq<Recorded>, dueTime: int, bound: int)
    requires Ordered(xs)
    ensures var r := Throttle(xs, dueTime, bound);
            && WellFormed(r.messages) && Within(r.messages, Subscribed + 1, bound)
            && r.subscriptions == [Subscription(Subscribed, EndTime(r.messages, bound))]
  {
    VisibleIsLate(xs);
    ThrottleFromOrdered(Visible(xs), dueTime, bound, None, Subscribed + 1);
  }

  /** Each value moved to the time its timer fires; terminals stay where they are. */
  function Delayed(ws: seq<Recorded>, dueTime: int): seq<Recorded>
  {
    if ws == [] then []
    else if ws[0].note.Next? then [Recorded(FireTime(ws[0].time, dueTime), ws[0].note)] + Delayed(ws[1..], dueTime)
    else [ws[0]] + Delayed(ws[1..], dueTime)
  }

  /** Every value's timer fires before the next message arrives and before the disposal. */
  predicate Spaced(ws: seq<Recorded>, dueTime: int, bound: int)
  {
    forall i :: 0 <= i < |ws| && ws[i].note.Next? ==>
      FireTime(ws[i].time, dueTime) < bound && (i + 1 < |ws| ==> FireTime(ws[i].time, dueTime) < ws[i + 1].time)
  }

  lemma {:induction false} SpacedContributions(ws: seq<Recorded>, dueTime: int, bound: int, i: nat)
    requires i <= |ws| && Spaced(ws, dueTime, bound)
    ensures Contributions(ws, dueTime, bound, i) == Delayed(ws[i..], dueTime)
    decreases |ws| - i
  {
    if i < |ws| {
      SpacedContributions(ws, dueTime, bound, i + 1);
      assert ws[i..][0] == ws[i] && ws[i..][1..] == ws[i + 1..];
    }
  }

  /** Sparse source: when values are further apart than the due time, every value is emitted
      exactly when its timer fires (dueTime after it, for a positive dueTime) and the terminal
      passes through at its own time. */
  lemma ThrottleSparse(xs: seq<Recorded>, dueTime: int, bound: int)
    requires Spaced(Window(Visible(xs), bound), dueTime, bound)
    ensures Throttle(xs, dueTime, bound).messages == Delayed(Window(Visible(xs), bound), dueTime)
    ensures Throttle(xs, dueTime, bound).subscriptions == [Subscription(Subscribed, EndTime(Window(Visible(xs), bound), bound))]
  {
    ThrottleMatchesReference(xs, dueTime, bound);
    var ws := Window(Visible(xs), bound);
    SpacedContributions(ws, dueTime, bound, 0);
    assert ws[0..] == ws;
  }

  lemma {:induction false} BurstContributions(ws: seq<Recorded>, dueTime: int, bound: int, i: nat)
    requires |ws| >= 2 && i <= |ws| - 2 && TerminalOnce(ws)
    requires forall j :: 0 <= j < |ws| - 1 ==> ws[j + 1].time <= FireTime(ws[j].time, dueTime)
    ensures Contributions(ws, dueTime, bound, i) ==
            (if ws[|ws| - 1].note.Completed? then [Recorded(ws[|ws| - 1].time, ws[|ws| - 2].note)] else [])
            + Contributions(ws, dueTime, bound, |ws| - 1)
    decreases |ws| - i
  {
    if i < |ws| - 2 {
      BurstContributions(ws, dueTime, bound, i + 1);
      assert Contribution(ws, dueTime, bound, i) == [];
    }
  }

  /** Bursts: when every message arrives before the previous value's timer fires, all values but
      the last are dropped; the last one is flushed at the completion, or discarded by an error,
      and the terminal passes through. */
  lemma ThrottleBurst(xs: seq<Recorded>, dueTime: int, bound: int)
    requires var ws := Window(Visible(xs), bound);
             && |ws| >= 2 && IsTerminal(ws[|ws| - 1])
             && forall j :: 0 <= j < |ws| - 1 ==> ws[j + 1].time <= FireTime(ws[j].time, dueTime)
    ensures var ws := Window(Visible(xs), bound);
            var last := ws[|ws| - 1];
            Throttle(xs, dueTime, bound) ==
              Run((if last.note.Completed? then [Recorded(last.time, ws[|ws| - 2].note)] else []) + [last],
                  [Subscription(Subscribed, last.time)])
  {
    ThrottleMatchesReference(xs, dueTime, bound);
    var ws := Window(Visible(xs), bound);
    var n := |ws|;
    BurstContributions(ws, dueTime, bound, 0);
    assert Contributions(ws, dueTime, bound, n - 1) == Contribution(ws, dueTime, bound, n - 1) + [];
    assert Contribution(ws, dueTime, bound, n - 1) == [ws[n - 1]];
    var pre := if ws[n - 1].note.Completed? then [Recorded(ws[n - 1].time, ws[n - 2].note)] else [];
    assert Contributions(ws, dueTime, bound, 0) == pre + [ws[n - 1]];
    assert Throttle(xs, dueTime, bound) == Run(pre + [ws[n - 1]], [Subscription(Subscribed, EndTime(ws, bound))]);
    assert EndTime(ws, bound) == ws[n - 1].time;
  }

  // ---------------------------------------------------------------------------
  // The test suite's scenarios

  /** The later steps of the state machine in the scenario below, from its end back. */
  lemma ThrottleAllPassSteps()
    ensures ThrottleFrom([OnNext(270, 3), OnNext(300, 4), OnCompleted(400)], 20, Disposed, None)
        == Outcome([OnNext(290, 3), OnNext(320, 4), OnCompleted(400)], 400)
  {
    assert ThrottleFrom([OnCompleted(400)], 20, Disposed, Some(Timer(320, 4)))
        == Outcome([OnNext(320, 4), OnCompleted(400)], 400);
    assert ThrottleFrom([OnNext(300, 4), OnCompleted(400)], 20, Disposed, None)
        == Outcome([OnNext(320, 4), OnCompleted(400)], 400);
    assert ThrottleFrom([OnNext(300, 4), OnCompleted(400)], 20, Disposed, Some(Timer(290, 3)))
        == Outcome([OnNext(290, 3), OnNext(320, 4), OnCompleted(400)], 400);
  }

  lemma ThrottleAllPassTest()
    ensures Throttle([OnNext(150, 0), OnNext(210, 1), OnNext(240, 2), OnNext(270, 3), OnNext(300, 4), OnCompleted(400)], 20, Disposed)
         == Run([OnNext(230, 1), OnNext(260, 2), OnNext(290, 3), OnNext(320, 4), OnCompleted(400)], [Subscription(200, 400)])
  {
    var xs := [OnNext(150, 0), OnNext(210, 1), OnNext(240, 2), OnNext(270, 3), OnNext(300, 4), OnCompleted(400)];
    var vs := [OnNext(210, 1), OnNext(240, 2), OnNext(270, 3), OnNext(300, 4), OnCompleted(400)];
    assert xs[0].time <= Subscribed && xs[1..] == vs && vs[0].time > Subscribed;
    ThrottleAllPassSteps();
    assert ThrottleFrom([OnNext(240, 2), OnNext(270, 3), OnNext(300, 4), OnCompleted(400)], 20, Disposed, Some(Timer(230, 1)))
        == Outcome([OnNext(230, 1), OnNext(260, 2), OnNext(290, 3), OnNext(320, 4), OnCompleted(400)], 400);
    assert ThrottleFrom(vs, 20, Disposed, None)
        == Outcome([OnNext(230, 1), OnNext(260, 2), OnNext(290, 3), OnNext(320, 4), OnCompleted(400)], 400);
  }

  /** The later steps of the state machine in the scenario below, from its end back. */
  lemma ThrottleAllPassErrorEndSteps()
    ensures ThrottleFrom([OnNext(270, 3), OnNext(300, 4), OnError(400)], 20, Disposed, None)
        == Outcome([OnNext(290, 3), OnNext(320, 4), OnError(400)], 400)
  {
    assert ThrottleFrom([OnError(400)], 20, Disposed, Some(Timer(320, 4)))
        == Outcome([OnNext(320, 4), OnError(400)], 400);
    assert ThrottleFrom([OnNext(300, 4), OnError(400)], 20, Disposed, None)
        == Outcome([OnNext(320, 4), OnError(400)], 400);
    assert ThrottleFrom([OnNext(300, 4), OnError(400)], 20, Disposed, Some(Timer(290, 3)))
        == Outcome([OnNext(290, 3), OnNext(320, 4), OnError(400)], 400);
  }

  lemma ThrottleAllPassErrorEndTest()
    ensures Throttle([OnNext(150, 0), OnNext(210, 1), OnNext(240, 2), OnNext(270, 3), OnNext(300, 4), OnError(400)], 20, Disposed)
         == Run([OnNext(230, 1), OnNext(260, 2), OnNext(290, 3), OnNext(320, 4), OnError(400)], [Subscription(200, 400)])
  {
    var xs := [OnNext(150, 0), OnNext(210, 1), OnNext(240, 2), OnNext(270, 3), OnNext(300, 4), OnError(400)];
    var vs := [OnNext(210, 1), OnNext(240, 2), OnNext(270, 3), OnNext(300, 4), OnError(400)];
    assert xs[0].time <= Subscribed && xs[1..] == vs && vs[0].time > Subscribed;
    ThrottleAllPassErrorEndSteps();
    assert ThrottleFrom([OnNext(240, 2), OnNext(270, 3), OnNext(300, 4), OnError(400)], 20, Disposed, Some(Timer(230, 1)))
        == Outcome([OnNext(230, 1), OnNext(260, 2), OnNext(290, 3), OnNext(320, 4), OnError(400)], 400);
    assert ThrottleFrom(vs, 20, Disposed, None)
        == Outcome([OnNext(230, 1), OnNext(260, 2), OnNext(290, 3), OnNext(320, 4), OnError(400)], 400);
  }

  /** The later steps of the state machine in the scenario below, from its end back. */
  lemma ThrottleAllDropSteps1()
    ensures ThrottleFrom([OnNext(330, 5), OnNext(360, 6), OnNext(390, 7), OnCompleted(400)], 40, Disposed, Some(Timer(340, 4)))
        == Outcome([OnNext(400, 7), OnCompleted(400)], 400)
  {
    assert ThrottleFrom([OnCompleted(400)], 40, Disposed, Some(Timer(430, 7)))
        == Outcome([OnNext(400, 7), OnCompleted(400)], 400);
    assert ThrottleFrom([OnNext(390, 7), OnCompleted(400)], 40, Disposed, Some(Timer(400, 6)))
        == Outcome([OnNext(400, 7), OnCompleted(400)], 400);
    assert ThrottleFrom([OnNext(360, 6), OnNext(390, 7), OnCompleted(400)], 40, Disposed, Some(Timer(370, 5)))
        == Outcome([OnNext(400, 7), OnCompleted(400)], 400);
  }

  /** The later steps of the state machine in the scenario below, from its end back. */
  lemma ThrottleAllDropSteps()
    ensures ThrottleFrom([OnNext(240, 2), OnNext(270, 3), OnNext(300, 4), OnNext(330, 5), OnNext(360, 6), OnNext(390, 7), OnCompleted(400)], 40, Disposed, Some(Timer(250, 1)))
        == Outcome([OnNext(400, 7), OnCompleted(400)], 400)
  {
    ThrottleAllDropSteps1();
    assert ThrottleFrom([OnNext(300, 4), OnNext(330, 5), OnNext(360, 6), OnNext(390, 7), OnCompleted(400)], 40, Disposed, Some(Timer(310, 3)))
        == Outcome([OnNext(400, 7), OnCompleted(400)], 400);
    assert ThrottleFrom([OnNext(270, 3), OnNext(300, 4), OnNext(330, 5), OnNext(360, 6), OnNext(390, 7), OnCompleted(400)], 40, Disposed, Some(Timer(280, 2)))
        == Outcome([OnNext(400, 7), OnCompleted(400)], 400);
  }

  lemma ThrottleAllDropTest()
    ensures Throttle([OnNext(150, 0), OnNext(210, 1), OnNext(240, 2), OnNext(270, 3), OnNext(300, 4), OnNext(330, 5),
                      OnNext(360, 6), OnNext(390, 7), OnCompleted(400)], 40, Disposed)
         == Run([OnNext(400, 7), OnCompleted(400)], [Subscription(200, 400)])
  {
    var xs := [OnNext(150, 0), OnNext(210, 1), OnNext(240, 2), OnNext(270, 3), OnNext(300, 4), OnNext(330, 5),
               OnNext(360, 6), OnNext(390, 7), OnCompleted(400)];
    var vs := [OnNext(210, 1), OnNext(240, 2), OnNext(270, 3), OnNext(300, 4), OnNext(330, 5),
               OnNext(360, 6), OnNext(390, 7), OnCompleted(400)];
    assert xs[0].time <= Subscribed && xs[1..] == vs && vs[0].time > Subscribed;
    ThrottleAllDropSteps();
    assert ThrottleFrom([OnNext(210, 1), OnNext(240, 2), OnNext(270, 3), OnNext(300, 4), OnNext(330, 5), OnNext(360, 6), OnNext(390, 7), OnCompleted(400)], 40, Disposed, None)
        == Outcome([OnNext(400, 7), OnCompleted(400)], 400);
  }

  /** The later steps of the state machine in the scenario below, from its end back. */
  lemma ThrottleAllDropErrorEndSteps1()
    ensures ThrottleFrom([OnNext(330, 5), OnNext(360, 6), OnNext(390, 7), OnError(400)], 40, Disposed, Some(Timer(340, 4)))
        == Outcome([OnError(400)], 400)
  {
    assert ThrottleFrom([OnError(400)], 40, Disposed, Some(Timer(430, 7)))
        == Outcome([OnError(400)], 400);
    assert ThrottleFrom([OnNext(390, 7), OnError(400)], 40, Disposed, Some(Timer(400, 6)))
        == Outcome([OnError(400)], 400);
    assert ThrottleFrom([OnNext(360, 6), OnNext(390, 7), OnError(400)], 40, Disposed, Some(Timer(370, 5)))
        == Outcome([OnError(400)], 400);
  }

  /** The later steps of the state machine in the scenario below, from its end back. */
  lemma ThrottleAllDropErrorEndSteps()
    ensures ThrottleFrom([OnNext(240, 2), OnNext(270, 3), OnNext(300, 4), OnNext(330, 5), OnNext(360, 6), OnNext(390, 7), OnError(400)], 40, Disposed, Some(Timer(250, 1)))
        == Outcome([OnError(400)], 400)
  {
    ThrottleAllDropErrorEndSteps1();
    assert ThrottleFrom([OnNext(300, 4), OnNext(330, 5), OnNext(360, 6), OnNext(390, 7), OnError(400)], 40, Disposed, Some(Timer(310, 3)))
        == Outcome([OnError(400)], 400);
    assert ThrottleFrom([OnNext(270, 3), OnNext(300, 4), OnNext(330, 5), OnNext(360, 6), OnNext(390, 7), OnError(400)], 40, Disposed, Some(Timer(280, 2)))
        == Outcome([OnError(400)], 400);
  }

  lemma ThrottleAllDropErrorEndTest()
    ensures Throttle([OnNext(150, 0), OnNext(210, 1), OnNext(240, 2), OnNext(270, 3), OnNext(300, 4), OnNext(330, 5),
                      OnNext(360, 6), OnNext(390, 7), OnError(400)], 40, Disposed)
         == Run([OnError(400)], [Subscription(200, 400)])
  {
    var xs := [OnNext(150, 0), OnNext(210, 1), OnNext(240, 2), OnNext(270, 3), OnNext(300, 4), OnNext(330, 5),
               OnNext(360, 6), OnNext(390, 7), OnError(400)];
    var vs := [OnNext(210, 1), OnNext(240, 2), OnNext(270, 3), OnNext(300, 4), OnNext(330, 5),
               OnNext(360, 6), OnNext(390, 7), OnError(400)];
    assert xs[0].time <= Subscribed && xs[1..] == vs && vs[0].time > Subscribed;
    ThrottleAllDropErrorEndSteps();
    assert ThrottleFrom([OnNext(210, 1), OnNext(240, 2), OnNext(270, 3), OnNext(300, 4), OnNext(330, 5), OnNext(360, 6), OnNext(390, 7), OnError(400)], 40, Disposed, None)
        == Outcome([OnError(400)], 400);
  }

  lemma ThrottleEmptyTest()
    ensures Throttle([OnNext(150, 0), OnCompleted(300)], 10, Disposed) == Run([OnCompleted(300)], [Subscription(200, 300)])
  {
    assert Visible([OnNext(150, 0), OnCompleted(300)]) == [OnCompleted(300)] by {
      assert [OnNext(150, 0), OnCompleted(300)][1..] == [OnCompleted(300)];
    }
  }

  lemma ThrottleErrorTest()
    ensures Throttle([OnNext(150, 0), OnError(300)], 10, Disposed) == Run([OnError(300)], [Subscription(200, 300)])
  {
    assert Visible([OnNext(150, 0), OnError(300)]) == [OnError(300)] by {
      assert [OnNext(150, 0), OnError(300)][1..] == [OnError(300)];
    }
  }

  lemma ThrottleNeverTest()
    ensures Throttle([OnNext(150, 0)], 10, Disposed) == Run([], [Subscription(200, 1000)])
  {
  }

  lemma ThrottleSimpleTest()
    ensures Throttle([OnNext(150, 0), OnNext(210, 1), OnNext(240, 2), OnNext(250, 3), OnNext(280, 4), OnCompleted(300)], 20, Disposed)
         == Run([OnNext(230, 1), OnNext(270, 3), OnNext(300, 4), OnCompleted(300)], [Subscription(200, 300)])
  {
  }

  // ---------------------------------------------------------------------------
  // The run on the test scheduler

  /** The throttle sink's state during a run, with what the observer and the source have recorded:
      how many hot messages have been delivered, whether the harness has subscribed and whether its
      disposal is still pending, whether the sink has stopped, the pending value with its timer and
      the timer's sequence number, the recorded messages and where the subscription ended. */
  datatype ThrottleState = ThrottleState(
    next: nat, subscribed: bool, disposePending: bool, stopped: bool,
    pending: Option<Timer>, timerId: nat, messages: seq<Recorded>, subscriptionEnd: int)

  /** The scheduler item of the sink's timer, if one is running. */
  function TimerItem(st: ThrottleState): Option<Item>
  {
    if st.pending.Some? then Some(Item(st.pending.value.due, st.timerId, Tick)) else None
  }

  ghost function Queue(xs: seq<Recorded>, bound: int, st: ThrottleState): set<Item>
  {
    HotQueue(xs, st.next, bound, st.subscribed, st.disposePending, TimerItem(st))
  }

  /** The state agrees with the state machine: what is recorded so far, followed by what the state
      machine makes of the rest of the source from the current pending timer, is `goal`. */
  ghost predicate Consistent(xs: seq<Recorded>, dueTime: int, bound: int, goal: Outcome, st: ThrottleState, nextId: nat)
  {
    && Ordered(xs) && Subscribed <= bound
    && st.next <= |xs| && nextId >= |xs| + 2
    && (st.pending.Some? ==> |xs| + 2 <= st.timerId < nextId && st.subscribed && !st.stopped)
    && (!st.subscribed ==> !st.stopped && st.disposePending && st.messages == []
                           && forall i :: 0 <= i < st.next ==> xs[i].time <= Subscribed)
    && (st.subscribed && st.next < |xs| ==> xs[st.next].time > Subscribed)
    && (st.subscribed && !st.stopped ==> st.disposePending)
    && (!st.disposePending ==> st.stopped)
    && (st.subscribed && !st.stopped ==>
          var rest := ThrottleFrom(xs[st.next..], dueTime, bound, st.pending);
          Outcome(st.messages + rest.messages, rest.end) == goal)
    && (st.stopped ==> Outcome(st.messages, st.subscriptionEnd) == goal)
  }

  /** A hot message reaches a subscribed, running sink: a value replaces the pending one and restarts
      the timer; an error discards the pending value; a completion flushes it. */
  method OnHot(s: TestScheduler, xs: seq<Recorded>, dueTime: int, bound: int, ghost goal: Outcome, st: ThrottleState)
    returns (st': ThrottleState)
    requires s.Valid() && Consistent(xs, dueTime, bound, goal, st, s.nextId)
    requires st.next < |xs| && st.subscribed && !st.stopped && s.clock == xs[st.next].time
    requires s.Pending() == HotQueue(xs, st.next + 1, bound, st.subscribed, st.disposePending, TimerItem(st))
    requires ThrottleFrom(xs[st.next..], dueTime, bound, st.pending) ==
             match xs[st.next].note
             case Next(v) => ThrottleFrom(xs[st.next + 1..], dueTime, bound, Some(Timer(FireTime(s.clock, dueTime), v)))
             case _ => Outcome((if st.pending.Some? && xs[st.next].note.Completed? then [Recorded(s.clock, Next(st.pending.value.value))] else [])
                               + [xs[st.next]], s.clock)
    modifies s
    ensures s.Valid() && Consistent(xs, dueTime, bound, goal, st', s.nextId)
    ensures s.Pending() == Queue(xs, bound, st') && st'.next == st.next + 1
  {
    var t := s.clock;
    if st.pending.Some? {
      HotCancelTimer(xs, st.next + 1, bound, st.subscribed, st.disposePending, TimerItem(st));
      s.Cancel(st.timerId);
    }
    match xs[st.next].note
    case Next(v) =>
      var id := s.ScheduleRelative(dueTime, Tick);
      st' := st.(next := st.next + 1, pending := Some(Timer(FireTime(t, dueTime), v)), timerId := id);
    case Error =>
      st' := st.(next := st.next + 1, pending := None, stopped := true,
                 messages := st.messages + [xs[st.next]], subscriptionEnd := t);
    case Completed =>
      var flushed := if st.pending.Some? then [Recorded(t, Next(st.pending.value.value))] else [];
      st' := st.(next := st.next + 1, pending := None, stopped := true,
                 messages := st.messages + flushed + [xs[st.next]], subscriptionEnd := t);
  }

  /** The harness disposes: a running sink cancels its timer and releases the source. */
  method OnDispose(s: TestScheduler, xs: seq<Recorded>, dueTime: int, bound: int, ghost goal: Outcome, st: ThrottleState)
    returns (st': ThrottleState)
    requires s.Valid() && Consistent(xs, dueTime, bound, goal, st, s.nextId)
    requires st.subscribed && st.disposePending && s.clock == bound
    requires st.next < |xs| ==> Adjusted(0, xs[st.next].time) > bound
    requires st.pending.Some? ==> st.pending.value.due >= bound
    requires s.Pending() == HotQueue(xs, st.next, bound, st.subscribed, false, TimerItem(st))
    modifies s
    ensures s.Valid() && Consistent(xs, dueTime, bound, goal, st', s.nextId)
    ensures s.Pending() == Queue(xs, bound, st') && st'.next == st.next && |s.queue| <= old(|s.queue|)
  {
    assert st.next < |xs| ==> xs[st.next..][0] == xs[st.next];
    if st.stopped {
      st' := st.(disposePending := false);
    } else {
      if st.pending.Some? {
        HotCancelTimer(xs, st.next, bound, st.subscribed, false, TimerItem(st));
        s.Cancel(st.timerId);
      }
      st' := st.(disposePending := false, pending := None, stopped := true, subscriptionEnd := bound);
    }
  }

  /** Runs the earliest pending action of the run. */
  method ThrottleStep(s: TestScheduler, xs: seq<Recorded>, dueTime: int, bound: int, ghost goal: Outcome, st: ThrottleState)
    returns (st': ThrottleState)
    requires s.Valid() && Consistent(xs, dueTime, bound, goal, st, s.nextId)
    requires s.Pending() == Queue(xs, bound, st) && |s.queue| > 0
    requires goal == ThrottleFrom(Visible(xs), dueTime, bound, None)
    modifies s
    ensures s.Valid() && Consistent(xs, dueTime, bound, goal, st', s.nextId)
    ensures s.Pending() == Queue(xs, bound, st')
    ensures st'.next > st.next || (st'.next == st.next && |s.queue| < old(|s.queue|))
  {
    var item := s.Dequeue();
    HotQueueActions(xs, st.next, bound, st.subscribed, st.disposePending, TimerItem(st), item);
    if item.action.HotNote? {
      HotRunsFirst(xs, st.next, bound, st.subscribed, st.disposePending, TimerItem(st), item);
      st' := HotStep(s, xs, dueTime, bound, goal, st);
    } else if item.action.Subscribe? {
      HotSubscribeRunsFirst(xs, st.next, bound, st.subscribed, st.disposePending, TimerItem(st), item);
      st' := OnSubscribe(s, xs, dueTime, bound, goal, st);
    } else if item.action.Dispose? {
      HotDisposeRunsFirst(xs, st.next, bound, st.subscribed, st.disposePending, TimerItem(st), item);
      st' := OnDispose(s, xs, dueTime, bound, goal, st);
    } else {
      HotTickRunsFirst(xs, st.next, bound, st.subscribed, st.disposePending, TimerItem(st), item);
      st' := OnTick(s, xs, dueTime, bound, goal, st);
    }
  }

  /** The hot source delivers its next message; only a subscribed, running sink reacts. */
  method HotStep(s: TestScheduler, xs: seq<Recorded>, dueTime: int, bound: int, ghost goal: Outcome, st: ThrottleState)
    returns (st': ThrottleState)
    requires s.Valid() && Consistent(xs, dueTime, bound, goal, st, s.nextId)
    requires st.next < |xs| && s.clock == Adjusted(0, xs[st.next].time)
    requires st.pending.Some? ==> s.clock <= st.pending.value.due
    requires st.disposePending ==> s.clock <= bound
    requires !st.subscribed ==> s.clock <= Subscribed
    requires s.Pending() == HotQueue(xs, st.next + 1, bound, st.subscribed, st.disposePending, TimerItem(st))
    modifies s
    ensures s.Valid() && Consistent(xs, dueTime, bound, goal, st', s.nextId)
    ensures s.Pending() == Queue(xs, bound, st') && st'.next == st.next + 1
  {
    if st.subscribed && !st.stopped {
      assert xs[st.next..][0] == xs[st.next] && xs[st.next..][1..] == xs[st.next + 1..];
      st' := OnHot(s, xs, dueTime, bound, goal, st);
    } else {
      st' := st.(next := st.next + 1);
    }
  }

  /** The harness subscribes the sink to the hot source. */
  method OnSubscribe(s: TestScheduler, xs: seq<Recorded>, dueTime: int, bound: int, ghost goal: Outcome, st: ThrottleState)
    returns (st': ThrottleState)
    requires s.Valid() && Consistent(xs, dueTime, bound, goal, st, s.nextId)
    requires goal == ThrottleFrom(Visible(xs), dueTime, bound, None)
    requires !st.subscribed && (st.next < |xs| ==> xs[st.next].time > Subscribed)
    requires s.Pending() == HotQueue(xs, st.next, bound, true, st.disposePending, TimerItem(st))
    ensures Consistent(xs, dueTime, bound, goal, st', s.nextId)
    ensures s.Pending() == Queue(xs, bound, st') && st'.next == st.next
  {
    VisibleFrom(xs, st.next);
    assert [] + goal.messages == goal.messages;
    st' := st.(subscribed := true);
  }

  /** The timer fires and emits the pending value. */
  method OnTick(s: TestScheduler, xs: seq<Recorded>, dueTime: int, bound: int, ghost goal: Outcome, st: ThrottleState)
    returns (st': ThrottleState)
    requires s.Valid() && Consistent(xs, dueTime, bound, goal, st, s.nextId)
    requires st.pending.Some? && s.clock == st.pending.value.due
    requires st.next < |xs| ==> s.clock < Adjusted(0, xs[st.next].time)
    requires st.disposePending ==> s.clock < bound
    requires s.Pending() == HotQueue(xs, st.next, bound, st.subscribed, st.disposePending, None)
    ensures Consistent(xs, dueTime, bound, goal, st', s.nextId)
    ensures s.Pending() == Queue(xs, bound, st') && st'.next == st.next
  {
    assert st.next < |xs| ==> xs[st.next..][0] == xs[st.next];
    st' := st.(pending := None, messages := st.messages + [Recorded(s.clock, Next(st.pending.value.value))]);
  }

  /** The run of `scheduler.start { xs >- throttle(dueTime, scheduler) }`, disposing at `bound`, on
      the test scheduler: the hot source's messages and the harness's subscription and disposal are
      queued, then the earliest pending action runs until none is left. */
  method RunThrottle(xs: seq<Recorded>, dueTime: int, bound: int) returns (r: Run)
    requires Ordered(xs) && Subscribed <= bound
    ensures r == Throttle(xs, dueTime, bound)
  {
    var s := new TestScheduler(0);
    s.CreateHotObservable(xs, 0);
    var subscribeId := s.ScheduleAbsolute(Subscribed, Subscribe);
    var disposeId := s.ScheduleAbsolute(bound, Dispose);
    ghost var goal := ThrottleFrom(Visible(xs), dueTime, bound, None);
    var st := ThrottleState(0, false, true, false, None, 0, [], bound);
    while |s.queue| > 0
      invariant s.Valid() && Consistent(xs, dueTime, bound, goal, st, s.nextId)
      invariant s.Pending() == Queue(xs, bound, st)
      decreases |xs| - st.next, |s.queue|
    {
      st := ThrottleStep(s, xs, dueTime, bound, goal, st);
    }
    HotQueueDrained(xs, st.next, bound, st.subscribed, st.disposePending, TimerItem(st));
    r := Run(st.messages, [Subscription(Subscribed, st.subscriptionEnd)]);
  }
}
