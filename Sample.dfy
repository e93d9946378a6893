/** sample(sampler) and sampleLatest(sampler): at each sampler tick, emit the source's most
    recent value. `sample` emits it only if it arrived since the previous emission, while
    `sampleLatest` emits it at every tick once one exists. An error from either stream is
    forwarded at once. A source completion waits for the next sampler tick. A sampler
    completion flushes the value, then completes. */
module Sample {
  import opened Trace
  import opened VirtualTime

  /** The messages recorded by the observer, and when the source's and the sampler's
      subscriptions ended. */
  datatype SampleOutcome = SampleOutcome(messages: seq<Recorded>, sourceEnd: int, samplerEnd: int)

  /** What a two-source run records: the observer's messages and each source's subscriptions. */
  datatype SampleRun = SampleRun(messages: seq<Recorded>, sourceSubscriptions: seq<Subscription>,
                                 samplerSubscriptions: seq<Subscription>)

  function EndOr(sourceEnd: Option<int>, time: int): int
  {
    if sourceEnd.Some? then sourceEnd.value else time
  }

  /** The next message comes from the source: the source has one no later than the sampler's.
      At equal times the source runs first. */
  predicate SourceFirst(xs: seq<Recorded>, ys: seq<Recorded>)
  {
    xs != [] && (ys == [] || xs[0].time <= ys[0].time)
  }

  /** Nothing is left before the disposal at `bound`. */
  predicate Exhausted(xs: seq<Recorded>, ys: seq<Recorded>, bound: int)
  {
    (xs == [] || xs[0].time > bound) && (ys == [] || ys[0].time > bound)
  }

  /** The sink as a state machine over the visible source messages `xs` and sampler messages `ys`.
      `element` is the value waiting to be sampled. `sample` (onlyNew) clears it once it is
      emitted, `sampleLatest` keeps it. `sourceEnd` is when the source completed, if it has.
      Once it has, `xs` is empty, because the source's subscription is over. */
  function SampleFrom(xs: seq<Recorded>, ys: seq<Recorded>, onlyNew: bool, bound: int,
                      element: Option<int>, sourceEnd: Option<int>): (o: SampleOutcome)
    ensures TerminalOnce(o.messages) && o.samplerEnd == EndTime(o.messages, bound)
    decreases |xs| + |ys|
  {
    if Exhausted(xs, ys, bound) then
      SampleOutcome([], EndOr(sourceEnd, bound), bound)
    else if SourceFirst(xs, ys) then
      var t := xs[0].time;
      match xs[0].note
      case Next(v) => SampleFrom(xs[1..], ys, onlyNew, bound, Some(v), sourceEnd)
      case Error => SampleOutcome([Recorded(t, Error)], t, t)
      case Completed => SampleFrom([], ys, onlyNew, bound, element, Some(t))
    else
      var t := ys[0].time;
      var emitted := if element.Some? then [Recorded(t, Next(element.value))] else [];
      match ys[0].note
      case Next(_) =>
        if sourceEnd.Some? then
          SampleOutcome(emitted + [Recorded(t, Completed)], sourceEnd.value, t)
        else
          var rest := SampleFrom(xs, ys[1..], onlyNew, bound, if onlyNew then None else element, sourceEnd);
          SampleOutcome(emitted + rest.messages, rest.sourceEnd, rest.samplerEnd)
      case Error => SampleOutcome([Recorded(t, Error)], EndOr(sourceEnd, t), t)
      case Completed => SampleOutcome(emitted + [Recorded(t, Completed)], EndOr(sourceEnd, t), t)
  }

  /** What `scheduler.start { xs >- sample(ys) }` (onlyNew) or `xs >- sampleLatest(ys)` records
      when both hot streams are subscribed at 200 and the run is disposed at `bound`. */
  function Sampled(xs: seq<Recorded>, ys: seq<Recorded>, onlyNew: bool, bound: int): (r: SampleRun)
    ensures r.samplerSubscriptions == [Subscription(Subscribed, EndTime(r.messages, bound))]
    ensures |r.sourceSubscriptions| == 1 && r.sourceSubscriptions[0].start == Subscribed
  {
    var o := SampleFrom(Visible(xs), Visible(ys), onlyNew, bound, None, None);
    SampleRun(o.messages, [Subscription(Subscribed, o.sourceEnd)], [Subscription(Subscribed, o.samplerEnd)])
  }

  /** What `scheduler.start { xs >- sample(ys) }` records. */
  function Sample(xs: seq<Recorded>, ys: seq<Recorded>, bound: int): (r: SampleRun)
    ensures r.samplerSubscriptions == [Subscription(Subscribed, EndTime(r.messages, bound))]
    ensures |r.sourceSubscriptions| == 1 && r.sourceSubscriptions[0].start == Subscribed
  {
    Sampled(xs, ys, true, bound)
  }

  /** What `scheduler.start { xs >- sampleLatest(ys) }` records. */
  function SampleLatest(xs: seq<Recorded>, ys: seq<Recorded>, bound: int): (r: SampleRun)
    ensures r.samplerSubscriptions == [Subscription(Subscribed, EndTime(r.messages, bound))]
    ensures |r.sourceSubscriptions| == 1 && r.sourceSubscriptions[0].start == Subscribed
  {
    Sampled(xs, ys, false, bound)
  }

  // ---------------------------------------------------------------------------
  // Properties

  predicate AllFrom(ms: seq<Recorded>, low: int)
  {
    forall i :: 0 <= i < |ms| ==> low <= ms[i].time
  }

  lemma {:induction false} SampleFromOrdered(xs: seq<Recorded>, ys: seq<Recorded>, onlyNew: bool, bound: int,
                                             element: Option<int>, sourceEnd: Option<int>, low: int)
    requires Ordered(xs) && Ordered(ys) && AllFrom(xs, low) && AllFrom(ys, low)
    requires sourceEnd.Some? ==> xs == [] && sourceEnd.value <= low && sourceEnd.value <= bound
    ensures var o := SampleFrom(xs, ys, onlyNew, bound, element, sourceEnd);
            Ordered(o.messages) && Within(o.messages, low, bound) && o.sourceEnd <= o.samplerEnd
    decreases |xs| + |ys|, 1
  {
    if Exhausted(xs, ys, bound) {
    } else if SourceFirst(xs, ys) {
      var t := xs[0].time;
      assert AllFrom(ys, t);
      match xs[0].note
      case Next(v) => SampleFromOrdered(xs[1..], ys, onlyNew, bound, Some(v), sourceEnd, t);
      case Error =>
      case Completed => SampleFromOrdered([], ys, onlyNew, bound, element, Some(t), t);
    } else {
      SampleFromOrderedTick(xs, ys, onlyNew, bound, element, sourceEnd, low);
    }
  }

  /** The case of `SampleFromOrdered` where the sampler's message runs next. */
  lemma {:induction false} SampleFromOrderedTick(xs: seq<Recorded>, ys: seq<Recorded>, onlyNew: bool, bound: int,
                                                 element: Option<int>, sourceEnd: Option<int>, low: int)
    requires Ordered(xs) && Ordered(ys) && AllFrom(xs, low) && AllFrom(ys, low)
    requires sourceEnd.Some? ==> xs == [] && sourceEnd.value <= low && sourceEnd.value <= bound
    requires !Exhausted(xs, ys, bound) && !SourceFirst(xs, ys)
    ensures var o := SampleFrom(xs, ys, onlyNew, bound, element, sourceEnd);
            Ordered(o.messages) && Within(o.messages, low, bound) && o.sourceEnd <= o.samplerEnd
    decreases |xs| + |ys|, 0
  {
    var t := ys[0].time;
    var emitted := if element.Some? then [Recorded(t, Next(element.value))] else [];
    if ys[0].note.Next? && sourceEnd.None? {
      assert AllFrom(xs, t);
      var next := if onlyNew then None else element;
      SampleFromOrdered(xs, ys[1..], onlyNew, bound, next, sourceEnd, t);
      var rest := SampleFrom(xs, ys[1..], onlyNew, bound, next, sourceEnd);
      assert SampleFrom(xs, ys, onlyNew, bound, element, sourceEnd).messages == emitted + rest.messages;
      PrependAtTime(emitted, rest.messages, t, low, bound);
    }
  }

  /** For time-ordered streams the output is time-ordered, has at most one terminal, which is
      last, and lies after the subscription and not after the disposal. The sampler's subscription
      ends at the output's terminal or at the disposal, and the source's no later. */
  lemma SampleWellFormed(xs: seq<Recorded>, ys: seq<Recorded>, onlyNew: bool, bound: int)
    requires Ordered(xs) && Ordered(ys) && Subscribed <= bound
    ensures var r := Sampled(xs, ys, onlyNew, bound);
            && WellFormed(r.messages) && Within(r.messages, Subscribed + 1, bound)
            && r.samplerSubscriptions == [Subscription(Subscribed, EndTime(r.messages, bound))]
            && |r.sourceSubscriptions| == 1 && r.sourceSubscriptions[0].start == Subscribed
            && r.sourceSubscriptions[0].end <= r.samplerSubscriptions[0].end
  {
    VisibleIsLate(xs);
    VisibleIsLate(ys);
    SampleFromOrdered(Visible(xs), Visible(ys), onlyNew, bound, None, None, Subscribed + 1);
  }

  /** The most recent value the source has delivered by time `t`, or `d` if it has delivered none
      since. Nothing after the source's terminal counts. */
  function LatestValue(xs: seq<Recorded>, t: int, d: Option<int>): Option<int>
  {
    if xs == [] || xs[0].time > t || !xs[0].note.Next? then d
    else LatestValue(xs[1..], t, Some(xs[0].note.value))
  }

  /** Every value emitted at time `t` is the most recent one the source delivered by `t`. */
  predicate EmitsLatest(ms: seq<Recorded>, xs: seq<Recorded>, d: Option<int>)
  {
    forall i :: 0 <= i < |ms| && ms[i].note.Next? ==> LatestValue(xs, ms[i].time, d) == Some(ms[i].note.value)
  }

  lemma {:induction false} LatestValueDefault(xs: seq<Recorded>, t: int, d: Option<int>)
    ensures LatestValue(xs, t, None).Some? ==> LatestValue(xs, t, d) == LatestValue(xs, t, None)
    decreases |xs|
  {
    if !(xs == [] || xs[0].time > t || !xs[0].note.Next?) {
      assert LatestValue(xs, t, d) == LatestValue(xs, t, None);
    }
  }

  lemma {:induction false} SampleFromLatest(xs: seq<Recorded>, ys: seq<Recorded>, onlyNew: bool, bound: int,
                                            element: Option<int>, sourceEnd: Option<int>)
    requires Ordered(xs) && Ordered(ys) && (sourceEnd.Some? ==> xs == [])
    ensures EmitsLatest(SampleFrom(xs, ys, onlyNew, bound, element, sourceEnd).messages, xs, element)
    decreases |xs| + |ys|, 1
  {
    if Exhausted(xs, ys, bound) {
    } else if SourceFirst(xs, ys) {
      var t := xs[0].time;
      match xs[0].note
      case Next(v) =>
        SampleFromLatest(xs[1..], ys, onlyNew, bound, Some(v), sourceEnd);
        assert AllFrom(ys, t);
        SampleFromOrdered(xs[1..], ys, onlyNew, bound, Some(v), sourceEnd, t);
      case Error =>
      case Completed =>
        SampleFromLatest([], ys, onlyNew, bound, element, Some(t));
    } else {
      SampleFromLatestTick(xs, ys, onlyNew, bound, element, sourceEnd);
    }
  }

  /** The case of `SampleFromLatest` where the sampler's message runs next. */
  lemma {:induction false} SampleFromLatestTick(xs: seq<Recorded>, ys: seq<Recorded>, onlyNew: bool, bound: int,
                                                element: Option<int>, sourceEnd: Option<int>)
    requires Ordered(xs) && Ordered(ys) && (sourceEnd.Some? ==> xs == [])
    requires !Exhausted(xs, ys, bound) && !SourceFirst(xs, ys)
    ensures EmitsLatest(SampleFrom(xs, ys, onlyNew, bound, element, sourceEnd).messages, xs, element)
    decreases |xs| + |ys|, 0
  {
    var out := SampleFrom(xs, ys, onlyNew, bound, element, sourceEnd);
    var t := ys[0].time;
    var element' := if onlyNew then None else element;
    if ys[0].note.Next? && sourceEnd.None? {
      var rest := SampleFrom(xs, ys[1..], onlyNew, bound, element', sourceEnd);
      var emitted := if element.Some? then [Recorded(t, Next(element.value))] else [];
      assert out.messages == emitted + rest.messages;
      SampleFromLatest(xs, ys[1..], onlyNew, bound, element', sourceEnd);
      forall i | 0 <= i < |out.messages| && out.messages[i].note.Next?
        ensures LatestValue(xs, out.messages[i].time, element) == Some(out.messages[i].note.value)
      {
        if i >= |emitted| {
          assert out.messages[i] == rest.messages[i - |emitted|];
          LatestValueDefault(xs, out.messages[i].time, element);
        }
      }
    }
  }

  /** Every value emitted at time `t` is the most recent value the source has delivered by `t`. */
  lemma SampleEmitsLatest(xs: seq<Recorded>, ys: seq<Recorded>, onlyNew: bool, bound: int)
    requires Ordered(xs) && Ordered(ys)
    ensures EmitsLatest(Sampled(xs, ys, onlyNew, bound).messages, Visible(xs), None)
  {
    VisibleIsLate(xs);
    VisibleIsLate(ys);
    SampleFromLatest(Visible(xs), Visible(ys), onlyNew, bound, None, None);
  }

  /** A sampler message at time `t` exists. */
  predicate TickAt(ys: seq<Recorded>, t: int)
  {
    exists j :: 0 <= j < |ys| && ys[j].time == t && !ys[j].note.Error?
  }

  /** Every value is emitted at the time of a sampler message. */
  predicate AtTicks(ms: seq<Recorded>, ys: seq<Recorded>)
  {
    forall i :: 0 <= i < |ms| && ms[i].note.Next? ==> TickAt(ys, ms[i].time)
  }

  lemma {:induction false} SampleFromAtTicks(xs: seq<Recorded>, ys: seq<Recorded>, onlyNew: bool, bound: int,
                                             element: Option<int>, sourceEnd: Option<int>)
    ensures AtTicks(SampleFrom(xs, ys, onlyNew, bound, element, sourceEnd).messages, ys)
    decreases |xs| + |ys|
  {
    var out := SampleFrom(xs, ys, onlyNew, bound, element, sourceEnd);
    if Exhausted(xs, ys, bound) {
    } else if SourceFirst(xs, ys) {
      match xs[0].note
      case Next(v) =>
        SampleFromAtTicks(xs[1..], ys, onlyNew, bound, Some(v), sourceEnd);

      case Error =>
      case Completed => SampleFromAtTicks([], ys, onlyNew, bound, element, Some(xs[0].time));
    } else {
      var t := ys[0].time;
      assert TickAt(ys, t) <== !ys[0].note.Error?;
      var emitted := if element.Some? then [Recorded(t, Next(element.value))] else [];
      match ys[0].note
      case Next(_) =>
        if sourceEnd.None? {
          var rest := SampleFrom(xs, ys[1..], onlyNew, bound, if onlyNew then None else element, sourceEnd);
          assert out.messages == emitted + rest.messages;
          SampleFromAtTicks(xs, ys[1..], onlyNew, bound, if onlyNew then None else element, sourceEnd);
          forall i | 0 <= i < |out.messages| && out.messages[i].note.Next?
            ensures TickAt(ys, out.messages[i].time)
          {
            if i >= |emitted| {
              var k := i - |emitted|;
              assert out.messages[i] == rest.messages[k];
              assert rest.messages[k].note.Next?;
              var j :| 0 <= j < |ys[1..]| && ys[1..][j].time == rest.messages[k].time && !ys[1..][j].note.Error?;
              assert ys[j + 1] == ys[1..][j];
            }
          }
        } else {
          assert out.messages == emitted + [Recorded(t, Completed)];
        }
      case Error =>
      case Completed =>
        assert out.messages == emitted + [Recorded(t, Completed)];
    }
  }

  /** Values are emitted only at the times of the sampler's ticks and completion. */
  lemma SampleEmitsAtTicks(xs: seq<Recorded>, ys: seq<Recorded>, onlyNew: bool, bound: int)
    ensures AtTicks(Sampled(xs, ys, onlyNew, bound).messages, Visible(ys))
  {
    SampleFromAtTicks(Visible(xs), Visible(ys), onlyNew, bound, None, None);
  }

  function Opt(e: Option<int>): seq<int>
  {
    if e.Some? then [e.value] else []
  }

  lemma {:induction false} SampleFromValues(xs: seq<Recorded>, ys: seq<Recorded>, bound: int,
                                            element: Option<int>, sourceEnd: Option<int>)
    ensures IsSubsequence(Values(SampleFrom(xs, ys, true, bound, element, sourceEnd).messages), Opt(element) + Values(xs))
    decreases |xs| + |ys|
  {
    var out := SampleFrom(xs, ys, true, bound, element, sourceEnd);
    if Exhausted(xs, ys, bound) {
    } else if SourceFirst(xs, ys) {
      match xs[0].note
      case Next(v) =>
        SampleFromValues(xs[1..], ys, bound, Some(v), sourceEnd);
        SubsequenceExtendLeft(Values(out.messages), Opt(element), Values(xs));
      case Error =>
        assert Values(out.messages) == [];
      case Completed =>
        SampleFromValues([], ys, bound, element, Some(xs[0].time));
        SubsequenceConcat(Values(out.messages), Opt(element), [], Values(xs));
        assert Opt(element) + [] == Opt(element) && Values(out.messages) + [] == Values(out.messages);
    } else {
      var t := ys[0].time;
      var emitted := if element.Some? then [Recorded(t, Next(element.value))] else [];
      assert Values(emitted) == Opt(element);
      SubsequenceRefl(Opt(element));
      match ys[0].note
      case Next(_) =>
        if sourceEnd.None? {
          var rest := SampleFrom(xs, ys[1..], true, bound, None, sourceEnd);
          SampleFromValues(xs, ys[1..], bound, None, sourceEnd);
          assert Opt(None) + Values(xs) == Values(xs);
          ValuesAppend(emitted, rest.messages);
          SubsequenceConcat(Opt(element), Opt(element), Values(rest.messages), Values(xs));
        } else {
          ValuesAppend(emitted, [Recorded(t, Completed)]);
          SubsequenceConcat(Opt(element), Opt(element), [], Values(xs));
          assert Opt(element) + [] == Opt(element);
        }
      case Error =>
        assert Values(out.messages) == [];
      case Completed =>
        ValuesAppend(emitted, [Recorded(t, Completed)]);
        SubsequenceConcat(Opt(element), Opt(element), [], Values(xs));
        assert Opt(element) + [] == Opt(element);
    }
  }

  /** `sample` never emits a source value twice: its values are a subsequence of the source's. */
  lemma SampleNeverRepeats(xs: seq<Recorded>, ys: seq<Recorded>, bound: int)
    ensures IsSubsequence(Values(Sample(xs, ys, bound).messages), Values(Visible(xs)))
  {
    SampleFromValues(Visible(xs), Visible(ys), bound, None, None);
    assert Opt(None) + Values(Visible(xs)) == Values(Visible(xs));
  }

  /** `o` is `latest` with some of its values left out, and ends the same way. */
  predicate Thinned(o: SampleOutcome, latest: SampleOutcome)
  {
    IsSubsequence(o.messages, latest.messages) && o.sourceEnd == latest.sourceEnd && o.samplerEnd == latest.samplerEnd
  }

  lemma {:induction false} SampleFromThinned(xs: seq<Recorded>, ys: seq<Recorded>, bound: int,
                                             e1: Option<int>, e2: Option<int>, sourceEnd: Option<int>)
    requires e1.Some? ==> e1 == e2
    ensures Thinned(SampleFrom(xs, ys, true, bound, e1, sourceEnd), SampleFrom(xs, ys, false, bound, e2, sourceEnd))
    decreases |xs| + |ys|
  {
    var o1 := SampleFrom(xs, ys, true, bound, e1, sourceEnd);
    var o2 := SampleFrom(xs, ys, false, bound, e2, sourceEnd);
    if Exhausted(xs, ys, bound) {
    } else if SourceFirst(xs, ys) {
      match xs[0].note
      case Next(v) => SampleFromThinned(xs[1..], ys, bound, Some(v), Some(v), sourceEnd);
      case Error => SubsequenceRefl(o2.messages);
      case Completed => SampleFromThinned([], ys, bound, e1, e2, Some(xs[0].time));
    } else {
      var t := ys[0].time;
      var em1 := if e1.Some? then [Recorded(t, Next(e1.value))] else [];
      var em2 := if e2.Some? then [Recorded(t, Next(e2.value))] else [];
      SubsequenceRefl(em2);
      assert IsSubsequence(em1, em2);
      SubsequenceRefl([Recorded(t, Completed)]);
      match ys[0].note
      case Next(_) =>
        if sourceEnd.None? {
          SampleFromThinned(xs, ys[1..], bound, None, e2, sourceEnd);
          var r1 := SampleFrom(xs, ys[1..], true, bound, None, sourceEnd);
          var r2 := SampleFrom(xs, ys[1..], false, bound, e2, sourceEnd);
          SubsequenceConcat(em1, em2, r1.messages, r2.messages);
        } else {
          SubsequenceConcat(em1, em2, [Recorded(t, Completed)], [Recorded(t, Completed)]);
        }
      case Error => SubsequenceRefl(o2.messages);
      case Completed => SubsequenceConcat(em1, em2, [Recorded(t, Completed)], [Recorded(t, Completed)]);
    }
  }

  /** `sample` records what `sampleLatest` records with some values left out, and both end their
      source's and sampler's subscriptions at the same times. */
  lemma SampleThinsLatest(xs: seq<Recorded>, ys: seq<Recorded>, bound: int)
    ensures IsSubsequence(Sample(xs, ys, bound).messages, SampleLatest(xs, ys, bound).messages)
    ensures Sample(xs, ys, bound).sourceSubscriptions == SampleLatest(xs, ys, bound).sourceSubscriptions
    ensures Sample(xs, ys, bound).samplerSubscriptions == SampleLatest(xs, ys, bound).samplerSubscriptions
  {
    SampleFromThinned(Visible(xs), Visible(ys), bound, None, None, None);
  }

  /** Every sampler tick before the end of the run emits the most recent source value, if there is one. */
  predicate EveryTick(ms: seq<Recorded>, xs: seq<Recorded>, ys: seq<Recorded>, d: Option<int>, end: int)
  {
    forall j :: 0 <= j < |ys| && ys[j].note.Next? && ys[j].time < end && LatestValue(xs, ys[j].time, d).Some? ==>
      Recorded(ys[j].time, Next(LatestValue(xs, ys[j].time, d).value)) in ms
  }

  lemma {:induction false} SampleFromEveryTick(xs: seq<Recorded>, ys: seq<Recorded>, bound: int,
                                               element: Option<int>, sourceEnd: Option<int>)
    requires Ordered(xs) && Ordered(ys) && (sourceEnd.Some? ==> xs == [])
    ensures EveryTick(SampleFrom(xs, ys, false, bound, element, sourceEnd).messages, xs, ys, element,
                      SampleFrom(xs, ys, false, bound, element, sourceEnd).samplerEnd)
    decreases |xs| + |ys|
  {
    var out := SampleFrom(xs, ys, false, bound, element, sourceEnd);
    if Exhausted(xs, ys, bound) {
      assert forall j :: 0 <= j < |ys| ==> ys[0].time <= ys[j].time;
    } else if SourceFirst(xs, ys) {
      var t := xs[0].time;
      assert forall j :: 0 <= j < |ys| ==> t <= ys[0].time <= ys[j].time;
      match xs[0].note
      case Next(v) =>
        SampleFromEveryTick(xs[1..], ys, bound, Some(v), sourceEnd);
      case Error =>
      case Completed =>
        SampleFromEveryTick([], ys, bound, element, Some(t));
    } else {
      var t := ys[0].time;
      assert forall j :: 0 <= j < |ys| ==> t <= ys[j].time;
      var emitted := if element.Some? then [Recorded(t, Next(element.value))] else [];
      match ys[0].note
      case Next(_) =>
        if sourceEnd.None? {
          var rest := SampleFrom(xs, ys[1..], false, bound, element, sourceEnd);
          SampleFromEveryTick(xs, ys[1..], bound, element, sourceEnd);
          assert out.messages == emitted + rest.messages;
          forall j | 0 <= j < |ys| && ys[j].note.Next? && ys[j].time < out.samplerEnd && LatestValue(xs, ys[j].time, element).Some?
            ensures Recorded(ys[j].time, Next(LatestValue(xs, ys[j].time, element).value)) in out.messages
          {
            if j > 0 {
              assert ys[1..][j - 1] == ys[j];
            }
          }
        }
      case Error =>
      case Completed =>
    }
  }

  /** `sampleLatest` emits at every sampler tick before the end of the run once the source has
      delivered a value, repeating the value if nothing new arrived. */
  lemma SampleLatestEveryTick(xs: seq<Recorded>, ys: seq<Recorded>, bound: int)
    requires Ordered(xs) && Ordered(ys)
    ensures EveryTick(SampleLatest(xs, ys, bound).messages, Visible(xs), Visible(ys), None,
                      SampleLatest(xs, ys, bound).samplerSubscriptions[0].end)
  {
    VisibleIsLate(xs);
    VisibleIsLate(ys);
    SampleFromEveryTick(Visible(xs), Visible(ys), bound, None, None);
  }

  function Last(ms: seq<Recorded>): Recorded
    requires ms != []
  {
    ms[|ms| - 1]
  }

  lemma {:induction false} SampleFromSourceError(xs: seq<Recorded>, ys: seq<Recorded>, onlyNew: bool, bound: int,
                                                 element: Option<int>, k: nat)
    requires Ordered(xs) && k < |xs| && xs[k].note.Error? && xs[k].time <= bound
    requires forall i :: 0 <= i < k ==> xs[i].note.Next?
    requires forall j :: 0 <= j < |ys| && ys[j].time < xs[k].time ==> ys[j].note.Next?
    ensures var o := SampleFrom(xs, ys, onlyNew, bound, element, None);
            o.messages != [] && Last(o.messages) == Recorded(xs[k].time, Error)
            && o.sourceEnd == xs[k].time && o.samplerEnd == xs[k].time
    decreases |xs| + |ys|
  {
    assert xs[0].time <= xs[k].time;
    if SourceFirst(xs, ys) {
      if k > 0 {
        SampleFromSourceError(xs[1..], ys, onlyNew, bound, Some(xs[0].note.value), k - 1);
      }
    } else {
      SampleFromSourceError(xs, ys[1..], onlyNew, bound, if onlyNew then None else element, k);
    }
  }

  /** An error from the source is forwarded at its own time, after nothing else, and ends both
      subscriptions then, provided the sampler has not terminated before it. */
  lemma SampleSourceError(xs: seq<Recorded>, ys: seq<Recorded>, onlyNew: bool, bound: int, k: nat)
    requires Ordered(xs) && k < |Visible(xs)| && Visible(xs)[k].note.Error? && Visible(xs)[k].time <= bound
    requires forall i :: 0 <= i < k ==> Visible(xs)[i].note.Next?
    requires forall j :: 0 <= j < |Visible(ys)| && Visible(ys)[j].time < Visible(xs)[k].time ==> Visible(ys)[j].note.Next?
    ensures var r := Sampled(xs, ys, onlyNew, bound);
            r.messages != [] && Last(r.messages) == OnError(Visible(xs)[k].time)
            && r.sourceSubscriptions == [Subscription(Subscribed, Visible(xs)[k].time)]
            && r.samplerSubscriptions == [Subscription(Subscribed, Visible(xs)[k].time)]
  {
    VisibleIsLate(xs);
    SampleFromSourceError(Visible(xs), Visible(ys), onlyNew, bound, None, k);
  }

  lemma {:induction false} SampleFromSamplerError(xs: seq<Recorded>, ys: seq<Recorded>, onlyNew: bool, bound: int,
                                                  element: Option<int>, k: nat)
    requires Ordered(ys) && k < |ys| && ys[k].note.Error? && ys[k].time <= bound
    requires forall j :: 0 <= j < k ==> ys[j].note.Next?
    requires forall i :: 0 <= i < |xs| && xs[i].time <= ys[k].time ==> xs[i].note.Next?
    ensures var o := SampleFrom(xs, ys, onlyNew, bound, element, None);
            o.messages != [] && Last(o.messages) == Recorded(ys[k].time, Error)
            && o.sourceEnd == ys[k].time && o.samplerEnd == ys[k].time
    decreases |xs| + |ys|
  {
    assert ys[0].time <= ys[k].time;
    if SourceFirst(xs, ys) {
      SampleFromSamplerError(xs[1..], ys, onlyNew, bound, Some(xs[0].note.value), k);
    } else if k > 0 {
      SampleFromSamplerError(xs, ys[1..], onlyNew, bound, if onlyNew then None else element, k - 1);
    }
  }

  /** An error from the sampler is forwarded at its own time and ends both subscriptions then,
      provided the source has not terminated by then. */
  lemma SampleSamplerError(xs: seq<Recorded>, ys: seq<Recorded>, onlyNew: bool, bound: int, k: nat)
    requires Ordered(ys) && k < |Visible(ys)| && Visible(ys)[k].note.Error? && Visible(ys)[k].time <= bound
    requires forall j :: 0 <= j < k ==> Visible(ys)[j].note.Next?
    requires forall i :: 0 <= i < |Visible(xs)| && Visible(xs)[i].time <= Visible(ys)[k].time ==> Visible(xs)[i].note.Next?
    ensures var r := Sampled(xs, ys, onlyNew, bound);
            r.messages != [] && Last(r.messages) == OnError(Visible(ys)[k].time)
            && r.sourceSubscriptions == [Subscription(Subscribed, Visible(ys)[k].time)]
            && r.samplerSubscriptions == [Subscription(Subscribed, Visible(ys)[k].time)]
  {
    VisibleIsLate(ys);
    SampleFromSamplerError(Visible(xs), Visible(ys), onlyNew, bound, None, k);
  }

  // ---------------------------------------------------------------------------
  // An independent reference, tick by tick

  /** The first terminal message of a stream, if it has one. */
  function TerminalOf(s: seq<Recorded>): (end: Option<Recorded>)
    ensures end.Some? ==> IsTerminal(end.value)
  {
    if s == [] then None else if IsTerminal(s[0]) then Some(s[0]) else TerminalOf(s[1..])
  }

  /** The source delivered a value after `lo` and no later than `t`, before its terminal. */
  predicate FreshIn(s: seq<Recorded>, lo: int, t: int)
  {
    s != [] && s[0].time <= t && s[0].note.Next? && (lo < s[0].time || FreshIn(s[1..], lo, t))
  }

  /** When the source's subscription ends, given when the sampler's ended: at the source's
      terminal if that came no later, and with the sampler's otherwise. */
  function SourceEndBy(end: Option<Recorded>, samplerEnd: int): int
  {
    if end.Some? && end.value.time <= samplerEnd then end.value.time else samplerEnd
  }

  /** The output for the source `s`, taken whole, from the sampler messages `ys` on, where `prev`
      is the time of the previous tick and `d` the value the source held before `s` began. At
      each sampler message up to the disposal: a source error by then is forwarded instead; a
      sampler error is forwarded; otherwise the source's latest value is emitted if it has one
      and, for `sample`, it arrived after the previous tick; then a sampler completion, or a
      source completion by then, completes the output. After the last sampler message only a
      source error before the disposal is forwarded. */
  function SampleTicks(s: seq<Recorded>, ys: seq<Recorded>, onlyNew: bool, bound: int,
                       prev: int, d: Option<int>): seq<Recorded>
    decreases |ys|
  {
    var end := TerminalOf(s);
    if ys == [] || ys[0].time > bound then
      if end.Some? && end.value.note.Error? && end.value.time <= bound then [end.value] else []
    else
      var t := ys[0].time;
      if end.Some? && end.value.note.Error? && end.value.time <= t then [end.value]
      else if ys[0].note.Error? then [Recorded(t, Error)]
      else
        var v := LatestValue(s, t, d);
        var emitted := if v.Some? && (!onlyNew || FreshIn(s, prev, t)) then [Recorded(t, Next(v.value))] else [];
        if ys[0].note.Completed? || (end.Some? && end.value.time <= t) then emitted + [Recorded(t, Completed)]
        else emitted + SampleTicks(s, ys[1..], onlyNew, bound, t, d)
  }

  /** The run the reference describes: the sampler's subscription ends at the output's terminal
      or at the disposal, the source's at its own terminal if that came no later. */
  function SampleReference(xs: seq<Recorded>, ys: seq<Recorded>, onlyNew: bool, bound: int): SampleRun
  {
    var ms := SampleTicks(Visible(xs), Visible(ys), onlyNew, bound, Subscribed, None);
    var samplerEnd := EndTime(ms, bound);
    SampleRun(ms, [Subscription(Subscribed, SourceEndBy(TerminalOf(Visible(xs)), samplerEnd))],
              [Subscription(Subscribed, samplerEnd)])
  }

  /** The stream without its leading messages at `t` or earlier. */
  function After(s: seq<Recorded>, t: int): (r: seq<Recorded>)
    ensures r == [] || r[0].time > t
  {
    if s == [] || s[0].time > t then s else After(s[1..], t)
  }

  lemma {:induction false} AfterOrdered(s: seq<Recorded>, t: int)
    requires Ordered(s)
    ensures Ordered(After(s, t))
    decreases |s|
  {
    if s != [] && s[0].time <= t {
      AfterOrdered(s[1..], t);
    }
  }

  lemma {:induction false} TerminalOfLate(s: seq<Recorded>)
    requires Ordered(s) && s != [] && TerminalOf(s).Some?
    ensures TerminalOf(s).value.time >= s[0].time
    decreases |s|
  {
    if !IsTerminal(s[0]) {
      TerminalOfLate(s[1..]);
    }
  }

  lemma {:induction false} LatestValueSome(s: seq<Recorded>, t: int, v: int)
    ensures LatestValue(s, t, Some(v)).Some?
    decreases |s|
  {
    if s != [] && s[0].time <= t && s[0].note.Next? {
      LatestValueSome(s[1..], t, s[0].note.value);
    }
  }

  /** When nothing in `s` is as early as `prev`, `s` has a fresh value by `t` exactly when it has
      any value by `t`, and then the value held before `s` does not matter. */
  lemma FreshLatest(s: seq<Recorded>, prev: int, t: int, d: Option<int>)
    requires s != [] ==> s[0].time > prev
    ensures FreshIn(s, prev, t) <==> LatestValue(s, t, None).Some?
    ensures FreshIn(s, prev, t) ==> LatestValue(s, t, d) == LatestValue(s, t, None)
  {
    if s != [] && s[0].time <= t && s[0].note.Next? {
      LatestValueSome(s[1..], t, s[0].note.value);
      LatestValueDefault(s, t, d);
    }
  }

  /** Running the state machine through the source's messages up to `t`, before a sampler
      message no earlier than `t`: a source terminal by then ends it or records the completion,
      and otherwise the state machine resumes after `t` holding the source's latest value. */
  lemma {:induction false} SampleFromCatchUp(xs: seq<Recorded>, ys: seq<Recorded>, onlyNew: bool, bound: int,
                                             e: Option<int>, t: int)
    requires Ordered(xs) && t <= bound && (ys == [] || t <= ys[0].time)
    ensures var end := TerminalOf(xs);
            var o := SampleFrom(xs, ys, onlyNew, bound, e, None);
            && (end.Some? && end.value.time <= t && end.value.note.Error? ==>
                  o == SampleOutcome([end.value], end.value.time, end.value.time))
            && (end.Some? && end.value.time <= t && end.value.note.Completed? ==>
                  o == SampleFrom([], ys, onlyNew, bound, LatestValue(xs, t, e), Some(end.value.time)))
            && (!(end.Some? && end.value.time <= t) ==>
                  o == SampleFrom(After(xs, t), ys, onlyNew, bound, LatestValue(xs, t, e), None))
    decreases |xs|
  {
    if xs != [] && xs[0].time <= t {
      if xs[0].note.Next? {
        SampleFromCatchUp(xs[1..], ys, onlyNew, bound, Some(xs[0].note.value), t);
      }
    } else if xs != [] && TerminalOf(xs).Some? {
      TerminalOfLate(xs);
    }
  }

  /** Dropping a source value at or before `p` from the reference, and holding it instead. */
  lemma {:induction false} SampleTicksSkip(s: seq<Recorded>, ys: seq<Recorded>, onlyNew: bool, bound: int,
                                           p: int, d: Option<int>)
    requires s != [] && s[0].note.Next? && s[0].time <= p
    requires Ordered(ys) && (ys != [] ==> ys[0].time >= p)
    ensures SampleTicks(s, ys, onlyNew, bound, p, d) == SampleTicks(s[1..], ys, onlyNew, bound, p, Some(s[0].note.value))
    decreases |ys|
  {
    if ys != [] && ys[0].time <= bound {
      var t := ys[0].time;
      assert TerminalOf(s) == TerminalOf(s[1..]);
      assert LatestValue(s, t, d) == LatestValue(s[1..], t, Some(s[0].note.value));
      assert FreshIn(s, p, t) == FreshIn(s[1..], p, t);
      if !ys[0].note.Error? {
        SampleTicksSkip(s, ys[1..], onlyNew, bound, t, d);
      }
    }
  }

  /** Dropping the source's messages at or before `t`, none of them terminal, from the reference
      from a tick at `t` on, and holding the latest of them instead. */
  lemma {:induction false} SampleTicksAfter(s: seq<Recorded>, ys: seq<Recorded>, onlyNew: bool, bound: int,
                                            t: int, d: Option<int>)
    requires Ordered(s) && (TerminalOf(s).None? || TerminalOf(s).value.time > t)
    requires Ordered(ys) && (ys != [] ==> ys[0].time >= t)
    ensures SampleTicks(s, ys, onlyNew, bound, t, d) == SampleTicks(After(s, t), ys, onlyNew, bound, t, LatestValue(s, t, d))
    ensures TerminalOf(After(s, t)) == TerminalOf(s)
    decreases |s|
  {
    if s != [] && s[0].time <= t {
      SampleTicksSkip(s, ys, onlyNew, bound, t, d);
      SampleTicksAfter(s[1..], ys, onlyNew, bound, t, Some(s[0].note.value));
    }
  }

  lemma {:induction false} SampleFromMatchesTicks(xs: seq<Recorded>, ys: seq<Recorded>, onlyNew: bool, bound: int,
                                                  prev: int, d: Option<int>)
    requires Ordered(xs) && Ordered(ys)
    requires (xs != [] ==> xs[0].time > prev) && (ys != [] ==> ys[0].time >= prev)
    ensures var o := SampleFrom(xs, ys, onlyNew, bound, if onlyNew then None else d, None);
            o.messages == SampleTicks(xs, ys, onlyNew, bound, prev, d)
            && o.sourceEnd == SourceEndBy(TerminalOf(xs), o.samplerEnd)
    decreases |ys|, 3
  {
    if ys == [] || ys[0].time > bound {
      var e := if onlyNew then None else d;
      var end := TerminalOf(xs);
      SampleFromCatchUp(xs, ys, onlyNew, bound, e, bound);
      if end.Some? && end.value.time <= bound && end.value.note.Completed? {
        assert SampleFrom([], ys, onlyNew, bound, LatestValue(xs, bound, e), Some(end.value.time))
            == SampleOutcome([], end.value.time, bound);
      } else if !(end.Some? && end.value.time <= bound) {
        assert SampleFrom(After(xs, bound), ys, onlyNew, bound, LatestValue(xs, bound, e), None)
            == SampleOutcome([], bound, bound);
      }
    } else {
      SampleFromMatchesTick(xs, ys, onlyNew, bound, prev, d);
    }
  }

  /** The case of `SampleFromMatchesTicks` with a sampler message before the disposal. */
  lemma {:induction false} SampleFromMatchesTick(xs: seq<Recorded>, ys: seq<Recorded>, onlyNew: bool, bound: int,
                                                prev: int, d: Option<int>)
    requires Ordered(xs) && Ordered(ys)
    requires (xs != [] ==> xs[0].time > prev) && (ys != [] ==> ys[0].time >= prev)
    requires ys != [] && ys[0].time <= bound
    ensures var o := SampleFrom(xs, ys, onlyNew, bound, if onlyNew then None else d, None);
            o.messages == SampleTicks(xs, ys, onlyNew, bound, prev, d)
            && o.sourceEnd == SourceEndBy(TerminalOf(xs), o.samplerEnd)
    decreases |ys|, 2
  {
    var end := TerminalOf(xs);
    if end.Some? && end.value.time <= ys[0].time {
      SampleFromMatchesEnded(xs, ys, onlyNew, bound, prev, d);
    } else if ys[0].note.Next? {
      SampleFromMatchesNext(xs, ys, onlyNew, bound, prev, d);
    } else {
      SampleFromMatchesStop(xs, ys, onlyNew, bound, prev, d);
    }
  }

  /** A sampler message after the source has terminated. */
  lemma {:induction false} SampleFromMatchesEnded(xs: seq<Recorded>, ys: seq<Recorded>, onlyNew: bool, bound: int,
                                                 prev: int, d: Option<int>)
    requires Ordered(xs) && Ordered(ys)
    requires (xs != [] ==> xs[0].time > prev) && (ys != [] ==> ys[0].time >= prev)
    requires ys != [] && ys[0].time <= bound
    requires TerminalOf(xs).Some? && TerminalOf(xs).value.time <= ys[0].time
    ensures var o := SampleFrom(xs, ys, onlyNew, bound, if onlyNew then None else d, None);
            o.messages == SampleTicks(xs, ys, onlyNew, bound, prev, d)
            && o.sourceEnd == SourceEndBy(TerminalOf(xs), o.samplerEnd)
    decreases |ys|, 1
  {
    var t := ys[0].time;
    var e := if onlyNew then None else d;
    var end := TerminalOf(xs);
    SampleFromCatchUp(xs, ys, onlyNew, bound, e, t);
    FreshLatest(xs, prev, t, d);
    if end.value.note.Completed? {
      var o := SampleFrom([], ys, onlyNew, bound, LatestValue(xs, t, e), Some(end.value.time));
      assert o.messages == SampleTicks(xs, ys, onlyNew, bound, prev, d);
    }
  }

  /** A sampler tick while the source is still live. */
  lemma {:induction false} SampleFromMatchesNext(xs: seq<Recorded>, ys: seq<Recorded>, onlyNew: bool, bound: int,
                                                prev: int, d: Option<int>)
    requires Ordered(xs) && Ordered(ys)
    requires (xs != [] ==> xs[0].time > prev) && (ys != [] ==> ys[0].time >= prev)
    requires ys != [] && ys[0].time <= bound
    requires TerminalOf(xs).None? || TerminalOf(xs).value.time > ys[0].time
    requires ys[0].note.Next?
    ensures var o := SampleFrom(xs, ys, onlyNew, bound, if onlyNew then None else d, None);
            o.messages == SampleTicks(xs, ys, onlyNew, bound, prev, d)
            && o.sourceEnd == SourceEndBy(TerminalOf(xs), o.samplerEnd)
    decreases |ys|, 0
  {
    var t := ys[0].time;
    SampleFromNextStep(xs, ys, onlyNew, bound, prev, d);
    SampleTicksNextStep(xs, ys, onlyNew, bound, prev, d);
    AfterOrdered(xs, t);
    SampleFromMatchesTicks(After(xs, t), ys[1..], onlyNew, bound, t, LatestValue(xs, t, d));
  }

  /** The state machine at a sampler tick while the source is still live: the catch-up, the
      emission the reference makes, and the state machine from after the tick on. */
  lemma SampleFromNextStep(xs: seq<Recorded>, ys: seq<Recorded>, onlyNew: bool, bound: int,
                           prev: int, d: Option<int>)
    requires Ordered(xs) && (xs != [] ==> xs[0].time > prev)
    requires ys != [] && ys[0].time <= bound && ys[0].note.Next?
    requires TerminalOf(xs).None? || TerminalOf(xs).value.time > ys[0].time
    ensures var t := ys[0].time;
            var v := LatestValue(xs, t, d);
            var emitted := if v.Some? && (!onlyNew || FreshIn(xs, prev, t)) then [Recorded(t, Next(v.value))] else [];
            var rest := SampleFrom(After(xs, t), ys[1..], onlyNew, bound, if onlyNew then None else v, None);
            SampleFrom(xs, ys, onlyNew, bound, if onlyNew then None else d, None)
            == SampleOutcome(emitted + rest.messages, rest.sourceEnd, rest.samplerEnd)
  {
    var t := ys[0].time;
    var e := if onlyNew then None else d;
    var e2 := LatestValue(xs, t, e);
    SampleFromCatchUpLive(xs, ys, onlyNew, bound, e, t);
    SampleEmittedAgree(xs, onlyNew, prev, t, d);
    assert (if onlyNew then None else e2) == (if onlyNew then None else LatestValue(xs, t, d));
    SampleFromTickNext(After(xs, t), ys, onlyNew, bound, e2);
  }

  /** The reference at a sampler tick while the source is still live, with the source's
      messages up to the tick dropped from what follows. */
  lemma SampleTicksNextStep(xs: seq<Recorded>, ys: seq<Recorded>, onlyNew: bool, bound: int,
                            prev: int, d: Option<int>)
    requires Ordered(xs) && Ordered(ys)
    requires ys != [] && ys[0].time <= bound && ys[0].note.Next?
    requires TerminalOf(xs).None? || TerminalOf(xs).value.time > ys[0].time
    ensures var t := ys[0].time;
            var v := LatestValue(xs, t, d);
            var emitted := if v.Some? && (!onlyNew || FreshIn(xs, prev, t)) then [Recorded(t, Next(v.value))] else [];
            && SampleTicks(xs, ys, onlyNew, bound, prev, d) == emitted + SampleTicks(After(xs, t), ys[1..], onlyNew, bound, t, v)
            && TerminalOf(After(xs, t)) == TerminalOf(xs)
  {
    SampleTicksNext(xs, ys, onlyNew, bound, prev, d);
    SampleTicksAfter(xs, ys[1..], onlyNew, bound, ys[0].time, d);
  }

  /** The state machine's catch-up to a tick at `t` while the source is still live then. */
  lemma SampleFromCatchUpLive(xs: seq<Recorded>, ys: seq<Recorded>, onlyNew: bool, bound: int,
                              e: Option<int>, t: int)
    requires Ordered(xs) && t <= bound && (ys == [] || t <= ys[0].time)
    requires TerminalOf(xs).None? || TerminalOf(xs).value.time > t
    ensures SampleFrom(xs, ys, onlyNew, bound, e, None)
         == SampleFrom(After(xs, t), ys, onlyNew, bound, LatestValue(xs, t, e), None)
  {
    SampleFromCatchUp(xs, ys, onlyNew, bound, e, t);
  }

  /** At a tick at `t`, the value the state machine holds is emitted exactly when the reference
      emits one, and it is the same value. */
  lemma SampleEmittedAgree(xs: seq<Recorded>, onlyNew: bool, prev: int, t: int, d: Option<int>)
    requires xs != [] ==> xs[0].time > prev
    ensures var e2 := LatestValue(xs, t, if onlyNew then None else d);
            var v := LatestValue(xs, t, d);
            (if e2.Some? then [Recorded(t, Next(e2.value))] else [])
            == (if v.Some? && (!onlyNew || FreshIn(xs, prev, t)) then [Recorded(t, Next(v.value))] else [])
  {
    FreshLatest(xs, prev, t, d);
  }

  /** One sampler tick of the state machine with no source message due by then. */
  lemma SampleFromTickNext(xs: seq<Recorded>, ys: seq<Recorded>, onlyNew: bool, bound: int, e: Option<int>)
    requires ys != [] && ys[0].time <= bound && ys[0].note.Next? && (xs == [] || xs[0].time > ys[0].time)
    ensures var emitted := if e.Some? then [Recorded(ys[0].time, Next(e.value))] else [];
            var rest := SampleFrom(xs, ys[1..], onlyNew, bound, if onlyNew then None else e, None);
            SampleFrom(xs, ys, onlyNew, bound, e, None) == SampleOutcome(emitted + rest.messages, rest.sourceEnd, rest.samplerEnd)
  {
  }

  /** One sampler tick of the reference while the source is still live. */
  lemma SampleTicksNext(s: seq<Recorded>, ys: seq<Recorded>, onlyNew: bool, bound: int, prev: int, d: Option<int>)
    requires ys != [] && ys[0].time <= bound && ys[0].note.Next?
    requires TerminalOf(s).None? || TerminalOf(s).value.time > ys[0].time
    ensures var v := LatestValue(s, ys[0].time, d);
            var emitted := if v.Some? && (!onlyNew || FreshIn(s, prev, ys[0].time)) then [Recorded(ys[0].time, Next(v.value))] else [];
            SampleTicks(s, ys, onlyNew, bound, prev, d) == emitted + SampleTicks(s, ys[1..], onlyNew, bound, ys[0].time, d)
  {
  }

  /** A sampler terminal while the source is still live. */
  lemma {:induction false} SampleFromMatchesStop(xs: seq<Recorded>, ys: seq<Recorded>, onlyNew: bool, bound: int,
                                                prev: int, d: Option<int>)
    requires Ordered(xs) && Ordered(ys)
    requires (xs != [] ==> xs[0].time > prev) && (ys != [] ==> ys[0].time >= prev)
    requires ys != [] && ys[0].time <= bound
    requires TerminalOf(xs).None? || TerminalOf(xs).value.time > ys[0].time
    requires !ys[0].note.Next?
    ensures var o := SampleFrom(xs, ys, onlyNew, bound, if onlyNew then None else d, None);
            o.messages == SampleTicks(xs, ys, onlyNew, bound, prev, d)
            && o.sourceEnd == SourceEndBy(TerminalOf(xs), o.samplerEnd)
    decreases |ys|, 0
  {
    var t := ys[0].time;
    var e := if onlyNew then None else d;
    SampleFromCatchUp(xs, ys, onlyNew, bound, e, t);
    FreshLatest(xs, prev, t, d);
    var o := SampleFrom(After(xs, t), ys, onlyNew, bound, LatestValue(xs, t, e), None);
    assert o.messages == SampleTicks(xs, ys, onlyNew, bound, prev, d);
  }

  /** sample and sampleLatest are the tick-by-tick reference on time-ordered streams. */
  lemma SampleMatchesReference(xs: seq<Recorded>, ys: seq<Recorded>, onlyNew: bool, bound: int)
    requires Ordered(xs) && Ordered(ys)
    ensures Sampled(xs, ys, onlyNew, bound) == SampleReference(xs, ys, onlyNew, bound)
  {
    VisibleIsLate(xs);
    VisibleIsLate(ys);
    SampleFromMatchesTicks(Visible(xs), Visible(ys), onlyNew, bound, Subscribed, None);
  }

  // ---------------------------------------------------------------------------
  // The scenarios of the test suite. Sampler values are ignored and written as 0.

  /** The later steps of the state machine in the scenario below, from its end back. */
  lemma SampleSamplerThrowsSteps1()
    ensures SampleFrom([OnNext(290, 4), OnNext(300, 5), OnNext(310, 6), OnCompleted(400)], [OnError(320)], true, Disposed, None, None)
        == SampleOutcome([OnError(320)], 320, 320)
  {
    assert SampleFrom([OnCompleted(400)], [OnError(320)], true, Disposed, Some(6), None)
        == SampleOutcome([OnError(320)], 320, 320);
    assert SampleFrom([OnNext(310, 6), OnCompleted(400)], [OnError(320)], true, Disposed, Some(5), None)
        == SampleOutcome([OnError(320)], 320, 320);
    assert SampleFrom([OnNext(300, 5), OnNext(310, 6), OnCompleted(400)], [OnError(320)], true, Disposed, Some(4), None)
        == SampleOutcome([OnError(320)], 320, 320);
  }

  /** The later steps of the state machine in the scenario below, from its end back. */
  lemma SampleSamplerThrowsSteps()
    ensures SampleFrom([OnNext(290, 4), OnNext(300, 5), OnNext(310, 6), OnCompleted(400)], [OnNext(250, 0), OnNext(260, 0), OnError(320)], true, Disposed, Some(3), None)
        == SampleOutcome([OnNext(250, 3), OnError(320)], 320, 320)
  {
    SampleSamplerThrowsSteps1();
    assert SampleFrom([OnNext(290, 4), OnNext(300, 5), OnNext(310, 6), OnCompleted(400)], [OnNext(260, 0), OnError(320)], true, Disposed, None, None)
        == SampleOutcome([OnError(320)], 320, 320);
  }

  lemma SampleSamplerThrowsTest()
    ensures Sample([OnNext(150, 1), OnNext(220, 2), OnNext(240, 3), OnNext(290, 4), OnNext(300, 5), OnNext(310, 6),
                    OnCompleted(400)],
                   [OnNext(150, 0), OnNext(210, 0), OnNext(250, 0), OnNext(260, 0), OnError(320)], Disposed)
         == SampleRun([OnNext(250, 3), OnError(320)], [Subscription(200, 320)], [Subscription(200, 320)])
  {
    var xs := [OnNext(150, 1), OnNext(220, 2), OnNext(240, 3), OnNext(290, 4), OnNext(300, 5), OnNext(310, 6), OnCompleted(400)];
    var vx := [OnNext(220, 2), OnNext(240, 3), OnNext(290, 4), OnNext(300, 5), OnNext(310, 6), OnCompleted(400)];
    var ys := [OnNext(150, 0), OnNext(210, 0), OnNext(250, 0), OnNext(260, 0), OnError(320)];
    var vy := [OnNext(210, 0), OnNext(250, 0), OnNext(260, 0), OnError(320)];
    assert xs[0].time <= Subscribed && xs[1..] == vx && vx[0].time > Subscribed;
    assert ys[0].time <= Subscribed && ys[1..] == vy && vy[0].time > Subscribed;
    SampleSamplerThrowsSteps();
    assert SampleFrom([OnNext(240, 3), OnNext(290, 4), OnNext(300, 5), OnNext(310, 6), OnCompleted(400)], [OnNext(250, 0), OnNext(260, 0), OnError(320)], true, Disposed, Some(2), None)
        == SampleOutcome([OnNext(250, 3), OnError(320)], 320, 320);
    assert SampleFrom([OnNext(220, 2), OnNext(240, 3), OnNext(290, 4), OnNext(300, 5), OnNext(310, 6), OnCompleted(400)], [OnNext(250, 0), OnNext(260, 0), OnError(320)], true, Disposed, None, None)
        == SampleOutcome([OnNext(250, 3), OnError(320)], 320, 320);
    assert SampleFrom(vx, vy, true, Disposed, None, None) == SampleOutcome([OnNext(250, 3), OnError(320)], 320, 320);
  }

  /** The later steps of the state machine in the scenario below, from its end back. */
  lemma SampleSimple1Steps1()
    ensures SampleFrom([OnNext(310, 6), OnCompleted(400)], [OnNext(320, 0), OnCompleted(500)], true, Disposed, Some(5), None)
        == SampleOutcome([OnNext(320, 6), OnCompleted(500)], 400, 500)
  {
    assert SampleFrom([], [OnCompleted(500)], true, Disposed, None, Some(400))
        == SampleOutcome([OnCompleted(500)], 400, 500);
    assert SampleFrom([OnCompleted(400)], [OnCompleted(500)], true, Disposed, None, None)
        == SampleOutcome([OnCompleted(500)], 400, 500);
    assert SampleFrom([OnCompleted(400)], [OnNext(320, 0), OnCompleted(500)], true, Disposed, Some(6), None)
        == SampleOutcome([OnNext(320, 6), OnCompleted(500)], 400, 500);
  }

  /** The later steps of the state machine in the scenario below, from its end back. */
  lemma SampleSimple1Steps()
    ensures SampleFrom([OnNext(290, 4), OnNext(300, 5), OnNext(310, 6), OnCompleted(400)], [OnNext(250, 0), OnNext(260, 0), OnNext(320, 0), OnCompleted(500)], true, Disposed, Some(3), None)
        == SampleOutcome([OnNext(250, 3), OnNext(320, 6), OnCompleted(500)], 400, 500)
  {
    SampleSimple1Steps1();
    assert SampleFrom([OnNext(300, 5), OnNext(310, 6), OnCompleted(400)], [OnNext(320, 0), OnCompleted(500)], true, Disposed, Some(4), None)
        == SampleOutcome([OnNext(320, 6), OnCompleted(500)], 400, 500);
    assert SampleFrom([OnNext(290, 4), OnNext(300, 5), OnNext(310, 6), OnCompleted(400)], [OnNext(320, 0), OnCompleted(500)], true, Disposed, None, None)
        == SampleOutcome([OnNext(320, 6), OnCompleted(500)], 400, 500);
    assert SampleFrom([OnNext(290, 4), OnNext(300, 5), OnNext(310, 6), OnCompleted(400)], [OnNext(260, 0), OnNext(320, 0), OnCompleted(500)], true, Disposed, None, None)
        == SampleOutcome([OnNext(320, 6), OnCompleted(500)], 400, 500);
  }

  lemma SampleSimple1Test()
    ensures Sample([OnNext(150, 1), OnNext(220, 2), OnNext(240, 3), OnNext(290, 4), OnNext(300, 5), OnNext(310, 6),
                    OnCompleted(400)],
                   [OnNext(150, 0), OnNext(210, 0), OnNext(250, 0), OnNext(260, 0), OnNext(320, 0), OnCompleted(500)], Disposed)
         == SampleRun([OnNext(250, 3), OnNext(320, 6), OnCompleted(500)], [Subscription(200, 400)], [Subscription(200, 500)])
  {
    var xs := [OnNext(150, 1), OnNext(220, 2), OnNext(240, 3), OnNext(290, 4), OnNext(300, 5), OnNext(310, 6), OnCompleted(400)];
    var vx := [OnNext(220, 2), OnNext(240, 3), OnNext(290, 4), OnNext(300, 5), OnNext(310, 6), OnCompleted(400)];
    var ys := [OnNext(150, 0), OnNext(210, 0), OnNext(250, 0), OnNext(260, 0), OnNext(320, 0), OnCompleted(500)];
    var vy := [OnNext(210, 0), OnNext(250, 0), OnNext(260, 0), OnNext(320, 0), OnCompleted(500)];
    assert xs[0].time <= Subscribed && xs[1..] == vx && vx[0].time > Subscribed;
    assert ys[0].time <= Subscribed && ys[1..] == vy && vy[0].time > Subscribed;
    SampleSimple1Steps();
    assert SampleFrom([OnNext(240, 3), OnNext(290, 4), OnNext(300, 5), OnNext(310, 6), OnCompleted(400)], [OnNext(250, 0), OnNext(260, 0), OnNext(320, 0), OnCompleted(500)], true, Disposed, Some(2), None)
        == SampleOutcome([OnNext(250, 3), OnNext(320, 6), OnCompleted(500)], 400, 500);
    assert SampleFrom([OnNext(220, 2), OnNext(240, 3), OnNext(290, 4), OnNext(300, 5), OnNext(310, 6), OnCompleted(400)], [OnNext(250, 0), OnNext(260, 0), OnNext(320, 0), OnCompleted(500)], true, Disposed, None, None)
        == SampleOutcome([OnNext(250, 3), OnNext(320, 6), OnCompleted(500)], 400, 500);
    assert SampleFrom(vx, vy, true, Disposed, None, None) == SampleOutcome([OnNext(250, 3), OnNext(320, 6), OnCompleted(500)], 400, 500);
  }

  /** The later steps of the state machine in the scenario below, from its end back. */
  lemma SampleSimple2Steps1()
    ensures SampleFrom([OnNext(360, 7), OnCompleted(400)], [OnNext(320, 0), OnCompleted(500)], true, Disposed, Some(6), None)
        == SampleOutcome([OnNext(320, 6), OnNext(500, 7), OnCompleted(500)], 400, 500)
  {
    assert SampleFrom([], [OnCompleted(500)], true, Disposed, Some(7), Some(400))
        == SampleOutcome([OnNext(500, 7), OnCompleted(500)], 400, 500);
    assert SampleFrom([OnCompleted(400)], [OnCompleted(500)], true, Disposed, Some(7), None)
        == SampleOutcome([OnNext(500, 7), OnCompleted(500)], 400, 500);
    assert SampleFrom([OnNext(360, 7), OnCompleted(400)], [OnCompleted(500)], true, Disposed, None, None)
        == SampleOutcome([OnNext(500, 7), OnCompleted(500)], 400, 500);
  }

  /** The later steps of the state machine in the scenario below, from its end back. */
  lemma SampleSimple2Steps2()
    ensures SampleFrom([OnNext(290, 4), OnNext(300, 5), OnNext(310, 6), OnNext(360, 7), OnCompleted(400)], [OnNext(260, 0), OnNext(320, 0), OnCompleted(500)], true, Disposed, None, None)
        == SampleOutcome([OnNext(320, 6), OnNext(500, 7), OnCompleted(500)], 400, 500)
  {
    SampleSimple2Steps1();
    assert SampleFrom([OnNext(310, 6), OnNext(360, 7), OnCompleted(400)], [OnNext(320, 0), OnCompleted(500)], true, Disposed, Some(5), None)
        == SampleOutcome([OnNext(320, 6), OnNext(500, 7), OnCompleted(500)], 400, 500);
    assert SampleFrom([OnNext(300, 5), OnNext(310, 6), OnNext(360, 7), OnCompleted(400)], [OnNext(320, 0), OnCompleted(500)], true, Disposed, Some(4), None)
        == SampleOutcome([OnNext(320, 6), OnNext(500, 7), OnCompleted(500)], 400, 500);
    assert SampleFrom([OnNext(290, 4), OnNext(300, 5), OnNext(310, 6), OnNext(360, 7), OnCompleted(400)], [OnNext(320, 0), OnCompleted(500)], true, Disposed, None, None)
        == SampleOutcome([OnNext(320, 6), OnNext(500, 7), OnCompleted(500)], 400, 500);
  }

  /** The later steps of the state machine in the scenario below, from its end back. */
  lemma SampleSimple2Steps()
    ensures SampleFrom([OnNext(290, 4), OnNext(300, 5), OnNext(310, 6), OnNext(360, 7), OnCompleted(400)], [OnNext(250, 0), OnNext(260, 0), OnNext(320, 0), OnCompleted(500)], true, Disposed, Some(3), None)
        == SampleOutcome([OnNext(250, 3), OnNext(320, 6), OnNext(500, 7), OnCompleted(500)], 400, 500)
  {
    SampleSimple2Steps2();
  }

  lemma SampleSimple2Test()
    ensures Sample([OnNext(150, 1), OnNext(220, 2), OnNext(240, 3), OnNext(290, 4), OnNext(300, 5), OnNext(310, 6),
                    OnNext(360, 7), OnCompleted(400)],
                   [OnNext(150, 0), OnNext(210, 0), OnNext(250, 0), OnNext(260, 0), OnNext(320, 0), OnCompleted(500)], Disposed)
         == SampleRun([OnNext(250, 3), OnNext(320, 6), OnNext(500, 7), OnCompleted(500)],
                      [Subscription(200, 400)], [Subscription(200, 500)])
  {
    var xs := [OnNext(150, 1), OnNext(220, 2), OnNext(240, 3), OnNext(290, 4), OnNext(300, 5), OnNext(310, 6), OnNext(360, 7), OnCompleted(400)];
    var vx := [OnNext(220, 2), OnNext(240, 3), OnNext(290, 4), OnNext(300, 5), OnNext(310, 6), OnNext(360, 7), OnCompleted(400)];
    var ys := [OnNext(150, 0), OnNext(210, 0), OnNext(250, 0), OnNext(260, 0), OnNext(320, 0), OnCompleted(500)];
    var vy := [OnNext(210, 0), OnNext(250, 0), OnNext(260, 0), OnNext(320, 0), OnCompleted(500)];
    assert xs[0].time <= Subscribed && xs[1..] == vx && vx[0].time > Subscribed;
    assert ys[0].time <= Subscribed && ys[1..] == vy && vy[0].time > Subscribed;
    SampleSimple2Steps();
    assert SampleFrom([OnNext(240, 3), OnNext(290, 4), OnNext(300, 5), OnNext(310, 6), OnNext(360, 7), OnCompleted(400)], [OnNext(250, 0), OnNext(260, 0), OnNext(320, 0), OnCompleted(500)], true, Disposed, Some(2), None)
        == SampleOutcome([OnNext(250, 3), OnNext(320, 6), OnNext(500, 7), OnCompleted(500)], 400, 500);
    assert SampleFrom([OnNext(220, 2), OnNext(240, 3), OnNext(290, 4), OnNext(300, 5), OnNext(310, 6), OnNext(360, 7), OnCompleted(400)], [OnNext(250, 0), OnNext(260, 0), OnNext(320, 0), OnCompleted(500)], true, Disposed, None, None)
        == SampleOutcome([OnNext(250, 3), OnNext(320, 6), OnNext(500, 7), OnCompleted(500)], 400, 500);
    assert SampleFrom(vx, vy, true, Disposed, None, None) == SampleOutcome([OnNext(250, 3), OnNext(320, 6), OnNext(500, 7), OnCompleted(500)], 400, 500);
  }

  /** The later steps of the state machine in the scenario below, from its end back. */
  lemma SampleSimple3Steps1()
    ensures SampleFrom([OnNext(290, 4), OnCompleted(300)], [OnNext(260, 0), OnNext(320, 0), OnCompleted(500)], true, Disposed, None, None)
        == SampleOutcome([OnNext(320, 4), OnCompleted(320)], 300, 320)
  {
    assert SampleFrom([], [OnNext(320, 0), OnCompleted(500)], true, Disposed, Some(4), Some(300))
        == SampleOutcome([OnNext(320, 4), OnCompleted(320)], 300, 320);
    assert SampleFrom([OnCompleted(300)], [OnNext(320, 0), OnCompleted(500)], true, Disposed, Some(4), None)
        == SampleOutcome([OnNext(320, 4), OnCompleted(320)], 300, 320);
    assert SampleFrom([OnNext(290, 4), OnCompleted(300)], [OnNext(320, 0), OnCompleted(500)], true, Disposed, None, None)
        == SampleOutcome([OnNext(320, 4), OnCompleted(320)], 300, 320);
  }

  /** The later steps of the state machine in the scenario below, from its end back. */
  lemma SampleSimple3Steps()
    ensures SampleFrom([OnNext(290, 4), OnCompleted(300)], [OnNext(250, 0), OnNext(260, 0), OnNext(320, 0), OnCompleted(500)], true, Disposed, Some(3), None)
        == SampleOutcome([OnNext(250, 3), OnNext(320, 4), OnCompleted(320)], 300, 320)
  {
    SampleSimple3Steps1();
  }

  lemma SampleSimple3Test()
    ensures Sample([OnNext(150, 1), OnNext(220, 2), OnNext(240, 3), OnNext(290, 4), OnCompleted(300)],
                   [OnNext(150, 0), OnNext(210, 0), OnNext(250, 0), OnNext(260, 0), OnNext(320, 0), OnCompleted(500)], Disposed)
         == SampleRun([OnNext(250, 3), OnNext(320, 4), OnCompleted(320)], [Subscription(200, 300)], [Subscription(200, 320)])
  {
    var xs := [OnNext(150, 1), OnNext(220, 2), OnNext(240, 3), OnNext(290, 4), OnCompleted(300)];
    var vx := [OnNext(220, 2), OnNext(240, 3), OnNext(290, 4), OnCompleted(300)];
    var ys := [OnNext(150, 0), OnNext(210, 0), OnNext(250, 0), OnNext(260, 0), OnNext(320, 0), OnCompleted(500)];
    var vy := [OnNext(210, 0), OnNext(250, 0), OnNext(260, 0), OnNext(320, 0), OnCompleted(500)];
    assert xs[0].time <= Subscribed && xs[1..] == vx && vx[0].time > Subscribed;
    assert ys[0].time <= Subscribed && ys[1..] == vy && vy[0].time > Subscribed;
    SampleSimple3Steps();
    assert SampleFrom([OnNext(240, 3), OnNext(290, 4), OnCompleted(300)], [OnNext(250, 0), OnNext(260, 0), OnNext(320, 0), OnCompleted(500)], true, Disposed, Some(2), None)
        == SampleOutcome([OnNext(250, 3), OnNext(320, 4), OnCompleted(320)], 300, 320);
    assert SampleFrom([OnNext(220, 2), OnNext(240, 3), OnNext(290, 4), OnCompleted(300)], [OnNext(250, 0), OnNext(260, 0), OnNext(320, 0), OnCompleted(500)], true, Disposed, None, None)
        == SampleOutcome([OnNext(250, 3), OnNext(320, 4), OnCompleted(320)], 300, 320);
    assert SampleFrom(vx, vy, true, Disposed, None, None) == SampleOutcome([OnNext(250, 3), OnNext(320, 4), OnCompleted(320)], 300, 320);
  }

  /** The later steps of the state machine in the scenario below, from its end back. */
  lemma SampleSourceThrowsSteps1()
    ensures SampleFrom([OnNext(300, 5), OnNext(310, 6), OnError(320)], [OnNext(300, 0), OnCompleted(400)], true, Disposed, Some(4), None)
        == SampleOutcome([OnNext(300, 5), OnError(320)], 320, 320)
  {
    assert SampleFrom([OnError(320)], [OnCompleted(400)], true, Disposed, Some(6), None)
        == SampleOutcome([OnError(320)], 320, 320);
    assert SampleFrom([OnNext(310, 6), OnError(320)], [OnCompleted(400)], true, Disposed, None, None)
        == SampleOutcome([OnError(320)], 320, 320);
    assert SampleFrom([OnNext(310, 6), OnError(320)], [OnNext(300, 0), OnCompleted(400)], true, Disposed, Some(5), None)
        == SampleOutcome([OnNext(300, 5), OnError(320)], 320, 320);
  }

  /** The later steps of the state machine in the scenario below, from its end back. */
  lemma SampleSourceThrowsSteps()
    ensures SampleFrom([OnNext(290, 4), OnNext(300, 5), OnNext(310, 6), OnError(320)], [OnNext(250, 0), OnNext(260, 0), OnNext(300, 0), OnCompleted(400)], true, Disposed, Some(3), None)
        == SampleOutcome([OnNext(250, 3), OnNext(300, 5), OnError(320)], 320, 320)
  {
    SampleSourceThrowsSteps1();
    assert SampleFrom([OnNext(290, 4), OnNext(300, 5), OnNext(310, 6), OnError(320)], [OnNext(300, 0), OnCompleted(400)], true, Disposed, None, None)
        == SampleOutcome([OnNext(300, 5), OnError(320)], 320, 320);
    assert SampleFrom([OnNext(290, 4), OnNext(300, 5), OnNext(310, 6), OnError(320)], [OnNext(260, 0), OnNext(300, 0), OnCompleted(400)], true, Disposed, None, None)
        == SampleOutcome([OnNext(300, 5), OnError(320)], 320, 320);
  }

  lemma SampleSourceThrowsTest()
    ensures Sample([OnNext(150, 1), OnNext(220, 2), OnNext(240, 3), OnNext(290, 4), OnNext(300, 5), OnNext(310, 6),
                    OnError(320)],
                   [OnNext(150, 0), OnNext(210, 0), OnNext(250, 0), OnNext(260, 0), OnNext(300, 0), OnCompleted(400)], Disposed)
         == SampleRun([OnNext(250, 3), OnNext(300, 5), OnError(320)], [Subscription(200, 320)], [Subscription(200, 320)])
  {
    var xs := [OnNext(150, 1), OnNext(220, 2), OnNext(240, 3), OnNext(290, 4), OnNext(300, 5), OnNext(310, 6), OnError(320)];
    var vx := [OnNext(220, 2), OnNext(240, 3), OnNext(290, 4), OnNext(300, 5), OnNext(310, 6), OnError(320)];
    var ys := [OnNext(150, 0), OnNext(210, 0), OnNext(250, 0), OnNext(260, 0), OnNext(300, 0), OnCompleted(400)];
    var vy := [OnNext(210, 0), OnNext(250, 0), OnNext(260, 0), OnNext(300, 0), OnCompleted(400)];
    assert xs[0].time <= Subscribed && xs[1..] == vx && vx[0].time > Subscribed;
    assert ys[0].time <= Subscribed && ys[1..] == vy && vy[0].time > Subscribed;
    SampleSourceThrowsSteps();
    assert SampleFrom([OnNext(240, 3), OnNext(290, 4), OnNext(300, 5), OnNext(310, 6), OnError(320)], [OnNext(250, 0), OnNext(260, 0), OnNext(300, 0), OnCompleted(400)], true, Disposed, Some(2), None)
        == SampleOutcome([OnNext(250, 3), OnNext(300, 5), OnError(320)], 320, 320);
    assert SampleFrom([OnNext(220, 2), OnNext(240, 3), OnNext(290, 4), OnNext(300, 5), OnNext(310, 6), OnError(320)], [OnNext(250, 0), OnNext(260, 0), OnNext(300, 0), OnCompleted(400)], true, Disposed, None, None)
        == SampleOutcome([OnNext(250, 3), OnNext(300, 5), OnError(320)], 320, 320);
    assert SampleFrom(vx, vy, true, Disposed, None, None) == SampleOutcome([OnNext(250, 3), OnNext(300, 5), OnError(320)], 320, 320);
  }

  /** The later steps of the state machine in the scenario below, from its end back. */
  lemma SampleLatestSamplerThrowsSteps1()
    ensures SampleFrom([OnNext(290, 4), OnNext(300, 5), OnNext(310, 6), OnCompleted(400)], [OnError(320)], false, Disposed, Some(3), None)
        == SampleOutcome([OnError(320)], 320, 320)
  {
    assert SampleFrom([OnCompleted(400)], [OnError(320)], false, Disposed, Some(6), None)
        == SampleOutcome([OnError(320)], 320, 320);
    assert SampleFrom([OnNext(310, 6), OnCompleted(400)], [OnError(320)], false, Disposed, Some(5), None)
        == SampleOutcome([OnError(320)], 320, 320);
    assert SampleFrom([OnNext(300, 5), OnNext(310, 6), OnCompleted(400)], [OnError(320)], false, Disposed, Some(4), None)
        == SampleOutcome([OnError(320)], 320, 320);
  }

  /** The later steps of the state machine in the scenario below, from its end back. */
  lemma SampleLatestSamplerThrowsSteps()
    ensures SampleFrom([OnNext(290, 4), OnNext(300, 5), OnNext(310, 6), OnCompleted(400)], [OnNext(250, 0), OnNext(260, 0), OnError(320)], false, Disposed, Some(3), None)
        == SampleOutcome([OnNext(250, 3), OnNext(260, 3), OnError(320)], 320, 320)
  {
    SampleLatestSamplerThrowsSteps1();
    assert SampleFrom([OnNext(290, 4), OnNext(300, 5), OnNext(310, 6), OnCompleted(400)], [OnNext(260, 0), OnError(320)], false, Disposed, Some(3), None)
        == SampleOutcome([OnNext(260, 3), OnError(320)], 320, 320);
  }

  lemma SampleLatestSamplerThrowsTest()
    ensures SampleLatest([OnNext(150, 1), OnNext(220, 2), OnNext(240, 3), OnNext(290, 4), OnNext(300, 5), OnNext(310, 6),
                    OnCompleted(400)],
                         [OnNext(150, 0), OnNext(210, 0), OnNext(250, 0), OnNext(260, 0), OnError(320)], Disposed)
         == SampleRun([OnNext(250, 3), OnNext(260, 3), OnError(320)], [Subscription(200, 320)], [Subscription(200, 320)])
  {
    var xs := [OnNext(150, 1), OnNext(220, 2), OnNext(240, 3), OnNext(290, 4), OnNext(300, 5), OnNext(310, 6), OnCompleted(400)];
    var vx := [OnNext(220, 2), OnNext(240, 3), OnNext(290, 4), OnNext(300, 5), OnNext(310, 6), OnCompleted(400)];
    var ys := [OnNext(150, 0), OnNext(210, 0), OnNext(250, 0), OnNext(260, 0), OnError(320)];
    var vy := [OnNext(210, 0), OnNext(250, 0), OnNext(260, 0), OnError(320)];
    assert xs[0].time <= Subscribed && xs[1..] == vx && vx[0].time > Subscribed;
    assert ys[0].time <= Subscribed && ys[1..] == vy && vy[0].time > Subscribed;
    SampleLatestSamplerThrowsSteps();
    assert SampleFrom([OnNext(240, 3), OnNext(290, 4), OnNext(300, 5), OnNext(310, 6), OnCompleted(400)], [OnNext(250, 0), OnNext(260, 0), OnError(320)], false, Disposed, Some(2), None)
        == SampleOutcome([OnNext(250, 3), OnNext(260, 3), OnError(320)], 320, 320);
    assert SampleFrom([OnNext(220, 2), OnNext(240, 3), OnNext(290, 4), OnNext(300, 5), OnNext(310, 6), OnCompleted(400)], [OnNext(250, 0), OnNext(260, 0), OnError(320)], false, Disposed, None, None)
        == SampleOutcome([OnNext(250, 3), OnNext(260, 3), OnError(320)], 320, 320);
    assert SampleFrom(vx, vy, false, Disposed, None, None) == SampleOutcome([OnNext(250, 3), OnNext(260, 3), OnError(320)], 320, 320);
  }

  /** The later steps of the state machine in the scenario below, from its end back. */
  lemma SampleLatestSimple1Steps1()
    ensures SampleFrom([OnNext(310, 6), OnCompleted(400)], [OnNext(320, 0), OnCompleted(500)], false, Disposed, Some(5), None)
        == SampleOutcome([OnNext(320, 6), OnNext(500, 6), OnCompleted(500)], 400, 500)
  {
    assert SampleFrom([], [OnCompleted(500)], false, Disposed, Some(6), Some(400))
        == SampleOutcome([OnNext(500, 6), OnCompleted(500)], 400, 500);
    assert SampleFrom([OnCompleted(400)], [OnCompleted(500)], false, Disposed, Some(6), None)
        == SampleOutcome([OnNext(500, 6), OnCompleted(500)], 400, 500);
    assert SampleFrom([OnCompleted(400)], [OnNext(320, 0), OnCompleted(500)], false, Disposed, Some(6), None)
        == SampleOutcome([OnNext(320, 6), OnNext(500, 6), OnCompleted(500)], 400, 500);
  }

  /** The later steps of the state machine in the scenario below, from its end back. */
  lemma SampleLatestSimple1Steps()
    ensures SampleFrom([OnNext(290, 4), OnNext(300, 5), OnNext(310, 6), OnCompleted(400)], [OnNext(250, 0), OnNext(260, 0), OnNext(320, 0), OnCompleted(500)], false, Disposed, Some(3), None)
        == SampleOutcome([OnNext(250, 3), OnNext(260, 3), OnNext(320, 6), OnNext(500, 6), OnCompleted(500)], 400, 500)
  {
    SampleLatestSimple1Steps1();
    assert SampleFrom([OnNext(300, 5), OnNext(310, 6), OnCompleted(400)], [OnNext(320, 0), OnCompleted(500)], false, Disposed, Some(4), None)
        == SampleOutcome([OnNext(320, 6), OnNext(500, 6), OnCompleted(500)], 400, 500);
    assert SampleFrom([OnNext(290, 4), OnNext(300, 5), OnNext(310, 6), OnCompleted(400)], [OnNext(320, 0), OnCompleted(500)], false, Disposed, Some(3), None)
        == SampleOutcome([OnNext(320, 6), OnNext(500, 6), OnCompleted(500)], 400, 500);
    assert SampleFrom([OnNext(290, 4), OnNext(300, 5), OnNext(310, 6), OnCompleted(400)], [OnNext(260, 0), OnNext(320, 0), OnCompleted(500)], false, Disposed, Some(3), None)
        == SampleOutcome([OnNext(260, 3), OnNext(320, 6), OnNext(500, 6), OnCompleted(500)], 400, 500);
  }

  lemma SampleLatestSimple1Test()
    ensures SampleLatest([OnNext(150, 1), OnNext(220, 2), OnNext(240, 3), OnNext(290, 4), OnNext(300, 5), OnNext(310, 6),
                    OnCompleted(400)],
                         [OnNext(150, 0), OnNext(210, 0), OnNext(250, 0), OnNext(260, 0), OnNext(320, 0), OnCompleted(500)], Disposed)
         == SampleRun([OnNext(250, 3), OnNext(260, 3), OnNext(320, 6), OnNext(500, 6), OnCompleted(500)],
                      [Subscription(200, 400)], [Subscription(200, 500)])
  {
    var xs := [OnNext(150, 1), OnNext(220, 2), OnNext(240, 3), OnNext(290, 4), OnNext(300, 5), OnNext(310, 6), OnCompleted(400)];
    var vx := [OnNext(220, 2), OnNext(240, 3), OnNext(290, 4), OnNext(300, 5), OnNext(310, 6), OnCompleted(400)];
    var ys := [OnNext(150, 0), OnNext(210, 0), OnNext(250, 0), OnNext(260, 0), OnNext(320, 0), OnCompleted(500)];
    var vy := [OnNext(210, 0), OnNext(250, 0), OnNext(260, 0), OnNext(320, 0), OnCompleted(500)];
    assert xs[0].time <= Subscribed && xs[1..] == vx && vx[0].time > Subscribed;
    assert ys[0].time <= Subscribed && ys[1..] == vy && vy[0].time > Subscribed;
    SampleLatestSimple1Steps();
    assert SampleFrom([OnNext(240, 3), OnNext(290, 4), OnNext(300, 5), OnNext(310, 6), OnCompleted(400)], [OnNext(250, 0), OnNext(260, 0), OnNext(320, 0), OnCompleted(500)], false, Disposed, Some(2), None)
        == SampleOutcome([OnNext(250, 3), OnNext(260, 3), OnNext(320, 6), OnNext(500, 6), OnCompleted(500)], 400, 500);
    assert SampleFrom([OnNext(220, 2), OnNext(240, 3), OnNext(290, 4), OnNext(300, 5), OnNext(310, 6), OnCompleted(400)], [OnNext(250, 0), OnNext(260, 0), OnNext(320, 0), OnCompleted(500)], false, Disposed, None, None)
        == SampleOutcome([OnNext(250, 3), OnNext(260, 3), OnNext(320, 6), OnNext(500, 6), OnCompleted(500)], 400, 500);
    assert SampleFrom(vx, vy, false, Disposed, None, None) == SampleOutcome([OnNext(250, 3), OnNext(260, 3), OnNext(320, 6), OnNext(500, 6), OnCompleted(500)], 400, 500);
  }

  /** The later steps of the state machine in the scenario below, from its end back. */
  lemma SampleLatestSimple2Steps1()
    ensures SampleFrom([OnNext(360, 7), OnCompleted(400)], [OnNext(320, 0), OnCompleted(500)], false, Disposed, Some(6), None)
        == SampleOutcome([OnNext(320, 6), OnNext(500, 7), OnCompleted(500)], 400, 500)
  {
    assert SampleFrom([], [OnCompleted(500)], false, Disposed, Some(7), Some(400))
        == SampleOutcome([OnNext(500, 7), OnCompleted(500)], 400, 500);
    assert SampleFrom([OnCompleted(400)], [OnCompleted(500)], false, Disposed, Some(7), None)
        == SampleOutcome([OnNext(500, 7), OnCompleted(500)], 400, 500);
    assert SampleFrom([OnNext(360, 7), OnCompleted(400)], [OnCompleted(500)], false, Disposed, Some(6), None)
        == SampleOutcome([OnNext(500, 7), OnCompleted(500)], 400, 500);
  }

  /** The later steps of the state machine in the scenario below, from its end back. */
  lemma SampleLatestSimple2Steps2()
    ensures SampleFrom([OnNext(290, 4), OnNext(300, 5), OnNext(310, 6), OnNext(360, 7), OnCompleted(400)], [OnNext(260, 0), OnNext(320, 0), OnCompleted(500)], false, Disposed, Some(3), None)
        == SampleOutcome([OnNext(260, 3), OnNext(320, 6), OnNext(500, 7), OnCompleted(500)], 400, 500)
  {
    SampleLatestSimple2Steps1();
    assert SampleFrom([OnNext(310, 6), OnNext(360, 7), OnCompleted(400)], [OnNext(320, 0), OnCompleted(500)], false, Disposed, Some(5), None)
        == SampleOutcome([OnNext(320, 6), OnNext(500, 7), OnCompleted(500)], 400, 500);
    assert SampleFrom([OnNext(300, 5), OnNext(310, 6), OnNext(360, 7), OnCompleted(400)], [OnNext(320, 0), OnCompleted(500)], false, Disposed, Some(4), None)
        == SampleOutcome([OnNext(320, 6), OnNext(500, 7), OnCompleted(500)], 400, 500);
    assert SampleFrom([OnNext(290, 4), OnNext(300, 5), OnNext(310, 6), OnNext(360, 7), OnCompleted(400)], [OnNext(320, 0), OnCompleted(500)], false, Disposed, Some(3), None)
        == SampleOutcome([OnNext(320, 6), OnNext(500, 7), OnCompleted(500)], 400, 500);
  }

  /** The later steps of the state machine in the scenario below, from its end back. */
  lemma SampleLatestSimple2Steps()
    ensures SampleFrom([OnNext(290, 4), OnNext(300, 5), OnNext(310, 6), OnNext(360, 7), OnCompleted(400)], [OnNext(250, 0), OnNext(260, 0), OnNext(320, 0), OnCompleted(500)], false, Disposed, Some(3), None)
        == SampleOutcome([OnNext(250, 3), OnNext(260, 3), OnNext(320, 6), OnNext(500, 7), OnCompleted(500)], 400, 500)
  {
    SampleLatestSimple2Steps2();
  }

  lemma SampleLatestSimple2Test()
    ensures SampleLatest([OnNext(150, 1), OnNext(220, 2), OnNext(240, 3), OnNext(290, 4), OnNext(300, 5), OnNext(310, 6),
                    OnNext(360, 7), OnCompleted(400)],
                         [OnNext(150, 0), OnNext(210, 0), OnNext(250, 0), OnNext(260, 0), OnNext(320, 0), OnCompleted(500)], Disposed)
         == SampleRun([OnNext(250, 3), OnNext(260, 3), OnNext(320, 6), OnNext(500, 7), OnCompleted(500)],
                      [Subscription(200, 400)], [Subscription(200, 500)])
  {
    var xs := [OnNext(150, 1), OnNext(220, 2), OnNext(240, 3), OnNext(290, 4), OnNext(300, 5), OnNext(310, 6), OnNext(360, 7), OnCompleted(400)];
    var vx := [OnNext(220, 2), OnNext(240, 3), OnNext(290, 4), OnNext(300, 5), OnNext(310, 6), OnNext(360, 7), OnCompleted(400)];
    var ys := [OnNext(150, 0), OnNext(210, 0), OnNext(250, 0), OnNext(260, 0), OnNext(320, 0), OnCompleted(500)];
    var vy := [OnNext(210, 0), OnNext(250, 0), OnNext(260, 0), OnNext(320, 0), OnCompleted(500)];
    assert xs[0].time <= Subscribed && xs[1..] == vx && vx[0].time > Subscribed;
    assert ys[0].time <= Subscribed && ys[1..] == vy && vy[0].time > Subscribed;
    SampleLatestSimple2Steps();
    assert SampleFrom([OnNext(240, 3), OnNext(290, 4), OnNext(300, 5), OnNext(310, 6), OnNext(360, 7), OnCompleted(400)], [OnNext(250, 0), OnNext(260, 0), OnNext(320, 0), OnCompleted(500)], false, Disposed, Some(2), None)
        == SampleOutcome([OnNext(250, 3), OnNext(260, 3), OnNext(320, 6), OnNext(500, 7), OnCompleted(500)], 400, 500);
    assert SampleFrom([OnNext(220, 2), OnNext(240, 3), OnNext(290, 4), OnNext(300, 5), OnNext(310, 6), OnNext(360, 7), OnCompleted(400)], [OnNext(250, 0), OnNext(260, 0), OnNext(320, 0), OnCompleted(500)], false, Disposed, None, None)
        == SampleOutcome([OnNext(250, 3), OnNext(260, 3), OnNext(320, 6), OnNext(500, 7), OnCompleted(500)], 400, 500);
    assert SampleFrom(vx, vy, false, Disposed, None, None) == SampleOutcome([OnNext(250, 3), OnNext(260, 3), OnNext(320, 6), OnNext(500, 7), OnCompleted(500)], 400, 500);
  }

  /** The later steps of the state machine in the scenario below, from its end back. */
  lemma SampleLatestSimple3Steps1()
    ensures SampleFrom([OnNext(290, 4), OnCompleted(300)], [OnNext(260, 0), OnNext(320, 0), OnCompleted(500)], false, Disposed, Some(3), None)
        == SampleOutcome([OnNext(260, 3), OnNext(320, 4), OnCompleted(320)], 300, 320)
  {
    assert SampleFrom([], [OnNext(320, 0), OnCompleted(500)], false, Disposed, Some(4), Some(300))
        == SampleOutcome([OnNext(320, 4), OnCompleted(320)], 300, 320);
    assert SampleFrom([OnCompleted(300)], [OnNext(320, 0), OnCompleted(500)], false, Disposed, Some(4), None)
        == SampleOutcome([OnNext(320, 4), OnCompleted(320)], 300, 320);
    assert SampleFrom([OnNext(290, 4), OnCompleted(300)], [OnNext(320, 0), OnCompleted(500)], false, Disposed, Some(3), None)
        == SampleOutcome([OnNext(320, 4), OnCompleted(320)], 300, 320);
  }

  /** The later steps of the state machine in the scenario below, from its end back. */
  lemma SampleLatestSimple3Steps()
    ensures SampleFrom([OnNext(290, 4), OnCompleted(300)], [OnNext(250, 0), OnNext(260, 0), OnNext(320, 0), OnCompleted(500)], false, Disposed, Some(3), None)
        == SampleOutcome([OnNext(250, 3), OnNext(260, 3), OnNext(320, 4), OnCompleted(320)], 300, 320)
  {
    SampleLatestSimple3Steps1();
  }

  lemma SampleLatestSimple3Test()
    ensures SampleLatest([OnNext(150, 1), OnNext(220, 2), OnNext(240, 3), OnNext(290, 4), OnCompleted(300)],
                         [OnNext(150, 0), OnNext(210, 0), OnNext(250, 0), OnNext(260, 0), OnNext(320, 0), OnCompleted(500)], Disposed)
         == SampleRun([OnNext(250, 3), OnNext(260, 3), OnNext(320, 4), OnCompleted(320)],
                      [Subscription(200, 300)], [Subscription(200, 320)])
  {
    var xs := [OnNext(150, 1), OnNext(220, 2), OnNext(240, 3), OnNext(290, 4), OnCompleted(300)];
    var vx := [OnNext(220, 2), OnNext(240, 3), OnNext(290, 4), OnCompleted(300)];
    var ys := [OnNext(150, 0), OnNext(210, 0), OnNext(250, 0), OnNext(260, 0), OnNext(320, 0), OnCompleted(500)];
    var vy := [OnNext(210, 0), OnNext(250, 0), OnNext(260, 0), OnNext(320, 0), OnCompleted(500)];
    assert xs[0].time <= Subscribed && xs[1..] == vx && vx[0].time > Subscribed;
    assert ys[0].time <= Subscribed && ys[1..] == vy && vy[0].time > Subscribed;
    SampleLatestSimple3Steps();
    assert SampleFrom([OnNext(240, 3), OnNext(290, 4), OnCompleted(300)], [OnNext(250, 0), OnNext(260, 0), OnNext(320, 0), OnCompleted(500)], false, Disposed, Some(2), None)
        == SampleOutcome([OnNext(250, 3), OnNext(260, 3), OnNext(320, 4), OnCompleted(320)], 300, 320);
    assert SampleFrom([OnNext(220, 2), OnNext(240, 3), OnNext(290, 4), OnCompleted(300)], [OnNext(250, 0), OnNext(260, 0), OnNext(320, 0), OnCompleted(500)], false, Disposed, None, None)
        == SampleOutcome([OnNext(250, 3), OnNext(260, 3), OnNext(320, 4), OnCompleted(320)], 300, 320);
    assert SampleFrom(vx, vy, false, Disposed, None, None) == SampleOutcome([OnNext(250, 3), OnNext(260, 3), OnNext(320, 4), OnCompleted(320)], 300, 320);
  }

  /** The later steps of the state machine in the scenario below, from its end back. */
  lemma SampleLatestSourceThrowsSteps1()
    ensures SampleFrom([OnNext(300, 5), OnNext(310, 6), OnError(320)], [OnNext(300, 0), OnCompleted(400)], false, Disposed, Some(4), None)
        == SampleOutcome([OnNext(300, 5), OnError(320)], 320, 320)
  {
    assert SampleFrom([OnError(320)], [OnCompleted(400)], false, Disposed, Some(6), None)
        == SampleOutcome([OnError(320)], 320, 320);
    assert SampleFrom([OnNext(310, 6), OnError(320)], [OnCompleted(400)], false, Disposed, Some(5), None)
        == SampleOutcome([OnError(320)], 320, 320);
    assert SampleFrom([OnNext(310, 6), OnError(320)], [OnNext(300, 0), OnCompleted(400)], false, Disposed, Some(5), None)
        == SampleOutcome([OnNext(300, 5), OnError(320)], 320, 320);
  }

  /** The later steps of the state machine in the scenario below, from its end back. */
  lemma SampleLatestSourceThrowsSteps()
    ensures SampleFrom([OnNext(290, 4), OnNext(300, 5), OnNext(310, 6), OnError(320)], [OnNext(250, 0), OnNext(260, 0), OnNext(300, 0), OnCompleted(400)], false, Disposed, Some(3), None)
        == SampleOutcome([OnNext(250, 3), OnNext(260, 3), OnNext(300, 5), OnError(320)], 320, 320)
  {
    SampleLatestSourceThrowsSteps1();
    assert SampleFrom([OnNext(290, 4), OnNext(300, 5), OnNext(310, 6), OnError(320)], [OnNext(300, 0), OnCompleted(400)], false, Disposed, Some(3), None)
        == SampleOutcome([OnNext(300, 5), OnError(320)], 320, 320);
    assert SampleFrom([OnNext(290, 4), OnNext(300, 5), OnNext(310, 6), OnError(320)], [OnNext(260, 0), OnNext(300, 0), OnCompleted(400)], false, Disposed, Some(3), None)
        == SampleOutcome([OnNext(260, 3), OnNext(300, 5), OnError(320)], 320, 320);
  }

  lemma SampleLatestSourceThrowsTest()
    ensures SampleLatest([OnNext(150, 1), OnNext(220, 2), OnNext(240, 3), OnNext(290, 4), OnNext(300, 5), OnNext(310, 6),
                    OnError(320)],
                         [OnNext(150, 0), OnNext(210, 0), OnNext(250, 0), OnNext(260, 0), OnNext(300, 0), OnCompleted(400)], Disposed)
         == SampleRun([OnNext(250, 3), OnNext(260, 3), OnNext(300, 5), OnError(320)],
                      [Subscription(200, 320)], [Subscription(200, 320)])
  {
    var xs := [OnNext(150, 1), OnNext(220, 2), OnNext(240, 3), OnNext(290, 4), OnNext(300, 5), OnNext(310, 6), OnError(320)];
    var vx := [OnNext(220, 2), OnNext(240, 3), OnNext(290, 4), OnNext(300, 5), OnNext(310, 6), OnError(320)];
    var ys := [OnNext(150, 0), OnNext(210, 0), OnNext(250, 0), OnNext(260, 0), OnNext(300, 0), OnCompleted(400)];
    var vy := [OnNext(210, 0), OnNext(250, 0), OnNext(260, 0), OnNext(300, 0), OnCompleted(400)];
    assert xs[0].time <= Subscribed && xs[1..] == vx && vx[0].time > Subscribed;
    assert ys[0].time <= Subscribed && ys[1..] == vy && vy[0].time > Subscribed;
    SampleLatestSourceThrowsSteps();
    assert SampleFrom([OnNext(240, 3), OnNext(290, 4), OnNext(300, 5), OnNext(310, 6), OnError(320)], [OnNext(250, 0), OnNext(260, 0), OnNext(300, 0), OnCompleted(400)], false, Disposed, Some(2), None)
        == SampleOutcome([OnNext(250, 3), OnNext(260, 3), OnNext(300, 5), OnError(320)], 320, 320);
    assert SampleFrom([OnNext(220, 2), OnNext(240, 3), OnNext(290, 4), OnNext(300, 5), OnNext(310, 6), OnError(320)], [OnNext(250, 0), OnNext(260, 0), OnNext(300, 0), OnCompleted(400)], false, Disposed, None, None)
        == SampleOutcome([OnNext(250, 3), OnNext(260, 3), OnNext(300, 5), OnError(320)], 320, 320);
    assert SampleFrom(vx, vy, false, Disposed, None, None) == SampleOutcome([OnNext(250, 3), OnNext(260, 3), OnNext(300, 5), OnError(320)], 320, 320);
  }

  // ---------------------------------------------------------------------------
  // The run on the test scheduler

  /** What a run of the sample test has still pending on the scheduler. The source's messages
      are queued first, then the sampler's, then the harness's subscription and disposal. */
  ghost function SampleQueue(xs: seq<Recorded>, ys: seq<Recorded>, nx: nat, ny: nat, bound: int,
                             subscribed: bool, disposePending: bool): set<Item>
  {
    var n := |xs| + |ys|;
    HotItems(0, 0, 0, xs, nx) + HotItems(0, |xs|, 1, ys, ny)
    + (if subscribed then {} else {Item(Subscribed, n, Subscribe)})
    + (if disposePending then {Item(bound, n + 1, Dispose)} else {})
  }

  lemma QueueActions(xs: seq<Recorded>, ys: seq<Recorded>, nx: nat, ny: nat, bound: int,
                     subscribed: bool, disposePending: bool, item: Item)
    requires item in SampleQueue(xs, ys, nx, ny, bound, subscribed, disposePending)
    ensures (item.action.HotNote? && item.action.source <= 1) || item.action.Subscribe? || item.action.Dispose?
  {
  }

  lemma QueueDrained(xs: seq<Recorded>, ys: seq<Recorded>, nx: nat, ny: nat, bound: int,
                     subscribed: bool, disposePending: bool)
    requires nx <= |xs| && ny <= |ys| && SampleQueue(xs, ys, nx, ny, bound, subscribed, disposePending) == {}
    ensures nx == |xs| && ny == |ys| && subscribed && !disposePending
  {
    HotItemsEmpty(0, 0, 0, xs, nx);
    HotItemsEmpty(0, |xs|, 1, ys, ny);
  }

  /** A source message runs first only if it is the source's next one and nothing else is due
      earlier; at equal times it runs before the sampler's message. */
  lemma SourceRunsFirst(xs: seq<Recorded>, ys: seq<Recorded>, nx: nat, ny: nat, bound: int,
                        subscribed: bool, disposePending: bool, item: Item)
    requires Ordered(xs) && nx <= |xs| && ny <= |ys|
    requires RunsFirst(SampleQueue(xs, ys, nx, ny, bound, subscribed, disposePending), item)
    requires item.action.HotNote? && item.action.source == 0
    ensures nx < |xs| && item == HotItem(0, 0, 0, xs, nx)
    ensures ny < |ys| ==> item.due <= Adjusted(0, ys[ny].time)
    ensures disposePending ==> item.due <= bound
    ensures !subscribed ==> item.due <= Subscribed
    ensures SampleQueue(xs, ys, nx, ny, bound, subscribed, disposePending) - {item}
         == SampleQueue(xs, ys, nx + 1, ny, bound, subscribed, disposePending)
  {
    var q := SampleQueue(xs, ys, nx, ny, bound, subscribed, disposePending);
    assert item in HotItems(0, 0, 0, xs, nx);
    HotItemsSplit(0, 0, 0, xs, nx);
    var h := HotItem(0, 0, 0, xs, nx);
    assert h in q;
    HotFirst(0, 0, 0, xs, nx, item);
    if ny < |ys| {
      assert HotItem(0, |xs|, 1, ys, ny) in q;
    }
    if disposePending {
      assert Item(bound, |xs| + |ys| + 1, Dispose) in q;
    }
    if !subscribed {
      assert Item(Subscribed, |xs| + |ys|, Subscribe) in q;
    }
    assert h !in HotItems(0, 0, 0, xs, nx + 1);
    assert h !in HotItems(0, |xs|, 1, ys, ny);
  }

  /** A sampler message runs first only if it is the sampler's next one and the source's next
      message is due strictly later. */
  lemma SamplerRunsFirst(xs: seq<Recorded>, ys: seq<Recorded>, nx: nat, ny: nat, bound: int,
                         subscribed: bool, disposePending: bool, item: Item)
    requires Ordered(ys) && nx <= |xs| && ny <= |ys|
    requires RunsFirst(SampleQueue(xs, ys, nx, ny, bound, subscribed, disposePending), item)
    requires item.action.HotNote? && item.action.source == 1
    ensures ny < |ys| && item == HotItem(0, |xs|, 1, ys, ny)
    ensures nx < |xs| ==> item.due < Adjusted(0, xs[nx].time)
    ensures disposePending ==> item.due <= bound
    ensures !subscribed ==> item.due <= Subscribed
    ensures SampleQueue(xs, ys, nx, ny, bound, subscribed, disposePending) - {item}
         == SampleQueue(xs, ys, nx, ny + 1, bound, subscribed, disposePending)
  {
    var q := SampleQueue(xs, ys, nx, ny, bound, subscribed, disposePending);
    assert item in HotItems(0, |xs|, 1, ys, ny);
    HotItemsSplit(0, |xs|, 1, ys, ny);
    var h := HotItem(0, |xs|, 1, ys, ny);
    assert h in q;
    HotFirst(0, |xs|, 1, ys, ny, item);
    if nx < |xs| {
      assert HotItem(0, 0, 0, xs, nx) in q;
    }
    if disposePending {
      assert Item(bound, |xs| + |ys| + 1, Dispose) in q;
    }
    if !subscribed {
      assert Item(Subscribed, |xs| + |ys|, Subscribe) in q;
    }
    assert h !in HotItems(0, |xs|, 1, ys, ny + 1);
    assert h !in HotItems(0, 0, 0, xs, nx);
  }

  /** The subscription runs first only if both streams' next messages come after 200. */
  lemma SubscribeRunsFirst(xs: seq<Recorded>, ys: seq<Recorded>, nx: nat, ny: nat, bound: int,
                           subscribed: bool, disposePending: bool, item: Item)
    requires nx <= |xs| && ny <= |ys|
    requires RunsFirst(SampleQueue(xs, ys, nx, ny, bound, subscribed, disposePending), item) && item.action.Subscribe?
    ensures !subscribed && item == Item(Subscribed, |xs| + |ys|, Subscribe)
    ensures nx < |xs| ==> xs[nx].time > Subscribed
    ensures ny < |ys| ==> ys[ny].time > Subscribed
    ensures SampleQueue(xs, ys, nx, ny, bound, subscribed, disposePending) - {item}
         == SampleQueue(xs, ys, nx, ny, bound, true, disposePending)
  {
    var q := SampleQueue(xs, ys, nx, ny, bound, subscribed, disposePending);
    if nx < |xs| {
      assert HotItem(0, 0, 0, xs, nx) in q;
    }
    if ny < |ys| {
      assert HotItem(0, |xs|, 1, ys, ny) in q;
    }
  }

  /** The disposal runs first only after the subscription, once both streams' next messages are due
      after the bound. */
  lemma DisposeRunsFirst(xs: seq<Recorded>, ys: seq<Recorded>, nx: nat, ny: nat, bound: int,
                         subscribed: bool, disposePending: bool, item: Item)
    requires nx <= |xs| && ny <= |ys| && Subscribed <= bound
    requires RunsFirst(SampleQueue(xs, ys, nx, ny, bound, subscribed, disposePending), item) && item.action.Dispose?
    ensures subscribed && disposePending && item == Item(bound, |xs| + |ys| + 1, Dispose)
    ensures nx < |xs| ==> Adjusted(0, xs[nx].time) > bound
    ensures ny < |ys| ==> Adjusted(0, ys[ny].time) > bound
    ensures SampleQueue(xs, ys, nx, ny, bound, subscribed, disposePending) - {item}
         == SampleQueue(xs, ys, nx, ny, bound, subscribed, false)
  {
    var q := SampleQueue(xs, ys, nx, ny, bound, subscribed, disposePending);
    if nx < |xs| {
      assert HotItem(0, 0, 0, xs, nx) in q;
    }
    if ny < |ys| {
      assert HotItem(0, |xs|, 1, ys, ny) in q;
    }
  }

  /** The sample sink's state during a run, with what the observer and the two streams have
      recorded: how many messages of the source and of the sampler have been delivered, whether
      the harness has subscribed and whether its disposal is still pending, whether the sink has
      stopped, the value waiting to be sampled, when the source completed if it has, the recorded
      messages and where the two subscriptions ended. */
  datatype SampleState = SampleState(
    nx: nat, ny: nat, subscribed: bool, disposePending: bool, stopped: bool,
    element: Option<int>, sourceCompleted: Option<int>,
    messages: seq<Recorded>, sourceEnd: int, samplerEnd: int)

  ghost function Queue(xs: seq<Recorded>, ys: seq<Recorded>, bound: int, st: SampleState): set<Item>
  {
    SampleQueue(xs, ys, st.nx, st.ny, bound, st.subscribed, st.disposePending)
  }

  /** The source messages the sink still listens to: none once the source has completed. */
  function SourceLeft(xs: seq<Recorded>, st: SampleState): seq<Recorded>
    requires st.nx <= |xs|
  {
    if st.sourceCompleted.Some? then [] else xs[st.nx..]
  }

  /** The state agrees with the state machine: what is recorded so far, followed by what the state
      machine makes of the rest of both streams, is `goal`. */
  ghost predicate Consistent(xs: seq<Recorded>, ys: seq<Recorded>, onlyNew: bool, bound: int,
                             goal: SampleOutcome, st: SampleState)
  {
    && Ordered(xs) && Ordered(ys) && Subscribed <= bound
    && st.nx <= |xs| && st.ny <= |ys|
    && (!st.subscribed ==> && !st.stopped && st.disposePending && st.messages == []
                           && st.element.None? && st.sourceCompleted.None?
                           && (forall i :: 0 <= i < st.nx ==> xs[i].time <= Subscribed)
                           && (forall j :: 0 <= j < st.ny ==> ys[j].time <= Subscribed))
    && (st.subscribed && st.nx < |xs| ==> xs[st.nx].time > Subscribed)
    && (st.subscribed && st.ny < |ys| ==> ys[st.ny].time > Subscribed)
    && (st.subscribed && !st.stopped ==> st.disposePending)
    && (!st.disposePending ==> st.stopped)
    && (st.subscribed && !st.stopped ==>
          var rest := SampleFrom(SourceLeft(xs, st), ys[st.ny..], onlyNew, bound, st.element, st.sourceCompleted);
          SampleOutcome(st.messages + rest.messages, rest.sourceEnd, rest.samplerEnd) == goal)
    && (st.stopped ==> SampleOutcome(st.messages, st.sourceEnd, st.samplerEnd) == goal)
  }

  /** The source delivers a message to a subscribed, running sink that still listens to it: a value
      becomes the one to sample, an error is forwarded and stops the sink, a completion is noted
      and ends the source's subscription. */
  method OnSource(xs: seq<Recorded>, ys: seq<Recorded>, onlyNew: bool, bound: int, ghost goal: SampleOutcome,
                  st: SampleState, t: int)
    returns (st': SampleState)
    requires Consistent(xs, ys, onlyNew, bound, goal, st)
    requires st.subscribed && !st.stopped && st.sourceCompleted.None?
    requires st.nx < |xs| && t == xs[st.nx].time && t <= bound
    requires st.ny < |ys| ==> t <= ys[st.ny].time
    ensures Consistent(xs, ys, onlyNew, bound, goal, st') && st'.nx == st.nx + 1
    ensures st'.ny == st.ny && st'.subscribed && st'.disposePending
  {
    assert xs[st.nx..][0] == xs[st.nx] && xs[st.nx..][1..] == xs[st.nx + 1..];
    match xs[st.nx].note
    case Next(v) =>
      st' := st.(nx := st.nx + 1, element := Some(v));
    case Error =>
      st' := st.(nx := st.nx + 1, stopped := true, messages := st.messages + [Recorded(t, Error)],
                 sourceEnd := t, samplerEnd := t);
    case Completed =>
      st' := st.(nx := st.nx + 1, sourceCompleted := Some(t));
  }

  /** What the state machine does at a sampler tick that runs before anything else left while the
      source still runs. */
  lemma SamplerTickUnfold(xs: seq<Recorded>, ys: seq<Recorded>, onlyNew: bool, bound: int, element: Option<int>)
    requires ys != [] && ys[0].note.Next? && ys[0].time <= bound && (xs != [] ==> ys[0].time < xs[0].time)
    ensures var rest := SampleFrom(xs, ys[1..], onlyNew, bound, if onlyNew then None else element, None);
            var emitted := if element.Some? then [Recorded(ys[0].time, Next(element.value))] else [];
            SampleFrom(xs, ys, onlyNew, bound, element, None)
            == SampleOutcome(emitted + rest.messages, rest.sourceEnd, rest.samplerEnd)
  {
  }

  /** What the state machine does at a sampler message that ends the output. */
  lemma SamplerStopUnfold(xs: seq<Recorded>, ys: seq<Recorded>, onlyNew: bool, bound: int,
                          element: Option<int>, sourceEnd: Option<int>)
    requires ys != [] && ys[0].time <= bound && (xs != [] ==> ys[0].time < xs[0].time)
    requires !ys[0].note.Next? || sourceEnd.Some?
    ensures var t := ys[0].time;
            var emitted := if element.Some? then [Recorded(t, Next(element.value))] else [];
            var last := if ys[0].note.Error? then [Recorded(t, Error)] else emitted + [Recorded(t, Completed)];
            var end := if ys[0].note.Next? then sourceEnd.value else EndOr(sourceEnd, t);
            SampleFrom(xs, ys, onlyNew, bound, element, sourceEnd) == SampleOutcome(last, end, t)
  {
  }

  /** The sampler ticks at a subscribed, running sink: the waiting value is emitted (and, for
      `sample`, cleared); an error is forwarded; a completion, or any tick once the source has
      completed, ends the output. */
  method OnSampler(xs: seq<Recorded>, ys: seq<Recorded>, onlyNew: bool, bound: int, ghost goal: SampleOutcome,
                   st: SampleState, t: int)
    returns (st': SampleState)
    requires Consistent(xs, ys, onlyNew, bound, goal, st)
    requires st.subscribed && !st.stopped
    requires st.ny < |ys| && t == ys[st.ny].time && t <= bound
    requires st.sourceCompleted.None? && st.nx < |xs| ==> t < xs[st.nx].time
    ensures Consistent(xs, ys, onlyNew, bound, goal, st') && st'.ny == st.ny + 1
    ensures st'.nx == st.nx && st'.subscribed && st'.disposePending
  {
    var emitted := if st.element.Some? then [Recorded(t, Next(st.element.value))] else [];
    if ys[st.ny].note.Next? && st.sourceCompleted.None? {
      st' := st.(ny := st.ny + 1, element := if onlyNew then None else st.element, messages := st.messages + emitted);
      SamplerNextConsistent(xs, ys, onlyNew, bound, goal, st, st');
    } else {
      var last := if ys[st.ny].note.Error? then [Recorded(t, Error)] else emitted + [Recorded(t, Completed)];
      var sourceEnd := if ys[st.ny].note.Next? then st.sourceCompleted.value else EndOr(st.sourceCompleted, t);
      st' := st.(ny := st.ny + 1, stopped := true, messages := st.messages + last,
                 sourceEnd := sourceEnd, samplerEnd := t);
      SamplerStopConsistent(xs, ys, onlyNew, bound, goal, st, st');
    }
  }

  /** A sampler tick while the source still runs emits the waiting value, if any, and goes on. */
  lemma SamplerNextConsistent(xs: seq<Recorded>, ys: seq<Recorded>, onlyNew: bool, bound: int, goal: SampleOutcome,
                              st: SampleState, st': SampleState)
    requires Consistent(xs, ys, onlyNew, bound, goal, st)
    requires st.subscribed && !st.stopped && st.sourceCompleted.None?
    requires st.ny < |ys| && ys[st.ny].note.Next? && ys[st.ny].time <= bound
    requires st.nx < |xs| ==> ys[st.ny].time < xs[st.nx].time
    requires st' == st.(ny := st.ny + 1, element := if onlyNew then None else st.element,
                        messages := st.messages + (if st.element.Some? then [Recorded(ys[st.ny].time, Next(st.element.value))] else []))
    ensures Consistent(xs, ys, onlyNew, bound, goal, st')
  {
    var t := ys[st.ny].time;
    var emitted := if st.element.Some? then [Recorded(t, Next(st.element.value))] else [];
    var vx := xs[st.nx..];
    assert ys[st.ny..][0] == ys[st.ny] && ys[st.ny..][1..] == ys[st.ny + 1..];
    assert vx != [] ==> vx[0] == xs[st.nx];
    assert SourceLeft(xs, st) == vx && SourceLeft(xs, st') == vx;
    var rest := SampleFrom(vx, ys[st.ny + 1..], onlyNew, bound, st'.element, None);
    SamplerTickUnfold(vx, ys[st.ny..], onlyNew, bound, st.element);
    assert st'.messages == st.messages + emitted;
    AppendAssoc(st.messages, emitted, rest.messages);
    assert st.ny + 1 < |ys| ==> ys[st.ny + 1].time >= t;
  }

  /** A sampler error or completion, or a tick after the source completed, is the sink's last
      message, after the waiting value if there is one. */
  lemma SamplerStopConsistent(xs: seq<Recorded>, ys: seq<Recorded>, onlyNew: bool, bound: int, goal: SampleOutcome,
                              st: SampleState, st': SampleState)
    requires Consistent(xs, ys, onlyNew, bound, goal, st)
    requires st.subscribed && !st.stopped
    requires st.ny < |ys| && ys[st.ny].time <= bound
    requires st.sourceCompleted.None? && st.nx < |xs| ==> ys[st.ny].time < xs[st.nx].time
    requires !ys[st.ny].note.Next? || st.sourceCompleted.Some?
    requires var t := ys[st.ny].time;
             var emitted := if st.element.Some? then [Recorded(t, Next(st.element.value))] else [];
             var last := if ys[st.ny].note.Error? then [Recorded(t, Error)] else emitted + [Recorded(t, Completed)];
             var sourceEnd := if ys[st.ny].note.Next? then st.sourceCompleted.value else EndOr(st.sourceCompleted, t);
             st' == st.(ny := st.ny + 1, stopped := true, messages := st.messages + last,
                        sourceEnd := sourceEnd, samplerEnd := t)
    ensures Consistent(xs, ys, onlyNew, bound, goal, st')
  {
    assert ys[st.ny..][0] == ys[st.ny];
    assert st.sourceCompleted.None? && st.nx < |xs| ==> xs[st.nx..][0] == xs[st.nx];
    SamplerStopUnfold(SourceLeft(xs, st), ys[st.ny..], onlyNew, bound, st.element, st.sourceCompleted);
  }

  /** The harness disposes: a running sink releases both streams. */
  method OnDispose(xs: seq<Recorded>, ys: seq<Recorded>, onlyNew: bool, bound: int, ghost goal: SampleOutcome,
                   st: SampleState)
    returns (st': SampleState)
    requires Consistent(xs, ys, onlyNew, bound, goal, st)
    requires st.subscribed && st.disposePending
    requires st.nx < |xs| ==> Adjusted(0, xs[st.nx].time) > bound
    requires st.ny < |ys| ==> Adjusted(0, ys[st.ny].time) > bound
    ensures Consistent(xs, ys, onlyNew, bound, goal, st') && st'.nx == st.nx && st'.ny == st.ny
    ensures st'.subscribed && !st'.disposePending
  {
    assert st.nx < |xs| ==> xs[st.nx..][0] == xs[st.nx];
    assert st.ny < |ys| ==> ys[st.ny..][0] == ys[st.ny];
    if st.stopped {
      st' := st.(disposePending := false);
    } else {
      assert st.messages + [] == st.messages;
      st' := st.(disposePending := false, stopped := true,
                 sourceEnd := EndOr(st.sourceCompleted, bound), samplerEnd := bound);
    }
  }

  /** The harness subscribes the sink to both streams. */
  method OnSubscribe(xs: seq<Recorded>, ys: seq<Recorded>, onlyNew: bool, bound: int, ghost goal: SampleOutcome,
                     st: SampleState)
    returns (st': SampleState)
    requires Consistent(xs, ys, onlyNew, bound, goal, st)
    requires goal == SampleFrom(Visible(xs), Visible(ys), onlyNew, bound, None, None)
    requires !st.subscribed
    requires st.nx < |xs| ==> xs[st.nx].time > Subscribed
    requires st.ny < |ys| ==> ys[st.ny].time > Subscribed
    ensures Consistent(xs, ys, onlyNew, bound, goal, st') && st'.nx == st.nx && st'.ny == st.ny
    ensures st'.subscribed && st'.disposePending
  {
    VisibleFrom(xs, st.nx);
    VisibleFrom(ys, st.ny);
    st' := st.(subscribed := true);
    SubscribedConsistent(xs, ys, onlyNew, bound, goal, st');
  }

  /** A freshly subscribed sink, with nothing recorded yet, agrees with the state machine run
      over the rest of both streams. */
  lemma SubscribedConsistent(xs: seq<Recorded>, ys: seq<Recorded>, onlyNew: bool, bound: int, goal: SampleOutcome,
                             st: SampleState)
    requires Ordered(xs) && Ordered(ys) && Subscribed <= bound && st.nx <= |xs| && st.ny <= |ys|
    requires st.subscribed && st.disposePending && !st.stopped && st.messages == []
    requires st.element.None? && st.sourceCompleted.None?
    requires st.nx < |xs| ==> xs[st.nx].time > Subscribed
    requires st.ny < |ys| ==> ys[st.ny].time > Subscribed
    requires goal == SampleFrom(xs[st.nx..], ys[st.ny..], onlyNew, bound, None, None)
    ensures Consistent(xs, ys, onlyNew, bound, goal, st)
  {
    assert st.messages + goal.messages == goal.messages;
  }

  /** The source delivers its next message; only a subscribed, running sink that still listens reacts. */
  method SourceStep(xs: seq<Recorded>, ys: seq<Recorded>, onlyNew: bool, bound: int, ghost goal: SampleOutcome,
                    st: SampleState, t: int)
    returns (st': SampleState)
    requires Consistent(xs, ys, onlyNew, bound, goal, st)
    requires st.nx < |xs| && t == Adjusted(0, xs[st.nx].time)
    requires st.ny < |ys| ==> t <= Adjusted(0, ys[st.ny].time)
    requires st.disposePending ==> t <= bound
    requires !st.subscribed ==> t <= Subscribed
    ensures Consistent(xs, ys, onlyNew, bound, goal, st') && st'.nx == st.nx + 1 && st'.ny == st.ny
    ensures st'.subscribed == st.subscribed && st'.disposePending == st.disposePending
  {
    if st.subscribed && !st.stopped && st.sourceCompleted.None? {
      st' := OnSource(xs, ys, onlyNew, bound, goal, st, xs[st.nx].time);
    } else {
      st' := st.(nx := st.nx + 1);
    }
  }

  /** The sampler delivers its next message; only a subscribed, running sink reacts. */
  method SamplerStep(xs: seq<Recorded>, ys: seq<Recorded>, onlyNew: bool, bound: int, ghost goal: SampleOutcome,
                     st: SampleState, t: int)
    returns (st': SampleState)
    requires Consistent(xs, ys, onlyNew, bound, goal, st)
    requires st.ny < |ys| && t == Adjusted(0, ys[st.ny].time)
    requires st.nx < |xs| ==> t < Adjusted(0, xs[st.nx].time)
    requires st.disposePending ==> t <= bound
    requires !st.subscribed ==> t <= Subscribed
    ensures Consistent(xs, ys, onlyNew, bound, goal, st') && st'.ny == st.ny + 1 && st'.nx == st.nx
    ensures st'.subscribed == st.subscribed && st'.disposePending == st.disposePending
  {
    if st.subscribed && !st.stopped {
      st' := OnSampler(xs, ys, onlyNew, bound, goal, st, ys[st.ny].time);
    } else {
      st' := st.(ny := st.ny + 1);
    }
  }

  /** Runs `item`, the action that runs first among those pending. */
  method Dispatch(xs: seq<Recorded>, ys: seq<Recorded>, onlyNew: bool, bound: int, ghost goal: SampleOutcome,
                  st: SampleState, item: Item)
    returns (st': SampleState)
    requires Consistent(xs, ys, onlyNew, bound, goal, st)
    requires RunsFirst(Queue(xs, ys, bound, st), item)
    requires goal == SampleFrom(Visible(xs), Visible(ys), onlyNew, bound, None, None)
    ensures Consistent(xs, ys, onlyNew, bound, goal, st')
    ensures Queue(xs, ys, bound, st') == Queue(xs, ys, bound, st) - {item}
    ensures st'.nx + st'.ny > st.nx + st.ny || (st'.nx + st'.ny == st.nx + st.ny && item.action in {Subscribe, Dispose})
  {
    QueueActions(xs, ys, st.nx, st.ny, bound, st.subscribed, st.disposePending, item);
    if item.action.HotNote? {
      st' := DispatchNote(xs, ys, onlyNew, bound, goal, st, item);
    } else {
      st' := DispatchHarness(xs, ys, onlyNew, bound, goal, st, item);
    }
  }

  /** Runs a message of one of the two streams that runs first. */
  method DispatchNote(xs: seq<Recorded>, ys: seq<Recorded>, onlyNew: bool, bound: int, ghost goal: SampleOutcome,
                      st: SampleState, item: Item)
    returns (st': SampleState)
    requires Consistent(xs, ys, onlyNew, bound, goal, st)
    requires RunsFirst(Queue(xs, ys, bound, st), item) && item.action.HotNote? && item.action.source <= 1
    ensures Consistent(xs, ys, onlyNew, bound, goal, st')
    ensures Queue(xs, ys, bound, st') == Queue(xs, ys, bound, st) - {item}
    ensures st'.nx + st'.ny > st.nx + st.ny
  {
    var t := item.due;
    var nx, ny, subscribed, disposePending := st.nx, st.ny, st.subscribed, st.disposePending;
    if item.action.source == 0 {
      SourceRunsFirst(xs, ys, nx, ny, bound, subscribed, disposePending, item);
      st' := SourceStep(xs, ys, onlyNew, bound, goal, st, t);
    } else {
      SamplerRunsFirst(xs, ys, nx, ny, bound, subscribed, disposePending, item);
      st' := SamplerStep(xs, ys, onlyNew, bound, goal, st, t);
    }
  }

  /** Runs the harness's subscription or disposal when it runs first. */
  method DispatchHarness(xs: seq<Recorded>, ys: seq<Recorded>, onlyNew: bool, bound: int, ghost goal: SampleOutcome,
                         st: SampleState, item: Item)
    returns (st': SampleState)
    requires Consistent(xs, ys, onlyNew, bound, goal, st)
    requires RunsFirst(Queue(xs, ys, bound, st), item) && (item.action.Subscribe? || item.action.Dispose?)
    requires goal == SampleFrom(Visible(xs), Visible(ys), onlyNew, bound, None, None)
    ensures Consistent(xs, ys, onlyNew, bound, goal, st')
    ensures Queue(xs, ys, bound, st') == Queue(xs, ys, bound, st) - {item}
    ensures st'.nx == st.nx && st'.ny == st.ny
  {
    var nx, ny, subscribed, disposePending := st.nx, st.ny, st.subscribed, st.disposePending;
    if item.action.Subscribe? {
      SubscribeRunsFirst(xs, ys, nx, ny, bound, subscribed, disposePending, item);
      st' := OnSubscribe(xs, ys, onlyNew, bound, goal, st);
    } else {
      DisposeRunsFirst(xs, ys, nx, ny, bound, subscribed, disposePending, item);
      st' := OnDispose(xs, ys, onlyNew, bound, goal, st);
    }
  }

  /** Runs the earliest pending action of the run. */
  method SampleStep(s: TestScheduler, xs: seq<Recorded>, ys: seq<Recorded>, onlyNew: bool, bound: int,
                    ghost goal: SampleOutcome, st: SampleState)
    returns (st': SampleState)
    requires s.Valid() && Consistent(xs, ys, onlyNew, bound, goal, st)
    requires s.Pending() == Queue(xs, ys, bound, st) && |s.queue| > 0
    requires goal == SampleFrom(Visible(xs), Visible(ys), onlyNew, bound, None, None)
    modifies s
    ensures s.Valid() && Consistent(xs, ys, onlyNew, bound, goal, st')
    ensures s.Pending() == Queue(xs, ys, bound, st')
    ensures st'.nx + st'.ny > st.nx + st.ny || (st'.nx + st'.ny == st.nx + st.ny && |s.queue| < old(|s.queue|))
  {
    var item := s.Dequeue();
    st' := Dispatch(xs, ys, onlyNew, bound, goal, st, item);
  }

  /** The run of `scheduler.start { xs >- sample(ys) }` (onlyNew) or `xs >- sampleLatest(ys)`,
      disposing at `bound`, on the test scheduler: both hot streams' messages and the harness's
      subscription and disposal are queued, then the earliest pending action runs until none is left. */
  method RunSample(xs: seq<Recorded>, ys: seq<Recorded>, onlyNew: bool, bound: int) returns (r: SampleRun)
    requires Ordered(xs) && Ordered(ys) && Subscribed <= bound
    ensures r == Sampled(xs, ys, onlyNew, bound)
  {
    var s := new TestScheduler(0);
    s.CreateHotObservable(xs, 0);
    s.CreateHotObservable(ys, 1);
    var subscribeId := s.ScheduleAbsolute(Subscribed, Subscribe);
    var disposeId := s.ScheduleAbsolute(bound, Dispose);
    ghost var goal := SampleFrom(Visible(xs), Visible(ys), onlyNew, bound, None, None);
    var st := SampleState(0, 0, false, true, false, None, None, [], bound, bound);
    while |s.queue| > 0
      invariant s.Valid() && Consistent(xs, ys, onlyNew, bound, goal, st)
      invariant s.Pending() == Queue(xs, ys, bound, st)
      decreases |xs| + |ys| - st.nx - st.ny, |s.queue|
    {
      st := SampleStep(s, xs, ys, onlyNew, bound, goal, st);
    }
    QueueDrained(xs, ys, st.nx, st.ny, bound, st.subscribed, st.disposePending);
    r := SampleRun(st.messages, [Subscription(Subscribed, st.sourceEnd)], [Subscription(Subscribed, st.samplerEnd)]);
  }
}
