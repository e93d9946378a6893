/** Notifications, recorded traces and subscription intervals, as the virtual-time
    test harness records them. */
module Trace {

  datatype Option<T> = None | Some(value: T)

  /** The three notifications an observer receives. The error payload is opaque,
      so an error is a single constant. */
  datatype Note = Next(value: int) | Error | Completed

  /** A notification stamped with the virtual time at which it was delivered. */
  datatype Recorded = Recorded(time: int, note: Note)

  /** The interval during which a source had a subscriber. */
  datatype Subscription = Subscription(start: int, end: int)

  /** Messages recorded by the observer and the time the source subscription ended. */
  datatype Outcome = Outcome(messages: seq<Recorded>, end: int)

  /** What a one-source run records: the observer's messages and the source's subscriptions. */
  datatype Run = Run(messages: seq<Recorded>, subscriptions: seq<Subscription>)

  /** The constructors the test suite writes as `next(t, v)`, `error(t, e)` and `completed(t)`. */
  function OnNext(time: int, value: int): Recorded { Recorded(time, Next(value)) }
  function OnError(time: int): Recorded { Recorded(time, Error) }
  function OnCompleted(time: int): Recorded { Recorded(time, Completed) }

  /** The harness subscribes at 200 and, unless told otherwise, disposes at 1000. */
  const Subscribed: int := 200
  const Disposed: int := 1000

  /** The test scheduler runs work whose due time is not after the current clock
      one tick later. */
  function Adjusted(clock: int, time: int): int
  {
    if time <= clock then clock + 1 else time
  }

  /** When a timer that an operator starts at the subscription, `delay` ticks ahead, fires. */
  function FiresAt(delay: int): (t: int)
    ensures t > Subscribed && (delay >= 1 ==> t == Subscribed + delay)
  {
    Adjusted(Subscribed, Subscribed + delay)
  }

  predicate IsTerminal(r: Recorded)
  {
    !r.note.Next?
  }

  /** Times never go backwards. */
  predicate Ordered(ms: seq<Recorded>)
  {
    forall i, j :: 0 <= i < j < |ms| ==> ms[i].time <= ms[j].time
  }

  /** Nothing follows an error or a completion. */
  predicate TerminalOnce(ms: seq<Recorded>)
  {
    forall i :: 0 <= i < |ms| - 1 ==> ms[i].note.Next?
  }

  predicate WellFormed(ms: seq<Recorded>)
  {
    Ordered(ms) && TerminalOnce(ms)
  }

  /** Every message lies in the closed interval [lo, hi]. */
  predicate Within(ms: seq<Recorded>, lo: int, hi: int)
  {
    forall i :: 0 <= i < |ms| ==> lo <= ms[i].time <= hi
  }

  /** A subscription ends at the trace's own terminal or, failing that, at the disposal bound. */
  function EndTime(ms: seq<Recorded>, bound: int): int
  {
    if |ms| > 0 && IsTerminal(ms[|ms| - 1]) then ms[|ms| - 1].time else bound
  }

  /** The part of a time-ordered hot trace that a subscriber attached at 200 can see:
      the hot source's events at 200 or earlier were delivered before the subscription. */
  function Visible(xs: seq<Recorded>): (vs: seq<Recorded>)
    ensures |vs| <= |xs| && vs == xs[|xs| - |vs|..]
  {
    if xs == [] then []
    else if xs[0].time <= Subscribed then Visible(xs[1..])
    else xs
  }

  /** The values carried by the Next notifications of a trace, in order. */
  function Values(ms: seq<Recorded>): seq<int>
  {
    if ms == [] then []
    else if ms[0].note.Next? then [ms[0].note.value] + Values(ms[1..])
    else Values(ms[1..])
  }

  /** `a` can be obtained from `b` by deleting elements. */
  predicate IsSubsequence<T(==)>(a: seq<T>, b: seq<T>)
    decreases |b|
  {
    if a == [] then true
    else if b == [] then false
    else if a[0] == b[0] then IsSubsequence(a[1..], b[1..])
    else IsSubsequence(a, b[1..])
  }

  lemma AppendAssoc<T>(a: seq<T>, b: seq<T>, c: seq<T>)
    ensures a + (b + c) == (a + b) + c
  {
  }

  /** Messages at one time in front of ordered messages no earlier keep the trace ordered. */
  lemma PrependAtTime(e: seq<Recorded>, ms: seq<Recorded>, t: int, lo: int, hi: int)
    requires forall i :: 0 <= i < |e| ==> e[i].time == t
    requires Ordered(ms) && Within(ms, t, hi) && lo <= t <= hi
    ensures Ordered(e + ms) && Within(e + ms, lo, hi)
  {
    assert forall i :: 0 <= i < |e + ms| ==> (e + ms)[i] == if i < |e| then e[i] else ms[i - |e|];
  }

  lemma {:induction false} ValuesAppend(a: seq<Recorded>, b: seq<Recorded>)
    ensures Values(a + b) == Values(a) + Values(b)
    decreases |a|
  {
    if a != [] {
      assert (a + b)[1..] == a[1..] + b;
      ValuesAppend(a[1..], b);
    } else {
      assert a + b == b;
    }
  }

  lemma {:induction false} SubsequenceRefl<T>(a: seq<T>)
    ensures IsSubsequence(a, a)
    decreases |a|
  {
    if a != [] {
      SubsequenceRefl(a[1..]);
    }
  }

  /** An element in front of the longer sequence keeps a subsequence. */
  lemma {:induction false} SubsequenceCons<T>(a: seq<T>, x: T, b: seq<T>)
    requires IsSubsequence(a, b)
    ensures IsSubsequence(a, [x] + b)
    decreases |a| + |b|
  {
    assert ([x] + b)[1..] == b;
    if a != [] && a[0] == x {
      assert b == [b[0]] + b[1..];
      if a[0] == b[0] {
        SubsequenceCons(a[1..], b[0], b[1..]);
      } else {
        SubsequenceCons(a, x, b[1..]);
        assert ([x] + b[1..])[1..] == b[1..];
        SubsequenceCons(a[1..], b[0], b[1..]);
      }
    }
  }

  lemma {:induction false} SubsequenceExtendLeft<T>(a: seq<T>, c: seq<T>, b: seq<T>)
    requires IsSubsequence(a, b)
    ensures IsSubsequence(a, c + b)
    decreases |c|
  {
    if c == [] {
      assert c + b == b;
    } else {
      SubsequenceExtendLeft(a, c[1..], b);
      SubsequenceCons(a, c[0], c[1..] + b);
      assert [c[0]] + (c[1..] + b) == c + b;
    }
  }

  lemma {:induction false} SubsequenceConcat<T>(a: seq<T>, b: seq<T>, c: seq<T>, d: seq<T>)
    requires IsSubsequence(a, b) && IsSubsequence(c, d)
    ensures IsSubsequence(a + c, b + d)
    decreases |b|
  {
    if a == [] {
      SubsequenceExtendLeft(c, b, d);
      assert a + c == c;
    } else {
      assert (a + c)[0] == a[0] && (b + d)[0] == b[0];
      assert (b + d)[1..] == b[1..] + d;
      if a[0] == b[0] {
        SubsequenceConcat(a[1..], b[1..], c, d);
        assert (a + c)[1..] == a[1..] + c;
      } else {
        SubsequenceConcat(a, b[1..], c, d);
      }
    }
  }

  lemma {:induction false} VisibleIsLate(xs: seq<Recorded>)
    requires Ordered(xs)
    ensures forall i :: 0 <= i < |Visible(xs)| ==> Visible(xs)[i].time > Subscribed
    ensures forall i :: 0 <= i < |xs| - |Visible(xs)| ==> xs[i].time <= Subscribed
    ensures Ordered(Visible(xs))
    decreases |xs|
  {
    if xs != [] && xs[0].time <= Subscribed {
      VisibleIsLate(xs[1..]);
    }
  }

  /** The messages an operator reacts to when it stops listening after `limit`: those not
      after `limit`, up to and including the first terminal. */
  function Window(vs: seq<Recorded>, limit: int): (ws: seq<Recorded>)
    ensures |ws| <= |vs| && ws == vs[..|ws|]
    ensures TerminalOnce(ws)
    ensures forall i :: 0 <= i < |ws| ==> ws[i].time <= limit
  {
    if vs == [] || vs[0].time > limit then []
    else if vs[0].note.Next? then [vs[0]] + Window(vs[1..], limit)
    else [vs[0]]
  }

  /** When the first `k` messages are the ones at 200 or earlier, the rest is what a subscriber sees. */
  lemma {:induction false} VisibleFrom(xs: seq<Recorded>, k: nat)
    requires k <= |xs| && (forall i :: 0 <= i < k ==> xs[i].time <= Subscribed)
    requires k < |xs| ==> xs[k].time > Subscribed
    ensures Visible(xs) == xs[k..]
  {
    if k > 0 {
      assert forall i :: 0 <= i < k - 1 ==> xs[1..][i].time <= Subscribed;
      VisibleFrom(xs[1..], k - 1);
      assert xs[1..][k - 1..] == xs[k..];
    }
  }
}
