/** The deterministic virtual-time test scheduler: one integer clock and a queue of
    pending actions, run in order of due time and, at equal due times, in the order
    they were scheduled. */
module VirtualTime {
  import opened Trace

  /** What a scheduled action does when it runs. The drivers dispatch on this tag,
      standing in for the closures the real scheduler stores. */
  datatype Action =
    | HotNote(source: nat, index: nat)  // a hot source delivers its index-th recorded message
    | ColdNote(index: nat)              // a cold source delivers its index-th recorded message
    | Subscribe                         // the harness subscribes the operator under test
    | Dispose                           // the harness disposes that subscription
    | Tick                              // an operator's timer fires
    | DelayedSubscribe                  // delaySubscription subscribes its source

  /** A pending action: its due time and its scheduling sequence number. */
  datatype Item = Item(due: int, id: nat, action: Action)

  /** `a` runs before `b`: earlier due time, or the same due time and scheduled first. */
  predicate Precedes(a: Item, b: Item)
  {
    a.due < b.due || (a.due == b.due && a.id < b.id)
  }

  /** `item` is the action in `q` that runs first. */
  ghost predicate RunsFirst(q: set<Item>, item: Item)
  {
    item in q && forall x :: x in q && x != item ==> Precedes(item, x)
  }

  /** The set of items held by a queue. */
  ghost function Members(q: seq<Item>): set<Item>
  {
    set i | 0 <= i < |q| :: q[i]
  }

  /** The item that the `index`-th message of hot source `source` becomes when the source is
      created at time `clock` and its sequence numbers start at `base`. */
  function HotItem(clock: int, base: nat, source: nat, xs: seq<Recorded>, index: nat): Item
    requires index < |xs|
  {
    Item(Adjusted(clock, xs[index].time), base + index, HotNote(source, index))
  }

  /** The items of the messages at positions `from` and later. */
  ghost function HotItems(clock: int, base: nat, source: nat, xs: seq<Recorded>, from: nat): set<Item>
  {
    set i | from <= i < |xs| :: HotItem(clock, base, source, xs, i)
  }

  lemma HotItemsSplit(clock: int, base: nat, source: nat, xs: seq<Recorded>, from: nat)
    requires from < |xs|
    ensures HotItems(clock, base, source, xs, from)
         == {HotItem(clock, base, source, xs, from)} + HotItems(clock, base, source, xs, from + 1)
  {
  }

  lemma HotItemsEmpty(clock: int, base: nat, source: nat, xs: seq<Recorded>, from: nat)
    ensures HotItems(clock, base, source, xs, from) == {} <==> from >= |xs|
  {
    if from < |xs| {
      assert HotItem(clock, base, source, xs, from) in HotItems(clock, base, source, xs, from);
    }
  }

  /** A hot source's earliest remaining message is the first of its items to run. */
  lemma {:induction false} HotFirst(clock: int, base: nat, source: nat, xs: seq<Recorded>, from: nat, item: Item)
    requires Ordered(xs) && from < |xs| && item in HotItems(clock, base, source, xs, from)
    requires item == HotItem(clock, base, source, xs, from) || Precedes(item, HotItem(clock, base, source, xs, from))
    ensures item == HotItem(clock, base, source, xs, from)
  {
  }

  /** The item that the `index`-th message of a cold source becomes when the source is
      subscribed at time `clock` and its sequence numbers start at `base`: its time is
      relative to the subscription. */
  function ColdItem(clock: int, base: nat, xs: seq<Recorded>, index: nat): Item
    requires index < |xs|
  {
    Item(Adjusted(clock, clock + xs[index].time), base + index, ColdNote(index))
  }

  ghost function ColdItems(clock: int, base: nat, xs: seq<Recorded>, from: nat): set<Item>
  {
    set i | from <= i < |xs| :: ColdItem(clock, base, xs, i)
  }

  lemma ColdItemsSplit(clock: int, base: nat, xs: seq<Recorded>, from: nat)
    requires from < |xs|
    ensures ColdItems(clock, base, xs, from) == {ColdItem(clock, base, xs, from)} + ColdItems(clock, base, xs, from + 1)
  {
  }

  lemma ColdItemsEmpty(clock: int, base: nat, xs: seq<Recorded>, from: nat)
    ensures ColdItems(clock, base, xs, from) == {} <==> from >= |xs|
  {
    if from < |xs| {
      assert ColdItem(clock, base, xs, from) in ColdItems(clock, base, xs, from);
    }
  }

  /** A cold source's earliest remaining message is the first of its items to run. */
  lemma {:induction false} ColdFirst(clock: int, base: nat, xs: seq<Recorded>, from: nat, item: Item)
    requires Ordered(xs) && from < |xs| && item in ColdItems(clock, base, xs, from)
    requires item == ColdItem(clock, base, xs, from) || Precedes(item, ColdItem(clock, base, xs, from))
    ensures item == ColdItem(clock, base, xs, from)
  {
  }

  class TestScheduler {
    var clock: int
    var queue: seq<Item>
    var nextId: nat

    /** Pending work is never due before the clock, and sequence numbers are unique. */
    ghost predicate Valid()
      reads this
    {
      && (forall i :: 0 <= i < |queue| ==> clock <= queue[i].due && queue[i].id < nextId)
      && (forall i, j :: 0 <= i < j < |queue| ==> queue[i].id != queue[j].id)
    }

    /** The pending actions, as a set. */
    ghost function Pending(): set<Item>
      reads this
    {
      Members(queue)
    }

    constructor (initialClock: int)
      ensures Valid() && clock == initialClock && queue == [] && nextId == 0
    {
      clock := initialClock;
      queue := [];
      nextId := 0;
    }

    /** Schedules `action` at absolute time `time`; a time not after the clock becomes clock + 1. */
    method ScheduleAbsolute(time: int, action: Action) returns (id: nat)
      requires Valid()
      modifies this
      ensures Valid() && clock == old(clock)
      ensures id == old(nextId) && nextId == id + 1
      ensures Pending() == old(Pending()) + {Item(Adjusted(clock, time), id, action)}
      ensures |queue| == |old(queue)| + 1
    {
      id := nextId;
      var item := Item(Adjusted(clock, time), id, action);
      queue := queue + [item];
      nextId := nextId + 1;
      assert Members(queue) == Members(old(queue)) + {item} by {
        forall x | x in Members(queue) ensures x in Members(old(queue)) + {item} {
          var i :| 0 <= i < |queue| && queue[i] == x;
          if i < |old(queue)| { assert old(queue)[i] == x; }
        }
        forall x | x in Members(old(queue)) ensures x in Members(queue) {
          var i :| 0 <= i < |old(queue)| && old(queue)[i] == x;
          assert queue[i] == x;
        }
        assert queue[|queue| - 1] == item;
      }
    }

    /** A hot source schedules every one of its messages at its absolute time as soon as it is created. */
    method CreateHotObservable(xs: seq<Recorded>, source: nat)
      requires Valid()
      modifies this
      ensures Valid() && clock == old(clock) && nextId == old(nextId) + |xs|
      ensures Pending() == old(Pending()) + HotItems(clock, old(nextId), source, xs, 0)
      ensures |queue| == |old(queue)| + |xs|
    {
      var i := 0;
      while i < |xs|
        invariant 0 <= i <= |xs| && Valid() && clock == old(clock)
        invariant nextId == old(nextId) + i && |queue| == |old(queue)| + i
        invariant Pending() == old(Pending()) + (HotItems(clock, old(nextId), source, xs, 0) - HotItems(clock, old(nextId), source, xs, i))
      {
        var id := ScheduleAbsolute(xs[i].time, HotNote(source, i));
        HotItemsSplit(clock, old(nextId), source, xs, i);
        i := i + 1;
      }
    }

    /** Schedules `action` `delay` ticks from now. */
    method ScheduleRelative(delay: int, action: Action) returns (id: nat)
      requires Valid()
      modifies this
      ensures Valid() && clock == old(clock)
      ensures id == old(nextId) && nextId == id + 1
      ensures Pending() == old(Pending()) + {Item(Adjusted(clock, clock + delay), id, action)}
      ensures |queue| == |old(queue)| + 1
    {
      id := ScheduleAbsolute(clock + delay, action);
    }

    /** A cold source, once subscribed, schedules each of its messages relative to the current time. */
    method SubscribeColdObservable(xs: seq<Recorded>)
      requires Valid()
      modifies this
      ensures Valid() && clock == old(clock) && nextId == old(nextId) + |xs|
      ensures Pending() == old(Pending()) + ColdItems(clock, old(nextId), xs, 0)
      ensures |queue| == |old(queue)| + |xs|
    {
      var i := 0;
      while i < |xs|
        invariant 0 <= i <= |xs| && Valid() && clock == old(clock)
        invariant nextId == old(nextId) + i && |queue| == |old(queue)| + i
        invariant Pending() == old(Pending()) + (ColdItems(clock, old(nextId), xs, 0) - ColdItems(clock, old(nextId), xs, i))
      {
        var id := ScheduleRelative(xs[i].time, ColdNote(i));
        ColdItemsSplit(clock, old(nextId), xs, i);
        i := i + 1;
      }
    }

    /** Disposes the action scheduled under `id`: it is removed if it has not run yet. */
    method Cancel(id: nat)
      requires Valid()
      modifies this
      ensures Valid() && clock == old(clock) && nextId == old(nextId)
      ensures Pending() == set x | x in old(Pending()) && x.id != id
      ensures |queue| <= |old(queue)|
    {
      var i := 0;
      while i < |queue| && queue[i].id != id
        invariant 0 <= i <= |queue|
        invariant forall j :: 0 <= j < i ==> queue[j].id != id
      {
        i := i + 1;
      }
      if i < |queue| {
        RemoveAt(i);
      }
    }

    /** Removes the earliest pending action, advances the clock to its due time and returns it. */
    method Dequeue() returns (item: Item)
      requires Valid() && |queue| > 0
      modifies this
      ensures Valid() && nextId == old(nextId)
      ensures item in old(Pending()) && clock == item.due
      ensures forall x :: x in old(Pending()) && x != item ==> Precedes(item, x)
      ensures Pending() == old(Pending()) - {item}
      ensures |queue| == |old(queue)| - 1
    {
      var m := 0;
      var i := 1;
      while i < |queue|
        invariant 1 <= i <= |queue| && 0 <= m < i
        invariant forall j :: 0 <= j < i && j != m ==> Precedes(queue[m], queue[j])
      {
        if Precedes(queue[i], queue[m]) {
          m := i;
        }
        i := i + 1;
      }
      item := queue[m];
      ghost var q := queue;
      assert forall x :: x in Members(q) && x != item ==> Precedes(item, x);
      RemoveAt(m);
      clock := item.due;
    }

    /** Removes the item at position `m`; the others keep their order. */
    method RemoveAt(m: nat)
      requires Valid() && m < |queue|
      modifies this
      ensures Valid() && clock == old(clock) && nextId == old(nextId)
      ensures queue == old(queue[..m] + queue[m + 1..])
      ensures Pending() == old(Pending()) - {old(queue[m])}
      ensures forall x :: x in old(Pending()) && x.id == old(queue[m]).id ==> x == old(queue[m])
    {
      ghost var q := queue;
      queue := queue[..m] + queue[m + 1..];
      MembersRemove(q, m);
    }
  }

  /** Removing the entry at `m` from a queue without repeated sequence numbers removes exactly
      that item from its members. */
  lemma MembersRemove(q: seq<Item>, m: nat)
    requires m < |q| && forall i, j :: 0 <= i < j < |q| ==> q[i].id != q[j].id
    ensures var r := q[..m] + q[m + 1..];
            && |r| == |q| - 1
            && (forall j :: 0 <= j < |r| ==> r[j] == (if j < m then q[j] else q[j + 1]))
            && Members(r) == Members(q) - {q[m]}
  {
    var r := q[..m] + q[m + 1..];
    assert forall j :: 0 <= j < |r| ==> r[j] == (if j < m then q[j] else q[j + 1]);
    forall x | x in Members(q) - {q[m]} ensures x in Members(r) {
      var j :| 0 <= j < |q| && q[j] == x;
      assert j != m;
      if j < m { assert r[j] == x; } else { assert r[j - 1] == x; }
    }
    forall x | x in Members(r) ensures x in Members(q) - {q[m]} {
      var j :| 0 <= j < |r| && r[j] == x;
      if j < m { assert q[j] == x && j != m; } else { assert q[j + 1] == x && j + 1 != m; }
    }
  }

  // ---------------------------------------------------------------------------
  // Runs over one hot source

  /** What a run over one hot source has still pending: the source's messages from position `k`
      (sequence numbers from 0), the harness's subscription at 200 and disposal at `bound`
      (numbered after the messages), and the operator's timer, if one is running. */
  ghost function HotQueue(xs: seq<Recorded>, k: nat, bound: int, subscribed: bool, disposePending: bool,
                               timer: Option<Item>): set<Item>
  {
    var n := |xs|;
    HotItems(0, 0, 0, xs, k)
    + (if subscribed then {} else {Item(Subscribed, n, Subscribe)})
    + (if disposePending then {Item(bound, n + 1, Dispose)} else {})
    + (if timer.Some? then {timer.value} else {})
  }

  /** The operator's timer is scheduled after the harness's actions and fires a `Tick`. */
  predicate TimerOk(xs: seq<Recorded>, timer: Option<Item>)
  {
    timer.Some? ==> timer.value.id >= |xs| + 2 && timer.value.action == Tick
  }

  lemma HotQueueActions(xs: seq<Recorded>, k: nat, bound: int, subscribed: bool, disposePending: bool, timer: Option<Item>, item: Item)
    requires TimerOk(xs, timer) && item in HotQueue(xs, k, bound, subscribed, disposePending, timer)
    ensures item.action.HotNote? || item.action.Subscribe? || item.action.Dispose? || item.action.Tick?
  {
  }

  lemma HotQueueDrained(xs: seq<Recorded>, k: nat, bound: int, subscribed: bool, disposePending: bool, timer: Option<Item>)
    requires k <= |xs| && HotQueue(xs, k, bound, subscribed, disposePending, timer) == {}
    ensures k == |xs| && subscribed && !disposePending && timer.None?
  {
    HotItemsEmpty(0, 0, 0, xs, k);
  }

  /** A hot message runs first only if it is the source's next one and nothing else is due earlier. */
  lemma HotRunsFirst(xs: seq<Recorded>, k: nat, bound: int, subscribed: bool, disposePending: bool, timer: Option<Item>, item: Item)
    requires Ordered(xs) && k <= |xs| && TimerOk(xs, timer)
    requires RunsFirst(HotQueue(xs, k, bound, subscribed, disposePending, timer), item) && item.action.HotNote?
    ensures k < |xs| && item == HotItem(0, 0, 0, xs, k)
    ensures timer.Some? ==> item.due <= timer.value.due
    ensures disposePending ==> item.due <= bound
    ensures !subscribed ==> item.due <= Subscribed
    ensures HotQueue(xs, k, bound, subscribed, disposePending, timer) - {item}
         == HotQueue(xs, k + 1, bound, subscribed, disposePending, timer)
  {
    var q := HotQueue(xs, k, bound, subscribed, disposePending, timer);
    assert item in HotItems(0, 0, 0, xs, k);
    HotItemsSplit(0, 0, 0, xs, k);
    var h := HotItem(0, 0, 0, xs, k);
    assert h in q;
    HotFirst(0, 0, 0, xs, k, item);
    if timer.Some? {
      assert timer.value in q;
    }
    if disposePending {
      assert Item(bound, |xs| + 1, Dispose) in q;
    }
    if !subscribed {
      assert Item(Subscribed, |xs|, Subscribe) in q;
    }
    assert h !in HotItems(0, 0, 0, xs, k + 1);
  }

  /** The subscription runs first only if the source's next message comes after 200. */
  lemma HotSubscribeRunsFirst(xs: seq<Recorded>, k: nat, bound: int, subscribed: bool, disposePending: bool, timer: Option<Item>, item: Item)
    requires k <= |xs| && TimerOk(xs, timer)
    requires RunsFirst(HotQueue(xs, k, bound, subscribed, disposePending, timer), item) && item.action.Subscribe?
    ensures !subscribed && item == Item(Subscribed, |xs|, Subscribe)
    ensures k < |xs| ==> xs[k].time > Subscribed
    ensures HotQueue(xs, k, bound, subscribed, disposePending, timer) - {item}
         == HotQueue(xs, k, bound, true, disposePending, timer)
  {
    if k < |xs| {
      assert HotItem(0, 0, 0, xs, k) in HotQueue(xs, k, bound, subscribed, disposePending, timer);
    }
  }

  /** The disposal runs first only after the subscription, once the source's next message and the
      timer are both due later. */
  lemma HotDisposeRunsFirst(xs: seq<Recorded>, k: nat, bound: int, subscribed: bool, disposePending: bool, timer: Option<Item>, item: Item)
    requires k <= |xs| && TimerOk(xs, timer) && Subscribed <= bound
    requires RunsFirst(HotQueue(xs, k, bound, subscribed, disposePending, timer), item) && item.action.Dispose?
    ensures subscribed && disposePending && item == Item(bound, |xs| + 1, Dispose)
    ensures k < |xs| ==> Adjusted(0, xs[k].time) > bound
    ensures timer.Some? ==> timer.value.due >= bound
    ensures HotQueue(xs, k, bound, subscribed, disposePending, timer) - {item}
         == HotQueue(xs, k, bound, subscribed, false, timer)
  {
    var q := HotQueue(xs, k, bound, subscribed, disposePending, timer);
    if k < |xs| {
      assert HotItem(0, 0, 0, xs, k) in q;
    }
    if timer.Some? {
      assert timer.value in q;
    }
  }

  /** The timer runs first only if it is due before the source's next message and the disposal. */
  lemma HotTickRunsFirst(xs: seq<Recorded>, k: nat, bound: int, subscribed: bool, disposePending: bool, timer: Option<Item>, item: Item)
    requires k <= |xs| && TimerOk(xs, timer)
    requires RunsFirst(HotQueue(xs, k, bound, subscribed, disposePending, timer), item) && item.action.Tick?
    ensures timer == Some(item)
    ensures k < |xs| ==> item.due < Adjusted(0, xs[k].time)
    ensures disposePending ==> item.due < bound
    ensures HotQueue(xs, k, bound, subscribed, disposePending, timer) - {item}
         == HotQueue(xs, k, bound, subscribed, disposePending, None)
  {
    var q := HotQueue(xs, k, bound, subscribed, disposePending, timer);
    if k < |xs| {
      assert HotItem(0, 0, 0, xs, k) in q;
    }
    if disposePending {
      assert Item(bound, |xs| + 1, Dispose) in q;
    }
  }

  /** Cancelling the timer leaves the rest of the queue alone. */
  lemma HotCancelTimer(xs: seq<Recorded>, k: nat, bound: int, subscribed: bool, disposePending: bool, timer: Option<Item>)
    requires TimerOk(xs, timer) && timer.Some?
    ensures (set x | x in HotQueue(xs, k, bound, subscribed, disposePending, timer) && x.id != timer.value.id)
         == HotQueue(xs, k, bound, subscribed, disposePending, None)
  {
  }
}
