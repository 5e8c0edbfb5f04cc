/** The event queue: one pending event per device. */
module FuncQueue {
  import opened Types

  datatype Entry = Entry(time: nat, kind: Kind)

  const NO_ENTRY := Entry(TIME_NEVER, NoEvent)

  /** Event `a` of device `i` is to run before event `b` of device `j`: lower time first, then
      higher kind, then lower device. */
  predicate Before(a: Entry, i: nat, b: Entry, j: nat)
  {
    || a.time < b.time
    || (a.time == b.time && a.kind.Index() > b.kind.Index())
    || (a.time == b.time && a.kind.Index() == b.kind.Index() && i < j)
  }

  /** Device `d` holds the event which precedes every other one. */
  ghost predicate IsNext(q: seq<Entry>, d: nat)
  {
    && d < |q|
    && forall j: nat :: j < |q| && j != d ==> Before(q[d], d, q[j], j)
  }

  /** The device whose event is next. */
  function Next(q: seq<Entry>): (d: nat)
    requires |q| > 0
    ensures IsNext(q, d)
  {
    if |q| == 1 then 0
    else
      var last := |q| - 1;
      var d := Next(q[..last]);
      assert forall j: nat :: j < last && j != d ==> Before(q[d], d, q[..last][j], j);
      if Before(q[last], last, q[d], d) then last else d
  }

  /** The order is total, so no other device could be chosen. */
  lemma NextIsUnique(q: seq<Entry>, d: nat)
    requires |q| > 0
    ensures IsNext(q, d) <==> d == Next(q)
  {
    var e := Next(q);
    if d < |q| && d != e {
      assert Before(q[e], e, q[d], d);
      assert !Before(q[d], d, q[e], e);
    }
  }

  /** The kinds in the order of their enumerators. */
  const KINDS: seq<Kind> := [NoEvent, WaitDone, TxEnd, TxPacketEnd, CcaMeas, RssiMeas, RxFound, RxSync, RxHeader,
                             RxPayload, TxAbortReeval, TxPacketStart, RxSearchReeval, RxSearchStart, TxStart]

  lemma KindsInOrder(k: Kind)
    ensures k.Index() < |KINDS| == 15 && KINDS[k.Index()] == k
  {
  }

  /** Nothing pending is earlier than the chosen event, nothing at the same time has a higher priority,
      and nothing of the same time and kind belongs to a lower device. */
  lemma NextIsLeast(q: seq<Entry>, j: nat)
    requires j < |q|
    ensures q[Next(q)].time <= q[j].time
    ensures q[j].time == q[Next(q)].time ==> q[j].kind.Index() <= q[Next(q)].kind.Index()
    ensures q[j] == q[Next(q)] ==> Next(q) <= j
  {
    var d := Next(q);
    if j != d {
      assert Before(q[d], d, q[j], j);
    }
  }

  /** The queue as the program keeps it: two arrays and the device chosen by the last search. */
  class Queue {
    const time: array<nat>
    const kind: array<Kind>
    var nextD: nat

    ghost predicate Valid()
      reads this
    {
      time.Length == kind.Length > 0 && nextD < time.Length
    }

    ghost function Entries(): (q: seq<Entry>)
      requires time.Length == kind.Length
      reads time, kind
    {
      seq(time.Length, i requires 0 <= i < time.Length reads time, kind => Entry(time[i], kind[i]))
    }

    constructor (n: nat)
      requires n > 0
      ensures Valid() && fresh(time) && fresh(kind) && time.Length == n
      ensures Entries() == seq(n, i => NO_ENTRY)
    {
      time := new nat[n];
      kind := new Kind[n](i => NoEvent);
      nextD := 0;
      new;
      for i := 0 to n
        invariant nextD == 0
        invariant forall j :: 0 <= j < i ==> time[j] == TIME_NEVER
        invariant forall j :: 0 <= j < n ==> kind[j] == NoEvent
      {
        time[i] := TIME_NEVER;
        kind[i] := NoEvent;
      }
    }

    /** Schedules (or replaces) the event of device `d`. */
    method Add(t: nat, k: Kind, d: nat)
      requires Valid() && d < time.Length
      modifies time, kind
      ensures Entries() == old(Entries())[d := Entry(t, k)]
    {
      time[d] := t;
      kind[d] := k;
    }

    method Remove(d: nat)
      requires Valid() && d < time.Length
      modifies time, kind
      ensures Entries() == old(Entries())[d := NO_ENTRY]
    {
      kind[d] := NoEvent;
      time[d] := TIME_NEVER;
    }

    /** The linear search selects the one event which precedes all the others. */
    method FindNext()
      requires Valid()
      modifies this`nextD
      ensures Valid() && nextD == Next(Entries())
    {
      nextD := 0;
      var chosen := time[0];
      ghost var q := Entries();
      for i := 1 to time.Length
        invariant nextD < i && chosen == time[nextD]
        invariant forall j: nat :: j < i && j != nextD ==> Before(q[nextD], nextD, q[j], j)
      {
        if time[i] > chosen {
        } else if time[i] < chosen {
          nextD := i;
          chosen := time[i];
        } else if kind[i].Index() > kind[nextD].Index() {
          nextD := i;
        }
      }
      NextIsUnique(q, nextD);
    }

    method NextTime() returns (t: nat)
      requires Valid()
      ensures t == Entries()[nextD].time
    {
      t := time[nextD];
    }
  }
}
