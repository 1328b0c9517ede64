/** Draining the pipeline of a DPU: its threads are stopped one step at a time, and each gets the
    program counter and the place in the schedule of the moment it is first seen stopped. */
module DrainPipeline {
  import opened Bits

  const U8: nat := 256

  // One round of stepping: the program counter it fetched and the run registers after it, one per
  // thread with one bit per DPU.
  datatype Round = Round(pc: nat, run: seq<bv8>)

  /** The DPU's number, the run registers before draining if they can be read, and the rounds until the
      driver fails, if it gets that far. */
  datatype Drain = Drain(member: nat, initial: seq<bv8>, rounds: seq<Round>)
  {
    predicate Valid() {
      member < BITS && forall i :: 0 <= i < |rounds| ==> |rounds[i].run| == |initial|
    }

    predicate Initially(th: nat)
      requires Valid() && th < |initial|
    {
      On(initial[th], member)
    }

    predicate Stopped(i: nat, th: nat)
      requires Valid() && i < |rounds| && th < |initial|
    {
      !On(rounds[i].run[th], member)
    }

    function StopFrom(i: nat, th: nat): (f: nat)
      requires Valid() && i <= |rounds| && th < |initial|
      ensures i <= f <= |rounds|
      ensures f < |rounds| ==> Stopped(f, th)
      ensures forall k: nat :: i <= k < f ==> !Stopped(k, th)
      decreases |rounds| - i
    {
      if i == |rounds| || Stopped(i, th) then i else StopFrom(i + 1, th)
    }

    // The round that first sees th stopped, and |rounds| when none does.
    function StopOf(th: nat): (f: nat)
      requires Valid() && th < |initial|
      ensures f <= |rounds|
      ensures f < |rounds| ==> Stopped(f, th)
      ensures forall k: nat :: k < f ==> !Stopped(k, th)
    {
      StopFrom(0, th)
    }

    ghost predicate NoneInitially()
      requires Valid()
    {
      forall th: nat :: th < |initial| ==> !Initially(th)
    }

    ghost predicate AllStopped(i: nat)
      requires Valid() && i < |rounds|
    {
      forall th: nat :: th < |initial| ==> Stopped(i, th)
    }

    // Round i is the first that sees no thread running.
    ghost predicate EndsAt(i: nat)
      requires Valid()
    {
      i < |rounds| && AllStopped(i) && forall k: nat :: k < i ==> !AllStopped(k)
    }

    // Whether draining records th before it gets to thread upTo of round i.
    predicate Drained(th: nat, i: nat, upTo: nat)
      requires Valid() && th < |initial|
    {
      Initially(th) && (StopOf(th) < i || (StopOf(th) == i && th < upTo))
    }

    /** The threads recorded before thread upTo of round i, in order. */
    function Order(i: nat, upTo: nat): seq<nat>
      requires Valid() && upTo <= |initial|
      decreases i, upTo
    {
      if upTo > 0 then
        Order(i, upTo - 1) + (if Initially(upTo - 1) && StopOf(upTo - 1) == i then [upTo - 1] else [])
      else if i > 0 then Order(i - 1, |initial|)
      else []
    }
  }

  datatype Saved = Saved(pcs: seq<nat>, scheduling: seq<nat>, nrOfRunningThreads: nat)

  function Record(s: Saved, th: nat, pc: nat, schedule: bool): (r: Saved)
    requires th < |s.pcs| == |s.scheduling|
    ensures |r.pcs| == |r.scheduling| == |s.pcs|
  {
    var t := s.(pcs := s.pcs[th := pc]);
    if schedule then
      t.(scheduling := t.scheduling[th := t.nrOfRunningThreads], nrOfRunningThreads := (t.nrOfRunningThreads + 1) % U8)
    else t
  }

  predicate Threads(d: Drain, order: seq<nat>)
    requires d.Valid()
  {
    forall j :: 0 <= j < |order| ==> order[j] < |d.initial| && d.StopOf(order[j]) < |d.rounds|
  }

  function Recorded(d: Drain, order: seq<nat>, s: Saved, schedule: bool): (r: Saved)
    requires d.Valid() && Threads(d, order) && |s.pcs| == |s.scheduling| == |d.initial|
    ensures |r.pcs| == |r.scheduling| == |s.pcs|
  {
    if order == [] then s
    else
      var last := order[|order| - 1];
      Record(Recorded(d, order[..|order| - 1], s, schedule), last, d.rounds[d.StopOf(last)].pc, schedule)
  }

  class Context {
    const pcs: array<nat>
    const scheduling: array<nat>
    var nrOfRunningThreads: nat

    ghost predicate Valid(threads: nat)
      reads this
    {
      pcs.Length == scheduling.Length == threads && pcs != scheduling && nrOfRunningThreads < U8
    }

    ghost function Contents(): Saved
      reads this, pcs, scheduling
    {
      Saved(pcs[..], scheduling[..], nrOfRunningThreads)
    }

    method Save(th: nat, pc: nat, schedule: bool)
      requires Valid(pcs.Length) && th < pcs.Length
      modifies this, pcs, scheduling
      ensures Valid(pcs.Length) && Contents() == Record(old(Contents()), th, pc, schedule)
    {
      pcs[th] := pc;
      if schedule {
        scheduling[th] := nrOfRunningThreads;
        nrOfRunningThreads := (nrOfRunningThreads + 1) % U8;
      }
    }
  }

  datatype Status = Ok | DriverError

  ghost function Footprint(context: Context?): set<object> {
    if context == null then {} else {context, context.pcs, context.scheduling}
  }

  method AnyRunning(registers: array<bv8>, member: nat) returns (r: bool)
    requires member < BITS
    ensures r <==> exists th :: 0 <= th < registers.Length && On(registers[th], member)
  {
    for th := 0 to registers.Length
      invariant forall k :: 0 <= k < th ==> !On(registers[k], member)
    {
      if On(registers[th], member) {
        return true;
      }
    }
    return false;
  }

  // The context, when there is one, holds the part of the drain before thread upTo of a round.
  ghost predicate Holds(d: Drain, round: nat, upTo: nat, before: Saved, now: Saved, schedule: bool)
    requires d.Valid() && upTo <= |d.initial| && |before.pcs| == |before.scheduling| == |d.initial|
  {
    Threads(d, d.Order(round, upTo)) && now == Recorded(d, d.Order(round, upTo), before, schedule)
  }

  // The threads that ran and are not recorded are those still marked in the previous run registers.
  ghost predicate Marked(d: Drain, round: nat, upTo: nat, recording: bool, registers: seq<bv8>)
    requires d.Valid() && |registers| == |d.initial|
  {
    forall th: nat :: th < |registers| ==>
      (On(registers[th], d.member) <==> d.Initially(th) && (recording ==> !d.Drained(th, round, upTo)))
  }

  // What is done with one run register of a round.
  method LookAtThread(d: Drain, context: Context?, schedule: bool, previous: array<bv8>, round: nat, th: nat,
                      ghost before: Saved)
    returns (running: bool)
    requires d.Valid() && round < |d.rounds| && th < previous.Length == |d.initial|
    requires |before.pcs| == |before.scheduling| == |d.initial|
    requires context != null ==> context.Valid(|d.initial|) && Holds(d, round, th, before, context.Contents(), schedule)
    requires Marked(d, round, th, context != null, previous[..])
    requires previous !in Footprint(context)
    modifies Footprint(context), previous
    ensures context != null ==> context.Valid(|d.initial|)
    ensures context != null ==> Holds(d, round, th + 1, before, context.Contents(), schedule)
    ensures Marked(d, round, th + 1, context != null, previous[..])
    ensures running <==> !d.Stopped(round, th)
  {
    hide On, Holds, Marked, Recorded, Record;
    ghost var registers := previous[..];
    running := On(d.rounds[round].run[th], d.member);
    if !running && context != null && On(previous[th], d.member) {
      Records(d, round, th, registers, before, context.Contents(), schedule);
      context.Save(th, d.rounds[round].pc, schedule);
      previous[th] := 0;
      assert previous[..] == registers[th := 0];
    } else {
      Skips(d, round, th, context != null, registers, before,
            if context == null then before else context.Contents(), schedule);
    }
  }

  // What is done with the run registers read in a round.
  method LookAtRound(d: Drain, context: Context?, schedule: bool, previous: array<bv8>, round: nat, ghost before: Saved)
    returns (draining: bool)
    requires d.Valid() && round < |d.rounds| && previous.Length == |d.initial|
    requires |before.pcs| == |before.scheduling| == |d.initial|
    requires context != null ==> context.Valid(|d.initial|) && Holds(d, round, 0, before, context.Contents(), schedule)
    requires Marked(d, round, 0, context != null, previous[..])
    requires previous !in Footprint(context)
    modifies Footprint(context), previous
    ensures context != null ==> context.Valid(|d.initial|)
    ensures context != null ==> Holds(d, round, |d.initial|, before, context.Contents(), schedule)
    ensures Marked(d, round, |d.initial|, context != null, previous[..])
    ensures draining <==> !d.AllStopped(round)
  {
    hide Holds, Marked, On;
    draining := false;
    for th := 0 to |d.initial|
      invariant context != null ==> context.Valid(|d.initial|)
      invariant context != null ==> Holds(d, round, th, before, context.Contents(), schedule)
      invariant Marked(d, round, th, context != null, previous[..])
      invariant draining ==> !d.AllStopped(round)
      invariant !draining ==> forall u: nat :: u < th ==> d.Stopped(round, u)
    {
      var running := LookAtThread(d, context, schedule, previous, round, th, before);
      draining := draining || running;
    }
  }

  lemma Skips(d: Drain, round: nat, th: nat, recording: bool, registers: seq<bv8>, before: Saved, now: Saved,
              schedule: bool)
    requires d.Valid() && round < |d.rounds| && th < |d.initial| == |registers|
    requires |before.pcs| == |before.scheduling| == |d.initial|
    requires Marked(d, round, th, recording, registers)
    requires recording ==> Holds(d, round, th, before, now, schedule)
    requires recording ==> !d.Stopped(round, th) || !On(registers[th], d.member)
    ensures Marked(d, round, th + 1, recording, registers)
    ensures recording ==> Holds(d, round, th + 1, before, now, schedule)
  {
    hide On, Recorded;
    StopsNow(d, round, th);
  }

  lemma Records(d: Drain, round: nat, th: nat, registers: seq<bv8>, before: Saved, now: Saved, schedule: bool)
    requires d.Valid() && round < |d.rounds| && th < |d.initial| == |registers|
    requires |before.pcs| == |before.scheduling| == |d.initial|
    requires Marked(d, round, th, true, registers) && Holds(d, round, th, before, now, schedule)
    requires d.Stopped(round, th) && On(registers[th], d.member)
    ensures Marked(d, round, th + 1, true, registers[th := 0])
    ensures |now.pcs| == |now.scheduling| == |d.initial|
    ensures Holds(d, round, th + 1, before, Record(now, th, d.rounds[round].pc, schedule), schedule)
  {
    hide On, Recorded, Record;
    ZeroOff(d.member);
    StopsNow(d, round, th);
    RecordedNext(d, round, th, before, schedule);
  }

  // A thread is recorded in this round when it is marked and stopped.
  lemma StopsNow(d: Drain, round: nat, th: nat)
    requires d.Valid() && round < |d.rounds| && th < |d.initial|
    ensures d.Initially(th) && d.StopOf(th) == round <==>
      d.Stopped(round, th) && d.Initially(th) && !d.Drained(th, round, th)
    ensures !(d.Initially(th) && d.StopOf(th) == round) ==> d.Order(round, th + 1) == d.Order(round, th)
    ensures forall u: nat :: u < |d.initial| ==>
      (d.Drained(u, round, th + 1)
       <==> d.Drained(u, round, th) || (u == th && d.Initially(th) && d.StopOf(th) == round))
  {
    hide On;
  }

  lemma ZeroOff(member: nat)
    requires member < BITS
    ensures !On(0, member)
  {
  }

  lemma RecordedNext(d: Drain, round: nat, th: nat, before: Saved, schedule: bool)
    requires d.Valid() && round < |d.rounds| && th < |d.initial| && |before.pcs| == |before.scheduling| == |d.initial|
    requires Threads(d, d.Order(round, th)) && d.Initially(th) && d.StopOf(th) == round
    ensures Threads(d, d.Order(round, th + 1))
    ensures Recorded(d, d.Order(round, th + 1), before, schedule)
         == Record(Recorded(d, d.Order(round, th), before, schedule), th, d.rounds[round].pc, schedule)
  {
    var order := d.Order(round, th);
    assert d.Order(round, th + 1) == order + [th];
    assert (order + [th])[..|order|] == order;
  }

  /** Draining ends well when the run registers can be read at first, and no thread ran or some round
      sees none running and replacing instructions can be switched off. However it ends, the rounds gone
      through are recorded. */
  method DrainPipeline(d: Drain, context: Context?, schedule: bool, started: bool, cleared: bool)
    returns (status: Status, count: nat)
    requires d.Valid()
    requires context != null ==> context.Valid(|d.initial|)
    modifies Footprint(context)
    ensures context != null ==> context.Valid(|d.initial|)
    ensures context != null ==> Holds(d, count, 0, old(context.Contents()), context.Contents(), schedule)
    ensures !started ==> status == DriverError && count == 0
    ensures started && d.NoneInitially() ==> status == Ok && count == 0
    ensures started && !d.NoneInitially() ==>
      (count > 0 && d.EndsAt(count - 1)) || (count == |d.rounds| && forall i: nat :: !d.EndsAt(i))
    ensures started && !d.NoneInitially() ==> (status == Ok <==> cleared && exists i: nat :: d.EndsAt(i))
  {
    hide On, Recorded, Threads;
    if !started {
      if context != null {
        NothingRecorded(d, context.Contents(), schedule);
      }
      return DriverError, 0;
    }
    var previous := new bv8[|d.initial|](th requires 0 <= th < |d.initial| => d.initial[th]);
    ghost var before := if context == null then NothingSaved(|d.initial|) else context.Contents();
    NothingRecorded(d, before, schedule);
    assert previous[..] == d.initial;
    var draining := AnyRunning(previous, d.member);
    assert draining <==> !d.NoneInitially() by {
      assert forall th: nat :: th < |d.initial| ==> (On(previous[th], d.member) <==> d.Initially(th));
    }
    count := 0;
    if draining {
      while draining
        invariant count <= |d.rounds| && fresh(previous)
        invariant context != null ==> context.Valid(|d.initial|)
        invariant context != null ==> Holds(d, count, 0, before, context.Contents(), schedule)
        invariant Marked(d, count, 0, context != null, previous[..])
        invariant draining ==> forall i: nat :: i < count ==> !d.AllStopped(i)
        invariant !draining ==> count > 0 && d.EndsAt(count - 1)
        decreases |d.rounds| - count, draining
      {
        if count == |d.rounds| {
          return DriverError, count;
        }
        draining := LookAtRound(d, context, schedule, previous, count, before);
        count := count + 1;
      }
      if !cleared {
        return DriverError, count;
      }
    }
    return Ok, count;
  }

  ghost function NothingSaved(n: nat): Saved {
    Saved(seq(n, i => 0), seq(n, i => 0), 0)
  }

  lemma NothingRecorded(d: Drain, before: Saved, schedule: bool)
    requires d.Valid() && |before.pcs| == |before.scheduling| == |d.initial|
    ensures Holds(d, 0, 0, before, before, schedule)
  {
  }

  // ----- the order of draining

  lemma {:induction false} OrderMembers(d: Drain, i: nat, upTo: nat, th: nat)
    requires d.Valid() && i <= |d.rounds| && upTo <= |d.initial| && th < |d.initial|
    ensures th in d.Order(i, upTo) <==> d.Drained(th, i, upTo)
    decreases i, upTo
  {
    if upTo > 0 {
      OrderMembers(d, i, upTo - 1, th);
    } else if i > 0 {
      OrderMembers(d, i - 1, |d.initial|, th);
    }
  }

  ghost predicate Sorted(d: Drain, order: seq<nat>)
    requires d.Valid() && Threads(d, order)
  {
    forall j, k :: 0 <= j < k < |order| ==>
      d.StopOf(order[j]) < d.StopOf(order[k]) || (d.StopOf(order[j]) == d.StopOf(order[k]) && order[j] < order[k])
  }

  /** The order is by the round that first sees a thread stopped, and by thread number in a round. */
  lemma {:induction false} OrderSorted(d: Drain, i: nat, upTo: nat)
    requires d.Valid() && upTo <= |d.initial| && (i < |d.rounds| || (i == |d.rounds| && upTo == 0))
    ensures Threads(d, d.Order(i, upTo)) && Sorted(d, d.Order(i, upTo))
    ensures forall j :: 0 <= j < |d.Order(i, upTo)| ==> d.Drained(d.Order(i, upTo)[j], i, upTo)
    decreases i, upTo
  {
    hide On;
    if upTo > 0 {
      OrderSorted(d, i, upTo - 1);
    } else if i > 0 {
      OrderSorted(d, i - 1, |d.initial|);
    }
  }

  lemma {:induction false} RecordedPcs(d: Drain, order: seq<nat>, s: Saved, schedule: bool)
    requires d.Valid() && Threads(d, order) && |s.pcs| == |s.scheduling| == |d.initial|
    ensures var r := Recorded(d, order, s, schedule);
      forall th: nat :: th < |d.initial| ==> r.pcs[th] == if th in order then d.rounds[d.StopOf(th)].pc else s.pcs[th]
  {
    if order != [] {
      RecordedPcs(d, order[..|order| - 1], s, schedule);
      assert order == order[..|order| - 1] + [order[|order| - 1]];
    }
  }

  ghost predicate Placed(order: seq<nat>, s: Saved, r: Saved)
    requires |r.scheduling| == |s.scheduling| && forall j :: 0 <= j < |order| ==> order[j] < |s.scheduling|
  {
    && r.nrOfRunningThreads == (s.nrOfRunningThreads + |order|) % U8
    && (forall j :: 0 <= j < |order| ==> r.scheduling[order[j]] == (s.nrOfRunningThreads + j) % U8)
    && (forall th: nat :: th < |s.scheduling| && th !in order ==> r.scheduling[th] == s.scheduling[th])
  }

  lemma PlacedNext(order: seq<nat>, th: nat, pc: nat, s: Saved, r: Saved)
    requires th < |r.pcs| == |r.scheduling| == |s.scheduling|
    requires (forall j :: 0 <= j < |order| ==> order[j] < |s.scheduling|) && th !in order
    requires Placed(order, s, r)
    ensures Placed(order + [th], s, Record(r, th, pc, true))
  {
    forall u: nat | u < |s.scheduling| && u !in order + [th]
      ensures Record(r, th, pc, true).scheduling[u] == s.scheduling[u]
    {
      assert (order + [th])[|order|] == th;
    }
  }

  /** Every thread of the order gets the next place in the schedule, no other does. */
  lemma {:induction false} RecordedPlaces(d: Drain, order: seq<nat>, s: Saved)
    requires d.Valid() && Threads(d, order) && Sorted(d, order)
    requires |s.pcs| == |s.scheduling| == |d.initial| && s.nrOfRunningThreads < U8
    ensures Placed(order, s, Recorded(d, order, s, true))
  {
    hide On;
    if order != [] {
      var rest, last := order[..|order| - 1], order[|order| - 1];
      RecordedPlaces(d, rest, s);
      assert order == rest + [last];
      hide Placed, Record;
      PlacedNext(rest, last, d.rounds[d.StopOf(last)].pc, s, Recorded(d, rest, s, true));
    }
  }

  lemma {:induction false} NoPlaces(d: Drain, order: seq<nat>, s: Saved)
    requires d.Valid() && Threads(d, order) && |s.pcs| == |s.scheduling| == |d.initial|
    ensures var r := Recorded(d, order, s, false);
      r.nrOfRunningThreads == s.nrOfRunningThreads && r.scheduling == s.scheduling
  {
    if order != [] {
      NoPlaces(d, order[..|order| - 1], s);
    }
  }

  /** When draining has ended, the order holds each thread that ran at first, once, and no other. */
  lemma EndedOrder(d: Drain, i: nat)
    requires d.Valid() && d.EndsAt(i)
    ensures var order := d.Order(i + 1, 0);
      && Threads(d, order) && Sorted(d, order)
      && (forall j, k :: 0 <= j < k < |order| ==> order[j] != order[k])
      && (forall th: nat :: th < |d.initial| ==> (th in order <==> d.Initially(th)))
  {
    OrderSorted(d, i + 1, 0);
    forall th: nat | th < |d.initial| ensures th in d.Order(i + 1, 0) <==> d.Initially(th) {
      assert d.Stopped(i, th);
      OrderMembers(d, i + 1, 0, th);
    }
  }

  lemma {:induction false} DistinctLength(order: seq<nat>, n: nat)
    requires forall j, k :: 0 <= j < k < |order| ==> order[j] != order[k]
    requires forall j :: 0 <= j < |order| ==> order[j] < n
    ensures |order| <= n
  {
    assert order == [] || order[0] < n;
    if n > 0 {
      if n - 1 in order {
        var j :| 0 <= j < |order| && order[j] == n - 1;
        DistinctLength(order[..j] + order[j + 1..], n - 1);
      } else {
        DistinctLength(order, n - 1);
      }
    }
  }

  lemma DistinctPlaces(nr: nat, j: nat, k: nat)
    requires j < k < U8
    ensures (nr + j) % U8 != (nr + k) % U8
  {
  }

  ghost predicate DistinctScheduling(order: seq<nat>, r: Saved)
    requires forall j :: 0 <= j < |order| ==> order[j] < |r.scheduling|
  {
    forall j, k :: 0 <= j < k < |order| ==> r.scheduling[order[j]] != r.scheduling[order[k]]
  }

  lemma EndedPlaces(d: Drain, i: nat, s: Saved, r: Saved)
    requires d.Valid() && d.EndsAt(i) && |s.scheduling| == |r.scheduling| == |d.initial| <= U8
    requires Threads(d, d.Order(i + 1, 0)) && Placed(d.Order(i + 1, 0), s, r)
    ensures DistinctScheduling(d.Order(i + 1, 0), r)
  {
    var order := d.Order(i + 1, 0);
    EndedOrder(d, i);
    DistinctLength(order, |d.initial|);
    forall j, k | 0 <= j < k < |order|
      ensures r.scheduling[order[j]] != r.scheduling[order[k]]
    {
      DistinctPlaces(s.nrOfRunningThreads, j, k);
    }
  }

  /** What a drain that ended well leaves in a context, whatever the hardware showed: the threads that
      ran at first, and only they, have the program counter of their round, and distinct consecutive
      places in the order of the drain; the number of running threads grows by how many they are. */
  lemma DrainedContext(d: Drain, i: nat, s: Saved, schedule: bool)
    requires d.Valid() && d.EndsAt(i)
    requires |s.pcs| == |s.scheduling| == |d.initial| <= U8 && s.nrOfRunningThreads < U8
    ensures var order := d.Order(i + 1, 0);
      && Threads(d, order) && Sorted(d, order)
      && (forall th: nat :: th < |d.initial| ==> (th in order <==> d.Initially(th)))
      && var r := Recorded(d, order, s, schedule);
      && (forall th: nat :: th < |d.initial| ==>
            r.pcs[th] == if d.Initially(th) then d.rounds[d.StopOf(th)].pc else s.pcs[th])
      && (schedule ==> Placed(order, s, r))
      && (schedule ==> DistinctScheduling(order, r))
      && (!schedule ==> r.scheduling == s.scheduling && r.nrOfRunningThreads == s.nrOfRunningThreads)
  {
    hide On, Recorded, Placed, Threads, Sorted, DistinctScheduling;
    var order := d.Order(i + 1, 0);
    EndedOrder(d, i);
    RecordedPcs(d, order, s, schedule);
    if schedule {
      RecordedPlaces(d, order, s);
      EndedPlaces(d, i, s, Recorded(d, order, s, true));
    } else {
      NoPlaces(d, order, s);
    }
  }
}
