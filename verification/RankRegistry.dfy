/** The list of all allocated ranks: an array of slots that grows when it is full, with a cursor on the
    slot for the next rank. */
module RankRegistry {

  // What a slot refers to; only the identity of a rank matters.
  datatype RankRef = Null | RankAt(id: nat)

  // What the list holds: Null in a slot that is not used.
  datatype Slots = Slots(entries: seq<RankRef>, next: nat)

  function FirstOf(entries: seq<RankRef>, r: RankRef): (i: nat)
    ensures i <= |entries|
    ensures i < |entries| ==> entries[i] == r
    ensures forall k :: 0 <= k < i ==> entries[k] != r
  {
    if entries == [] || entries[0] == r then 0 else 1 + FirstOf(entries[1..], r)
  }

  function Nulls(n: nat): (s: seq<RankRef>)
    ensures |s| == n && forall i :: 0 <= i < n ==> s[i] == Null
  {
    seq(n, i => Null)
  }

  function UpdatedNext(entries: seq<RankRef>): Slots {
    if FirstOf(entries, Null) < |entries| then Slots(entries, FirstOf(entries, Null))
    else Slots(entries + Nulls(|entries| + 1), |entries|)
  }

  function Added(s: Slots, r: RankRef): Slots
    requires s.next < |s.entries|
  {
    UpdatedNext(s.entries[s.next := r])
  }

  function Removed(s: Slots, r: RankRef): Slots {
    if FirstOf(s.entries, r) < |s.entries| then s.(entries := s.entries[FirstOf(s.entries, r) := Null]) else s
  }

  class Registry {
    var list: array<RankRef>
    var next: nat

    ghost function Contents(): Slots
      reads this, list
    {
      Slots(list[..], next)
    }

    ghost predicate Valid()
      reads this
    {
      next < list.Length
    }

    constructor ()
      ensures Valid() && fresh(list) && Contents() == Slots([Null], 0)
    {
      list := new RankRef[1](i => Null);
      next := 0;
    }

    /** Reallocation is assumed to succeed. */
    method UpdateNext()
      modifies this
      ensures Valid() && Contents() == UpdatedNext(old(list[..]))
      ensures list == old(list) || fresh(list)
    {
      ghost var entries := list[..];
      var i := 0;
      while i < list.Length
        invariant 0 <= i <= list.Length && list[..] == entries
        invariant list == old(list)
        invariant i <= FirstOf(entries, Null)
      {
        if list[i] == Null {
          next := i;
          return;
        }
        i := i + 1;
      }
      var size := list.Length;
      var tmp := new RankRef[size * 2 + 1](k requires 0 <= k < size * 2 + 1 reads this, list =>
        if k < list.Length then list[k] else Null);
      list := tmp;
      next := size;
      assert list[..] == entries + Nulls(size + 1);
    }

    method Add(rank: RankRef)
      requires Valid()
      modifies this, list
      ensures Valid() && Contents() == Added(old(Contents()), rank)
      ensures list == old(list) || fresh(list)
    {
      list[next] := rank;
      UpdateNext();
    }

    method Remove(rank: RankRef)
      requires Valid()
      modifies list
      ensures Valid() && Contents() == Removed(old(Contents()), rank)
    {
      ghost var entries := list[..];
      for i := 0 to list.Length
        invariant list[..] == entries
        invariant i <= FirstOf(entries, rank)
      {
        if list[i] == rank {
          list[i] := Null;
          return;
        }
      }
    }
  }

  // ----- what a registry holds

  ghost predicate Holds(s: Slots, live: set<RankRef>) {
    && s.next < |s.entries|
    && s.entries[s.next] == Null
    && (forall r :: r in live <==> r.RankAt? && r in s.entries)
    && (forall i, j :: 0 <= i < j < |s.entries| && s.entries[i] != Null ==> s.entries[i] != s.entries[j])
  }

  /** Each live rank is in one slot, and no other rank is in any. */
  lemma HoldsEachOnce(s: Slots, live: set<RankRef>, r: RankRef)
    requires Holds(s, live) && r.RankAt?
    ensures multiset(s.entries)[r] == if r in live then 1 else 0
  {
    if r in live {
      var i :| 0 <= i < |s.entries| && s.entries[i] == r;
      assert r !in s.entries[..i] && r !in s.entries[i + 1..];
      hide Holds;
      CountOnce(s.entries, i);
    }
  }

  lemma CountOnce(entries: seq<RankRef>, i: nat)
    requires i < |entries| && entries[i] !in entries[..i] && entries[i] !in entries[i + 1..]
    ensures multiset(entries)[entries[i]] == 1
  {
    assert entries == entries[..i] + [entries[i]] + entries[i + 1..];
  }

  /** Adding stores the rank at the cursor, moves nothing and leaves the cursor on the first empty slot. */
  lemma AddPlaces(s: Slots, r: RankRef)
    requires s.next < |s.entries|
    ensures var after := Added(s, r);
      && |s.entries| <= |after.entries|
      && (forall i: nat :: i < |s.entries| ==> after.entries[i] == if i == s.next then r else s.entries[i])
      && (forall i: nat :: |s.entries| <= i < |after.entries| ==> after.entries[i] == Null)
      && after.next < |after.entries| && after.entries[after.next] == Null
      && (forall i: nat :: i < after.next ==> after.entries[i] != Null)
  {
  }

  lemma AddHolds(s: Slots, live: set<RankRef>, r: RankRef)
    requires Holds(s, live) && r.RankAt? && r !in live
    ensures Holds(Added(s, r), live + {r})
  {
    var entries := s.entries[s.next := r];
    var after := Added(s, r).entries;
    assert forall i :: 0 <= i < |entries| ==> after[i] == entries[i];
    assert after[s.next] == r;
    forall q: RankRef ensures q in live + {r} <==> q.RankAt? && q in after {
      if q in live {
        var i :| 0 <= i < |s.entries| && s.entries[i] == q;
        assert after[i] == q;
      }
      if q.RankAt? && q in after {
        var i :| 0 <= i < |after| && after[i] == q;
        assert i < |entries| && (i == s.next || s.entries[i] == q);
      }
    }
  }

  lemma RemoveHolds(s: Slots, live: set<RankRef>, r: RankRef)
    requires Holds(s, live) && r.RankAt?
    ensures Holds(Removed(s, r), live - {r})
  {
    var k := FirstOf(s.entries, r);
    var after := Removed(s, r).entries;
    forall q: RankRef ensures q in live - {r} <==> q.RankAt? && q in after {
      if q in live && q != r {
        var i :| 0 <= i < |s.entries| && s.entries[i] == q;
        assert after[i] == q;
      }
      if q.RankAt? && q in after {
        var i :| 0 <= i < |after| && after[i] == q;
        assert s.entries[i] == q;
      }
    }
  }

  // ----- runs

  datatype Op = Add(rank: RankRef) | Remove(rank: RankRef)

  function Step(s: Slots, op: Op): Slots
    requires s.next < |s.entries|
  {
    match op
    case Add(r) => Added(s, r)
    case Remove(r) => Removed(s, r)
  }

  function LiveAfter(live: set<RankRef>, op: Op): set<RankRef> {
    match op
    case Add(r) => live + {r}
    case Remove(r) => live - {r}
  }

  function Run(s: Slots, ops: seq<Op>): (r: Slots)
    requires s.next < |s.entries|
    ensures r.next < |r.entries|
    decreases |ops|
  {
    if ops == [] then s else Run(Step(s, ops[0]), ops[1..])
  }

  function LiveAfterRun(live: set<RankRef>, ops: seq<Op>): set<RankRef>
    decreases |ops|
  {
    if ops == [] then live else LiveAfterRun(LiveAfter(live, ops[0]), ops[1..])
  }

  // Only ranks are added and removed, and only those added that are not in the list.
  predicate Lawful(live: set<RankRef>, ops: seq<Op>)
    decreases |ops|
  {
    ops != [] ==>
      && ops[0].rank.RankAt? && (ops[0].Add? ==> ops[0].rank !in live)
      && Lawful(LiveAfter(live, ops[0]), ops[1..])
  }

  /** The list that the program starts with holds no rank. */
  lemma NewHoldsNothing()
    ensures Holds(Slots([Null], 0), {})
  {
  }

  /** Over every run the registry holds the live ranks. */
  lemma {:induction false} RunHolds(s: Slots, live: set<RankRef>, ops: seq<Op>)
    requires Holds(s, live) && Lawful(live, ops)
    ensures Holds(Run(s, ops), LiveAfterRun(live, ops))
    decreases |ops|
  {
    assert s.next < |s.entries|;
    hide Holds;
    if ops != [] {
      StepHolds(s, live, ops[0]);
      RunHolds(Step(s, ops[0]), LiveAfter(live, ops[0]), ops[1..]);
    }
  }

  lemma StepHolds(s: Slots, live: set<RankRef>, op: Op)
    requires Holds(s, live) && op.rank.RankAt? && (op.Add? ==> op.rank !in live)
    ensures Step(s, op).next < |Step(s, op).entries|
    ensures Holds(Step(s, op), LiveAfter(live, op))
  {
    match op
    case Add(r) => AddHolds(s, live, r);
    case Remove(r) => RemoveHolds(s, live, r);
  }

  /** A rank stays in its slot for as long as it is not removed, even when the list grows. */
  lemma {:induction false} RunKeepsPlace(s: Slots, live: set<RankRef>, ops: seq<Op>, i: nat)
    requires Holds(s, live) && Lawful(live, ops)
    requires i < |s.entries| && s.entries[i] != Null && Remove(s.entries[i]) !in ops
    ensures i < |Run(s, ops).entries| && Run(s, ops).entries[i] == s.entries[i]
    decreases |ops|
  {
    if ops != [] {
      StepHolds(s, live, ops[0]);
      var after := Step(s, ops[0]);
      assert after.entries[i] == s.entries[i];
      RunKeepsPlace(after, LiveAfter(live, ops[0]), ops[1..], i);
    }
  }

  // ----- space

  // The most ranks live at once.
  function Peak(live: set<RankRef>, ops: seq<Op>): nat
    decreases |ops|
  {
    if ops == [] then |live|
    else
      var rest := Peak(LiveAfter(live, ops[0]), ops[1..]);
      if |live| > rest then |live| else rest
  }

  lemma {:induction false} FullCount(entries: seq<RankRef>, live: set<RankRef>)
    requires forall r :: r in live <==> r in entries
    requires forall i, j :: 0 <= i < j < |entries| ==> entries[i] != entries[j]
    requires forall i :: 0 <= i < |entries| ==> entries[i] != Null
    ensures |live| == |entries|
  {
    if entries == [] {
      assert live == {};
    } else {
      var last := |entries| - 1;
      var r := entries[last];
      assert r in live;
      forall q: RankRef ensures q in live - {r} <==> q in entries[..last] {
        if q in live && q != r {
          var i :| 0 <= i < |entries| && entries[i] == q;
          assert entries[..last][i] == q;
        }
      }
      FullCount(entries[..last], live - {r});
    }
  }

  lemma InUpdated(s: Slots, live: set<RankRef>, added: RankRef, r: RankRef)
    requires Holds(s, live) && added.RankAt? && FirstOf(s.entries[s.next := added], Null) == |s.entries|
    ensures r in live + {added} <==> r in s.entries[s.next := added]
  {
    var entries := s.entries[s.next := added];
    assert entries[s.next] == added;
    if r in live {
      var i :| 0 <= i < |s.entries| && s.entries[i] == r;
      assert entries[i] == r;
    }
  }

  lemma StepSpace(s: Slots, live: set<RankRef>, op: Op)
    requires Holds(s, live) && op.rank.RankAt? && (op.Add? ==> op.rank !in live)
    ensures var after := Step(s, op).entries;
      |after| == |s.entries| || |after| == 2 * |LiveAfter(live, op)| + 1
  {
    if op.Add? && |Step(s, op).entries| > |s.entries| {
      var entries := s.entries[s.next := op.rank];
      assert forall i, j :: 0 <= i < j < |entries| ==> entries[i] != entries[j];
      forall r: RankRef ensures r in live + {op.rank} <==> r in entries {
        InUpdated(s, live, op.rank, r);
      }
      hide Holds;
      FullCount(entries, live + {op.rank});
    }
  }

  /** The list never has more slots than twice the most ranks live at once, and one. */
  lemma {:induction false} RunSpace(s: Slots, live: set<RankRef>, ops: seq<Op>, peak: nat)
    requires Holds(s, live) && Lawful(live, ops)
    requires Peak(live, ops) <= peak && |s.entries| <= 2 * peak + 1
    ensures |Run(s, ops).entries| <= 2 * peak + 1
    decreases |ops|
  {
    assert s.next < |s.entries|;
    hide Holds;
    if ops != [] {
      StepHolds(s, live, ops[0]);
      StepSpace(s, live, ops[0]);
      RunSpace(Step(s, ops[0]), LiveAfter(live, ops[0]), ops[1..], peak);
    }
  }
}
