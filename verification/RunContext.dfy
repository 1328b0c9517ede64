/** Which DPUs of a rank the host believes to be running. The belief is refreshed by polling, changed
    by launching, and summed in a count that gates rank boots and MRAM copies. */
module RunContext {
  import opened Bits

  const MAX_CIS: nat := 8

  // One bit per DPU, one byte per control interface (CI).
  type Masks = s: seq<bv8> | |s| == MAX_CIS witness [0, 0, 0, 0, 0, 0, 0, 0]

  const NOBODY: Masks := [0, 0, 0, 0, 0, 0, 0, 0]

  datatype Status = Ok | DpuDisabled | DpuAlreadyRunning | MramBusy | HardwareError(code: nat)

  // What the hardware says when polled.
  datatype Reply = PollFailed(code: nat) | PollRead(running: Masks, inFault: Masks)

  datatype Dpu = Dpu(ci: nat, member: nat)

  datatype State = State(nrCis: nat, enabled: Masks, dpuEnabled: Masks, running: Masks, inFault: Masks, nbRunning: nat)
  {
    // A DPU has its own enabled flag, and a bit in the mask of its CI.
    predicate Valid() {
      nrCis <= MAX_CIS && nbRunning < 256 && forall c :: 0 <= c < nrCis ==> enabled[c] == dpuEnabled[c]
    }

    predicate Has(d: Dpu) {
      d.ci < nrCis <= MAX_CIS && d.member < BITS
    }

    predicate Enabled(d: Dpu)
      requires Has(d)
    {
      On(dpuEnabled[d.ci], d.member)
    }
  }

  datatype Outcome = Outcome(status: Status, state: State)

  function Total(masks: Masks, count: nat): (n: nat)
    requires count <= MAX_CIS
    ensures n <= 8 * count
  {
    if count == 0 then 0 else Total(masks, count - 1) + Popcount(masks[count - 1])
  }

  // What a reply says about the DPUs of one CI.
  function Executing(running: bv8, inFault: bv8): bv8 {
    Without(running, inFault)
  }

  function Replaced(masks: Masks, with: Masks, count: nat): (r: Masks)
    requires count <= MAX_CIS
  {
    with[..count] + masks[count..]
  }

  lemma ReplacedStep(masks: Masks, with: Masks, count: nat)
    requires count < MAX_CIS
    ensures Replaced(masks, with, count)[count := with[count]] == Replaced(masks, with, count + 1)
    ensures Replaced(masks, with, 0) == masks
  {
  }

  // ----- the operations

  function EnabledFaults(s: State, reply: Reply): (r: Masks)
    requires reply.PollRead?
  {
    seq(MAX_CIS, c requires 0 <= c < MAX_CIS => Common(reply.inFault[c], s.enabled[c]))
  }

  function EnabledRunning(s: State, reply: Reply): (r: Masks)
    requires reply.PollRead?
  {
    seq(MAX_CIS, c requires 0 <= c < MAX_CIS =>
      Without(Common(reply.running[c], s.enabled[c]), EnabledFaults(s, reply)[c]))
  }

  lemma ReadAt(s: State, reply: Reply, c: nat)
    requires reply.PollRead? && c < MAX_CIS
    ensures EnabledFaults(s, reply)[c] == Common(reply.inFault[c], s.enabled[c])
    ensures EnabledRunning(s, reply)[c] == Without(Common(reply.running[c], s.enabled[c]), EnabledFaults(s, reply)[c])
  {
  }

  function PollRank(s: State, reply: Reply): (o: Outcome)
    requires s.Valid()
    ensures o.state.Valid() && o.state.nrCis == s.nrCis
    ensures o.state.enabled == s.enabled && o.state.dpuEnabled == s.dpuEnabled
  {
    match reply
    case PollFailed(code) => Outcome(HardwareError(code), s)
    case PollRead(_, _) =>
      Outcome(Ok, s.(inFault := Replaced(s.inFault, EnabledFaults(s, reply), s.nrCis),
                     running := Replaced(s.running, EnabledRunning(s, reply), s.nrCis),
                     nbRunning := Total(EnabledRunning(s, reply), s.nrCis)))
  }

  function LaunchOnRank(s: State, reply: Reply, boot: Status): (o: Outcome)
    requires s.Valid()
    ensures o.state.Valid() && o.state.nrCis == s.nrCis
    ensures o.state.enabled == s.enabled && o.state.dpuEnabled == s.dpuEnabled
  {
    var polled := PollRank(s, reply);
    if polled.status != Ok then polled
    else if boot != Ok then Outcome(boot, polled.state)
    else
      Outcome(Ok, polled.state.(running := Replaced(polled.state.running, s.enabled, s.nrCis),
                                nbRunning := Total(s.enabled, s.nrCis)))
  }

  function LaunchOnDpu(s: State, d: Dpu, reply: Reply, boot: Status): (o: Outcome)
    requires s.Valid() && s.Has(d)
    ensures o.state.Valid() && o.state.nrCis == s.nrCis
    ensures o.state.enabled == s.enabled && o.state.dpuEnabled == s.dpuEnabled
  {
    if !s.Enabled(d) then Outcome(DpuDisabled, s)
    else
      var polled := PollRank(s, reply);
      if polled.status != Ok then polled
      else if boot != Ok then Outcome(boot, polled.state)
      else if On(polled.state.running[d.ci], d.member) then polled
      else
        Outcome(Ok, polled.state.(
          running := polled.state.running[d.ci := Raised(polled.state.running[d.ci], d.member)],
          nbRunning := (polled.state.nbRunning + 1) % 256))
  }

  function BootDpu(s: State, d: Dpu, prepared: Status, reply: Reply, boot: Status): (o: Outcome)
    requires s.Valid() && s.Has(d)
    ensures o.state.Valid() && o.state.nrCis == s.nrCis
    ensures o.state.enabled == s.enabled && o.state.dpuEnabled == s.dpuEnabled
  {
    if !s.Enabled(d) then Outcome(DpuDisabled, s)
    else if On(s.running[d.ci], d.member) then Outcome(DpuAlreadyRunning, s)
    else if prepared != Ok then Outcome(prepared, s)
    else LaunchOnDpu(s, d, reply, boot)
  }

  function BootRank(s: State, prepared: Status, reply: Reply, boot: Status): (o: Outcome)
    requires s.Valid()
    ensures o.state.Valid() && o.state.nrCis == s.nrCis
    ensures o.state.enabled == s.enabled && o.state.dpuEnabled == s.dpuEnabled
  {
    if s.nbRunning != 0 then Outcome(DpuAlreadyRunning, s)
    else if prepared != Ok then Outcome(prepared, s)
    else LaunchOnRank(s, reply, boot)
  }

  function DisableDpu(s: State, d: Dpu, disabled: Status): (o: Outcome)
    requires s.Valid() && s.Has(d)
    ensures o.state.Valid() && o.state.nrCis == s.nrCis
  {
    if !s.Enabled(d) then Outcome(DpuDisabled, s)
    else if disabled != Ok then Outcome(disabled, s)
    else
      Outcome(Ok, s.(enabled := s.enabled[d.ci := Without(s.enabled[d.ci], Bit(d.member))],
                     dpuEnabled := s.dpuEnabled[d.ci := Without(s.dpuEnabled[d.ci], Bit(d.member))]))
  }

  // What an MRAM copy answers when its transfer would answer result.
  function CopyMram(s: State, result: Status): Status {
    if s.nbRunning > 0 then MramBusy else result
  }

  datatype RankStatus = RankStatus(done: bool, fault: bool)

  ghost predicate Idle(s: State)
    requires s.nrCis <= MAX_CIS
  {
    forall c: nat :: c < s.nrCis ==> s.running[c] == 0
  }

  // ----- one rank

  class Rank {
    const nrCis: nat
    const enabled: array<bv8>
    const dpuEnabled: array<bv8>
    const running: array<bv8>
    const inFault: array<bv8>
    var nbRunning: nat

    ghost predicate Shaped()
      reads this
    {
      && nrCis <= MAX_CIS
      && enabled.Length == dpuEnabled.Length == running.Length == inFault.Length == MAX_CIS
      && enabled != dpuEnabled && enabled != running && enabled != inFault
      && dpuEnabled != running && dpuEnabled != inFault && running != inFault
    }

    ghost function Contents(): State
      requires Shaped()
      reads this, enabled, dpuEnabled, running, inFault
    {
      State(nrCis, enabled[..], dpuEnabled[..], running[..], inFault[..], nbRunning)
    }

    ghost predicate Valid()
      reads this, enabled, dpuEnabled, running, inFault
    {
      Shaped() && Contents().Valid()
    }

    constructor (nrCis: nat, mask: Masks)
      requires nrCis <= MAX_CIS
      ensures Valid() && Contents() == State(nrCis, mask, mask, NOBODY, NOBODY, 0)
      ensures fresh(enabled) && fresh(dpuEnabled) && fresh(running) && fresh(inFault)
    {
      this.nrCis := nrCis;
      enabled := new bv8[MAX_CIS](c requires 0 <= c < MAX_CIS => mask[c]);
      dpuEnabled := new bv8[MAX_CIS](c requires 0 <= c < MAX_CIS => mask[c]);
      running := new bv8[MAX_CIS](c => 0);
      inFault := new bv8[MAX_CIS](c => 0);
      nbRunning := 0;
      new;
      assert enabled[..] == mask && dpuEnabled[..] == mask;
      assert running[..] == NOBODY && inFault[..] == NOBODY;
    }

    method Poll(reply: Reply) returns (status: Status)
      requires Valid()
      modifies this`nbRunning, running, inFault
      ensures Valid() && Outcome(status, Contents()) == PollRank(old(Contents()), reply)
    {
      hide Common, Without, Popcount, EnabledRunning, EnabledFaults, Replaced;
      if reply.PollFailed? {
        return HardwareError(reply.code);
      }
      ghost var was := Contents();
      ghost var runs, faults := EnabledRunning(was, reply), EnabledFaults(was, reply);
      ReplacedStep(was.running, runs, 0);
      ReplacedStep(was.inFault, faults, 0);
      var nb: nat := 0;
      for c := 0 to nrCis
        invariant nb == Total(runs, c)
        invariant running[..] == Replaced(was.running, runs, c)
        invariant inFault[..] == Replaced(was.inFault, faults, c)
        invariant nbRunning == was.nbRunning
      {
        ReadAt(was, reply, c);
        ReplacedStep(was.running, runs, c);
        ReplacedStep(was.inFault, faults, c);
        inFault[c] := Common(reply.inFault[c], enabled[c]);
        running[c] := Without(Common(reply.running[c], enabled[c]), inFault[c]);
        nb := nb + Popcount(running[c]);
      }
      nbRunning := nb % 256;
      return Ok;
    }

    method LaunchThreadOnRank(reply: Reply, boot: Status) returns (status: Status)
      requires Valid()
      modifies this`nbRunning, running, inFault
      ensures Valid() && Outcome(status, Contents()) == LaunchOnRank(old(Contents()), reply, boot)
    {
      hide Common, Without, Popcount, PollRank, Replaced;
      status := Poll(reply);
      if status != Ok {
        return;
      }
      ghost var polled := Contents();
      if boot != Ok {
        return boot;
      }
      var nb: nat := 0;
      ReplacedStep(polled.running, polled.enabled, 0);
      for c := 0 to nrCis
        invariant nb == Total(polled.enabled, c)
        invariant running[..] == Replaced(polled.running, polled.enabled, c)
        invariant inFault[..] == polled.inFault
      {
        ReplacedStep(polled.running, polled.enabled, c);
        running[c] := enabled[c];
        nb := nb + Popcount(enabled[c]);
      }
      nbRunning := nb % 256;
      assert enabled[..] == polled.enabled && dpuEnabled[..] == polled.dpuEnabled;
    }

    method LaunchThreadOnDpu(d: Dpu, reply: Reply, boot: Status) returns (status: Status)
      requires Valid() && Contents().Has(d)
      modifies this`nbRunning, running, inFault
      ensures Valid() && Outcome(status, Contents()) == LaunchOnDpu(old(Contents()), d, reply, boot)
    {
      hide On, Raised, PollRank;
      if !On(dpuEnabled[d.ci], d.member) {
        return DpuDisabled;
      }
      status := Poll(reply);
      if status != Ok {
        return;
      }
      var isRunning := On(running[d.ci], d.member);
      if boot != Ok {
        return boot;
      }
      if !isRunning {
        ghost var polled := Contents();
        running[d.ci] := Raised(running[d.ci], d.member);
        nbRunning := (nbRunning + 1) % 256;
        assert running[..] == polled.running[d.ci := Raised(polled.running[d.ci], d.member)];
      }
    }

    method Boot(d: Dpu, prepared: Status, reply: Reply, boot: Status) returns (status: Status)
      requires Valid() && Contents().Has(d)
      modifies this`nbRunning, running, inFault
      ensures Valid() && Outcome(status, Contents()) == BootDpu(old(Contents()), d, prepared, reply, boot)
    {
      if !On(dpuEnabled[d.ci], d.member) {
        return DpuDisabled;
      }
      if On(running[d.ci], d.member) {
        return DpuAlreadyRunning;
      }
      if prepared != Ok {
        return prepared;
      }
      status := LaunchThreadOnDpu(d, reply, boot);
    }

    method BootAll(prepared: Status, reply: Reply, boot: Status) returns (status: Status)
      requires Valid()
      modifies this`nbRunning, running, inFault
      ensures Valid() && Outcome(status, Contents()) == BootRank(old(Contents()), prepared, reply, boot)
    {
      if nbRunning != 0 {
        return DpuAlreadyRunning;
      }
      if prepared != Ok {
        return prepared;
      }
      status := LaunchThreadOnRank(reply, boot);
    }

    method Disable(d: Dpu, disabled: Status) returns (status: Status)
      requires Valid() && Contents().Has(d)
      modifies enabled, dpuEnabled
      ensures Valid() && Outcome(status, Contents()) == DisableDpu(old(Contents()), d, disabled)
    {
      hide On, Without;
      if !On(dpuEnabled[d.ci], d.member) {
        return DpuDisabled;
      }
      if disabled != Ok {
        return disabled;
      }
      enabled[d.ci] := Without(enabled[d.ci], Bit(d.member));
      dpuEnabled[d.ci] := Without(dpuEnabled[d.ci], Bit(d.member));
      ghost var was := old(Contents());
      assert enabled[..] == was.enabled[d.ci := Without(was.enabled[d.ci], Bit(d.member))];
      assert dpuEnabled[..] == was.dpuEnabled[d.ci := Without(was.dpuEnabled[d.ci], Bit(d.member))];
      return Ok;
    }

    /** Done says that no CI has a running DPU, fault that some CI has one in fault. */
    method StatusOf() returns (status: RankStatus)
      requires Valid()
      ensures status.done <==> Idle(Contents())
      ensures status.fault <==> exists c: nat :: c < nrCis && inFault[c] != 0
    {
      var done, fault := true, false;
      for c := 0 to nrCis
        invariant done <==> forall k: nat :: k < c ==> running[k] == 0
        invariant fault <==> exists k: nat :: k < c && inFault[k] != 0
      {
        done := done && running[c] == 0;
        fault := fault || inFault[c] != 0;
      }
      return RankStatus(done, fault);
    }
  }

  // ----- the count

  ghost predicate Counted(s: State)
    requires s.nrCis <= MAX_CIS
  {
    s.nbRunning == Total(s.running, s.nrCis)
  }

  lemma {:induction false} SameTotal(a: Masks, b: Masks, count: nat)
    requires count <= MAX_CIS && forall c :: 0 <= c < count ==> a[c] == b[c]
    ensures Total(a, count) == Total(b, count)
  {
    if count > 0 {
      SameTotal(a, b, count - 1);
    }
  }

  lemma {:induction false} TotalRaised(a: Masks, ci: nat, member: nat, count: nat)
    requires ci < count <= MAX_CIS && member < BITS && !On(a[ci], member)
    ensures Total(a[ci := Raised(a[ci], member)], count) == Total(a, count) + 1
  {
    hide On, Raised, Popcount;
    if ci == count - 1 {
      PopcountRaised(a[ci], member);
      SameTotal(a, a[ci := Raised(a[ci], member)], count - 1);
    } else {
      TotalRaised(a, ci, member, count - 1);
    }
  }

  lemma {:induction false} TotalZero(a: Masks, count: nat)
    requires count <= MAX_CIS
    ensures Total(a, count) == 0 <==> forall c: nat :: c < count ==> a[c] == 0
  {
    hide Popcount;
    if count > 0 {
      TotalZero(a, count - 1);
      PopcountZero(a[count - 1]);
    }
  }

  /** With the count kept, the status says done exactly when a rank may boot and MRAM may be copied. */
  lemma DoneOpensTheGates(s: State, prepared: Status, reply: Reply, boot: Status, result: Status)
    requires s.Valid() && Counted(s)
    ensures Idle(s) <==> s.nbRunning == 0
    ensures Idle(s) ==> CopyMram(s, result) == result
    ensures !Idle(s) ==>
      CopyMram(s, result) == MramBusy && BootRank(s, prepared, reply, boot) == Outcome(DpuAlreadyRunning, s)
    ensures Idle(s) && prepared == Ok ==> BootRank(s, prepared, reply, boot) == LaunchOnRank(s, reply, boot)
  {
    TotalZero(s.running, s.nrCis);
  }

  // ----- runs

  datatype Op =
    | Poll(reply: Reply)
    | LaunchRank(reply: Reply, boot: Status)
    | LaunchDpu(dpu: Dpu, reply: Reply, boot: Status)
    | BootOne(dpu: Dpu, prepared: Status, reply: Reply, boot: Status)
    | BootAll(prepared: Status, reply: Reply, boot: Status)
    | Disable(dpu: Dpu, disabled: Status)
  {
    predicate For(s: State) {
      LaunchDpu? || BootOne? || Disable? ==> s.Has(dpu)
    }
  }

  function Step(s: State, op: Op): (o: Outcome)
    requires s.Valid() && op.For(s)
    ensures o.state.Valid() && o.state.nrCis == s.nrCis
  {
    match op
    case Poll(reply) => PollRank(s, reply)
    case LaunchRank(reply, boot) => LaunchOnRank(s, reply, boot)
    case LaunchDpu(dpu, reply, boot) => LaunchOnDpu(s, dpu, reply, boot)
    case BootOne(dpu, prepared, reply, boot) => BootDpu(s, dpu, prepared, reply, boot)
    case BootAll(prepared, reply, boot) => BootRank(s, prepared, reply, boot)
    case Disable(dpu, disabled) => DisableDpu(s, dpu, disabled)
  }

  lemma PollCounted(s: State, reply: Reply)
    requires s.Valid() && Counted(s)
    ensures Counted(PollRank(s, reply).state)
  {
    hide EnabledRunning, EnabledFaults;
    if reply.PollRead? {
      SameTotal(EnabledRunning(s, reply), PollRank(s, reply).state.running, s.nrCis);
    }
  }

  lemma LaunchRankCounted(s: State, reply: Reply, boot: Status)
    requires s.Valid() && Counted(s)
    ensures Counted(LaunchOnRank(s, reply, boot).state)
  {
    hide PollRank;
    PollCounted(s, reply);
    SameTotal(s.enabled, Replaced(PollRank(s, reply).state.running, s.enabled, s.nrCis), s.nrCis);
  }

  lemma LaunchDpuCounted(s: State, d: Dpu, reply: Reply, boot: Status)
    requires s.Valid() && s.Has(d) && Counted(s)
    ensures Counted(LaunchOnDpu(s, d, reply, boot).state)
  {
    hide PollRank, On, Raised, Popcount;
    PollCounted(s, reply);
    var polled := PollRank(s, reply).state;
    if !On(polled.running[d.ci], d.member) {
      TotalRaised(polled.running, d.ci, d.member, s.nrCis);
    }
  }

  /** Every operation keeps the count. */
  lemma StepCounted(s: State, op: Op)
    requires s.Valid() && op.For(s) && Counted(s)
    ensures Counted(Step(s, op).state)
  {
    hide PollRank, LaunchOnRank, LaunchOnDpu, On, Without;
    match op
    case Poll(reply) => PollCounted(s, reply);
    case LaunchRank(reply, boot) => LaunchRankCounted(s, reply, boot);
    case LaunchDpu(dpu, reply, boot) => LaunchDpuCounted(s, dpu, reply, boot);
    case BootOne(dpu, prepared, reply, boot) => LaunchDpuCounted(s, dpu, reply, boot);
    case BootAll(prepared, reply, boot) => LaunchRankCounted(s, reply, boot);
    case Disable(dpu, disabled) =>
  }

  // ----- what polling learns

  /** After a successful poll a DPU counts as running exactly when it is enabled and was read as
      running and not in fault, and as in fault exactly when it is enabled and was read as in fault. */
  lemma PollTruth(s: State, reply: Reply, d: Dpu)
    requires s.Valid() && s.Has(d) && reply.PollRead?
    ensures var p := PollRank(s, reply).state;
      && (On(p.running[d.ci], d.member) <==>
            On(s.enabled[d.ci], d.member) && On(reply.running[d.ci], d.member) && !On(reply.inFault[d.ci], d.member))
      && (On(p.inFault[d.ci], d.member) <==> On(s.enabled[d.ci], d.member) && On(reply.inFault[d.ci], d.member))
  {
    hide On, Common, Without;
    AndBit(reply.inFault[d.ci], s.enabled[d.ci], d.member);
    AndBit(reply.running[d.ci], s.enabled[d.ci], d.member);
    ClearBit(Common(reply.running[d.ci], s.enabled[d.ci]), Common(reply.inFault[d.ci], s.enabled[d.ci]), d.member);
  }

  /** Hence running and fault are within the enabled DPUs and have no DPU in common. */
  lemma PolledApart(s: State, reply: Reply)
    requires s.Valid() && reply.PollRead?
    ensures var p := PollRank(s, reply).state;
      forall c: nat :: c < s.nrCis ==>
        Within(p.running[c], p.enabled[c]) && Within(p.inFault[c], p.enabled[c]) && Apart(p.running[c], p.inFault[c])
  {
  }

  // ----- what launching and booting do, bit by bit

  // Whether a reply makes a DPU count as running.
  predicate ReadRunning(s: State, reply: Reply, d: Dpu)
    requires s.Has(d) && reply.PollRead?
  {
    && On(s.enabled[d.ci], d.member)
    && On(reply.running[d.ci], d.member) && !On(reply.inFault[d.ci], d.member)
  }

  // A state that differs from s in what is known of running and fault only: the fault bit of DPU d is
  // that of a reply, its running bit is as given, and the count is right.
  predicate Becomes(s: State, reply: Reply, after: State, d: Dpu, running: bool)
    requires s.Has(d) && reply.PollRead?
  {
    && after == s.(running := after.running, inFault := after.inFault, nbRunning := after.nbRunning)
    && (On(after.inFault[d.ci], d.member) <==> On(s.enabled[d.ci], d.member) && On(reply.inFault[d.ci], d.member))
    && (On(after.running[d.ci], d.member) <==> running)
    && after.nbRunning == Total(after.running, s.nrCis)
  }

  /** A poll that fails changes nothing; one that succeeds makes every DPU what it was read as. */
  lemma PollBits(s: State, reply: Reply, d: Dpu)
    requires s.Valid() && s.Has(d) && Counted(s)
    ensures reply.PollFailed? ==> PollRank(s, reply) == Outcome(HardwareError(reply.code), s)
    ensures reply.PollRead? ==>
      PollRank(s, reply).status == Ok && Becomes(s, reply, PollRank(s, reply).state, d, ReadRunning(s, reply, d))
  {
    hide On, Without, Common;
    if reply.PollRead? {
      PollTruth(s, reply, d);
      PollCounted(s, reply);
    }
  }

  /** A launch on a DPU fails with the poll, without a change, or with the boot, and then every DPU is
      what it was read as; when it succeeds the DPU launched counts as running too. */
  lemma LaunchDpuBits(s: State, d: Dpu, reply: Reply, boot: Status, other: Dpu)
    requires s.Valid() && s.Has(d) && s.Has(other) && Counted(s)
    ensures var o := LaunchOnDpu(s, d, reply, boot);
      && (!s.Enabled(d) ==> o == Outcome(DpuDisabled, s))
      && (s.Enabled(d) && reply.PollFailed? ==> o == Outcome(HardwareError(reply.code), s))
      && (s.Enabled(d) && reply.PollRead? ==>
            o.status == boot
            && Becomes(s, reply, o.state, other, (boot == Ok && other == d) || ReadRunning(s, reply, other)))
  {
    hide On, Without, Common, Raised, Becomes, PollRank;
    PollBits(s, reply, other);
    PollBits(s, reply, d);
    LaunchDpuCounted(s, d, reply, boot);
    if s.Enabled(d) && reply.PollRead? && boot == Ok {
      LaunchedBits(s, d, reply, other);
    }
  }

  lemma LaunchedBits(s: State, d: Dpu, reply: Reply, other: Dpu)
    requires s.Valid() && s.Has(d) && s.Has(other) && s.Enabled(d) && reply.PollRead?
    requires Becomes(s, reply, PollRank(s, reply).state, other, ReadRunning(s, reply, other))
    requires Counted(LaunchOnDpu(s, d, reply, Ok).state) && PollRank(s, reply).status == Ok
    ensures var o := LaunchOnDpu(s, d, reply, Ok);
      o.status == Ok && Becomes(s, reply, o.state, other, other == d || ReadRunning(s, reply, other))
  {
    hide On, Without, Common, Raised, PollRank, ReadRunning;
    SetBit(PollRank(s, reply).state.running[d.ci], d.member, other.member);
  }

  lemma LaunchRankBits(s: State, reply: Reply, boot: Status, d: Dpu)
    requires s.Valid() && s.Has(d) && Counted(s)
    ensures var o := LaunchOnRank(s, reply, boot);
      && (reply.PollFailed? ==> o == Outcome(HardwareError(reply.code), s))
      && (reply.PollRead? ==>
            o.status == boot
            && Becomes(s, reply, o.state, d,
                       if boot == Ok then On(s.enabled[d.ci], d.member) else ReadRunning(s, reply, d)))
  {
    hide On, Without, Common, PollRank, ReadRunning;
    PollBits(s, reply, d);
    LaunchRankCounted(s, reply, boot);
  }

  /** A DPU is booted exactly when it is enabled, does not count as running and is prepared; the boot is
      then a launch, and every refusal or failure before it is answered as such and changes nothing. */
  lemma BootDpuBits(s: State, d: Dpu, prepared: Status, reply: Reply, boot: Status, other: Dpu)
    requires s.Valid() && s.Has(d) && s.Has(other) && Counted(s)
    ensures var o := BootDpu(s, d, prepared, reply, boot);
      if !s.Enabled(d) then o == Outcome(DpuDisabled, s)
      else if On(s.running[d.ci], d.member) then o == Outcome(DpuAlreadyRunning, s)
      else if prepared != Ok then o == Outcome(prepared, s)
      else if reply.PollFailed? then o == Outcome(HardwareError(reply.code), s)
      else
        && o.status == boot
        && Becomes(s, reply, o.state, other, (boot == Ok && other == d) || ReadRunning(s, reply, other))
  {
    hide On, Becomes, LaunchOnDpu, ReadRunning;
    LaunchDpuBits(s, d, reply, boot, other);
  }

  lemma BootRankBits(s: State, prepared: Status, reply: Reply, boot: Status, d: Dpu)
    requires s.Valid() && s.Has(d) && Counted(s)
    ensures var o := BootRank(s, prepared, reply, boot);
      if s.nbRunning != 0 then o == Outcome(DpuAlreadyRunning, s)
      else if prepared != Ok then o == Outcome(prepared, s)
      else if reply.PollFailed? then o == Outcome(HardwareError(reply.code), s)
      else
        && o.status == boot
        && Becomes(s, reply, o.state, d,
                   if boot == Ok then On(s.enabled[d.ci], d.member) else ReadRunning(s, reply, d))
  {
    hide On, Becomes, LaunchOnRank, ReadRunning;
    LaunchRankBits(s, reply, boot, d);
  }

  /** Disabling takes a DPU out of the enabled ones, in both places, and changes nothing else. */
  lemma DisableBits(s: State, d: Dpu, disabled: Status, other: Dpu)
    requires s.Valid() && s.Has(d) && s.Has(other)
    ensures var o := DisableDpu(s, d, disabled);
      if !s.Enabled(d) then o == Outcome(DpuDisabled, s)
      else if disabled != Ok then o == Outcome(disabled, s)
      else
        && o.status == Ok
        && o.state == s.(enabled := o.state.enabled, dpuEnabled := o.state.dpuEnabled)
        && (On(o.state.enabled[other.ci], other.member) <==> On(s.enabled[other.ci], other.member) && other != d)
        && (o.state.Enabled(other) <==> s.Enabled(other) && other != d)
  {
    hide On, Without;
    SetBit(s.enabled[d.ci], d.member, other.member);
  }

  lemma NobodyReadRunning(running: bv8, inFault: bv8, enabled: bv8)
    ensures Without(Common(running, enabled), Common(inFault, enabled)) == 0
       <==> Apart(Executing(running, inFault), enabled)
  {
  }

  /** A successful poll opens the gates exactly when it reads no enabled DPU as executing. */
  lemma PollFindsIdle(s: State, reply: Reply)
    requires s.Valid() && Counted(s) && reply.PollRead?
    ensures PollRank(s, reply).state.nbRunning == 0 <==>
      forall c: nat :: c < s.nrCis ==> Apart(Executing(reply.running[c], reply.inFault[c]), s.enabled[c])
  {
    hide Without, Common, Apart, Executing;
    var p := PollRank(s, reply).state;
    PollCounted(s, reply);
    TotalZero(p.running, s.nrCis);
    forall c: nat | c < s.nrCis
      ensures p.running[c] == 0 <==> Apart(Executing(reply.running[c], reply.inFault[c]), s.enabled[c])
    {
      NobodyReadRunning(reply.running[c], reply.inFault[c], s.enabled[c]);
    }
  }

  // ----- what the DPUs really do

  /** A step, with the DPUs that execute at the moment it polls and after it. */
  datatype Event = Event(op: Op, atPoll: Masks, after: Masks)

  // The DPUs of CI c that a step may have started.
  function Started(s: State, op: Op, c: nat): bv8
    requires s.Valid() && op.For(s) && c < s.nrCis
  {
    if Step(s, op).status != Ok then 0
    else if op.LaunchRank? || op.BootAll? then s.enabled[c]
    else if (op.LaunchDpu? || op.BootOne?) && op.dpu.ci == c then Bit(op.dpu.member)
    else 0
  }

  predicate Obeys(executing: bv8, atPoll: bv8, after: bv8, started: bv8) {
    Within(atPoll, executing) && Within(after, atPoll | started)
  }

  predicate Truthful(reply: Reply, atPoll: bv8, c: nat)
    requires c < MAX_CIS
  {
    reply.PollRead? ==> Within(atPoll, Executing(reply.running[c], reply.inFault[c]))
  }

  /** What is assumed of the DPUs: they stop at any time, start only when booted, a boot that fails
      starts none, and a poll that succeeds reads as running and not in fault those that execute. */
  ghost predicate LawfulEvent(s: State, executing: Masks, e: Event)
    requires s.Valid() && e.op.For(s)
  {
    forall c: nat :: c < s.nrCis ==>
      && Obeys(executing[c], e.atPoll[c], e.after[c], Started(s, e.op, c))
      && (!e.op.Disable? ==> Truthful(e.op.reply, e.atPoll[c], c))
  }

  predicate Covers(executing: bv8, enabled: bv8, running: bv8) {
    Within(Common(executing, enabled), running)
  }

  /** Every enabled DPU that executes is believed to be running. */
  ghost predicate Aware(s: State, executing: Masks)
    requires s.nrCis <= MAX_CIS
  {
    forall c: nat :: c < s.nrCis ==> Covers(executing[c], s.enabled[c], s.running[c])
  }

  lemma CoversAfterPoll(atPoll: bv8, enabled: bv8, running: bv8, inFault: bv8)
    requires Within(atPoll, Executing(running, inFault))
    ensures Covers(atPoll, enabled, Without(Common(running, enabled), Common(inFault, enabled)))
  {
  }

  lemma CoversPart(part: bv8, executing: bv8, enabled: bv8, running: bv8)
    requires Within(part, executing) && Covers(executing, enabled, running)
    ensures Covers(part, enabled, running)
  {
  }

  lemma CoversWithout(executing: bv8, enabled: bv8, m: bv8, running: bv8)
    requires Covers(executing, enabled, running)
    ensures Covers(executing, Without(enabled, m), running)
  {
  }

  lemma NothingStarted(executing: bv8, atPoll: bv8, after: bv8)
    requires Obeys(executing, atPoll, after, 0)
    ensures Within(after, atPoll) && Within(after, executing)
  {
  }

  // DPUs that stop leave the others covered, and so does disabling one.
  lemma CoversFewer(executing: bv8, atPoll: bv8, after: bv8, enabled: bv8, running: bv8)
    requires Obeys(executing, atPoll, after, 0)
    ensures Covers(executing, enabled, running) ==> Covers(after, enabled, running)
    ensures Covers(atPoll, enabled, running) ==> Covers(after, enabled, running)
    ensures Covers(executing, enabled, running) ==> forall m :: Covers(after, Without(enabled, m), running)
  {
    NothingStarted(executing, atPoll, after);
    hide Covers, Within, Without, Obeys;
    if Covers(atPoll, enabled, running) {
      CoversPart(after, atPoll, enabled, running);
    }
    if Covers(executing, enabled, running) {
      CoversPart(after, executing, enabled, running);
      forall m ensures Covers(after, Without(enabled, m), running) {
        CoversWithout(after, enabled, m, running);
      }
    }
  }

  lemma CoversRaised(executing: bv8, atPoll: bv8, after: bv8, enabled: bv8, running: bv8, member: nat)
    requires member < BITS && Obeys(executing, atPoll, after, Bit(member)) && Covers(atPoll, enabled, running)
    ensures On(running, member) ==> Covers(after, enabled, running)
    ensures Covers(after, enabled, Raised(running, member))
  {
    OneHot(member);
    hide Bit;
  }

  lemma CoversEnabled(after: bv8, enabled: bv8)
    ensures Covers(after, enabled, enabled)
  {
  }

  lemma PollCovers(s: State, reply: Reply, c: nat, executing: bv8, atPoll: bv8, after: bv8)
    requires s.Valid() && c < s.nrCis && Truthful(reply, atPoll, c)
    requires Obeys(executing, atPoll, after, 0) && Covers(executing, s.enabled[c], s.running[c])
    ensures Covers(after, s.enabled[c], PollRank(s, reply).state.running[c])
  {
    hide Covers, Within, Executing, Common, Without;
    CoversFewer(executing, atPoll, after, s.enabled[c], s.running[c]);
    if reply.PollRead? {
      CoversAfterPoll(atPoll, s.enabled[c], reply.running[c], reply.inFault[c]);
      CoversFewer(executing, atPoll, after, s.enabled[c], PollRank(s, reply).state.running[c]);
    }
  }

  lemma LaunchRankCovers(s: State, reply: Reply, boot: Status, c: nat, executing: bv8, atPoll: bv8, after: bv8)
    requires s.Valid() && c < s.nrCis && Truthful(reply, atPoll, c) && Covers(executing, s.enabled[c], s.running[c])
    requires Obeys(executing, atPoll, after, if LaunchOnRank(s, reply, boot).status == Ok then s.enabled[c] else 0)
    ensures Covers(after, s.enabled[c], LaunchOnRank(s, reply, boot).state.running[c])
  {
    hide Covers, Obeys, Truthful, PollRank;
    if LaunchOnRank(s, reply, boot).status == Ok {
      CoversEnabled(after, s.enabled[c]);
    } else {
      PollCovers(s, reply, c, executing, atPoll, after);
    }
  }

  lemma LaunchDpuCovers(s: State, d: Dpu, reply: Reply, boot: Status, c: nat, executing: bv8, atPoll: bv8, after: bv8)
    requires s.Valid() && s.Has(d) && c < s.nrCis
    requires Truthful(reply, atPoll, c) && Covers(executing, s.enabled[c], s.running[c])
    requires Obeys(executing, atPoll, after,
               if LaunchOnDpu(s, d, reply, boot).status == Ok && d.ci == c then Bit(d.member) else 0)
    ensures Covers(after, s.enabled[c], LaunchOnDpu(s, d, reply, boot).state.running[c])
  {
    hide Covers, Obeys, On, Raised, Bit, Within, Executing, Common, Without;
    var o := LaunchOnDpu(s, d, reply, boot);
    if o.status == Ok && d.ci == c {
      var polled := PollRank(s, reply).state.running[c];
      CoversAfterPoll(atPoll, s.enabled[c], reply.running[c], reply.inFault[c]);
      CoversRaised(executing, atPoll, after, s.enabled[c], polled, d.member);
    } else {
      CoversFewer(executing, atPoll, after, s.enabled[c], s.running[c]);
      PollCovers(s, reply, c, executing, atPoll, after);
    }
  }

  lemma BootRankCovers(s: State, prepared: Status, reply: Reply, boot: Status, c: nat,
                       executing: bv8, atPoll: bv8, after: bv8)
    requires s.Valid() && c < s.nrCis && Truthful(reply, atPoll, c) && Covers(executing, s.enabled[c], s.running[c])
    requires Obeys(executing, atPoll, after,
               if BootRank(s, prepared, reply, boot).status == Ok then s.enabled[c] else 0)
    ensures Covers(after, s.enabled[c], BootRank(s, prepared, reply, boot).state.running[c])
  {
    hide Covers, Obeys, Truthful, LaunchOnRank;
    if s.nbRunning == 0 && prepared == Ok {
      LaunchRankCovers(s, reply, boot, c, executing, atPoll, after);
    } else {
      CoversFewer(executing, atPoll, after, s.enabled[c], s.running[c]);
    }
  }

  lemma BootDpuCovers(s: State, d: Dpu, prepared: Status, reply: Reply, boot: Status, c: nat,
                      executing: bv8, atPoll: bv8, after: bv8)
    requires s.Valid() && s.Has(d) && c < s.nrCis
    requires Truthful(reply, atPoll, c) && Covers(executing, s.enabled[c], s.running[c])
    requires Obeys(executing, atPoll, after,
               if BootDpu(s, d, prepared, reply, boot).status == Ok && d.ci == c then Bit(d.member) else 0)
    ensures Covers(after, s.enabled[c], BootDpu(s, d, prepared, reply, boot).state.running[c])
  {
    hide Covers, Obeys, Truthful, LaunchOnDpu, On, Bit;
    if s.Enabled(d) && !On(s.running[d.ci], d.member) && prepared == Ok {
      LaunchDpuCovers(s, d, reply, boot, c, executing, atPoll, after);
    } else {
      CoversFewer(executing, atPoll, after, s.enabled[c], s.running[c]);
    }
  }

  lemma DisableCovers(s: State, d: Dpu, disabled: Status, c: nat, executing: bv8, atPoll: bv8, after: bv8)
    requires s.Valid() && s.Has(d) && c < s.nrCis
    requires Obeys(executing, atPoll, after, 0) && Covers(executing, s.enabled[c], s.running[c])
    ensures var end := DisableDpu(s, d, disabled).state; Covers(after, end.enabled[c], end.running[c])
  {
    hide Covers, Obeys, Without, On, Bit;
    CoversFewer(executing, atPoll, after, s.enabled[c], s.running[c]);
  }

  // What a step does to one CI.
  lemma StepCovers(s: State, executing: Masks, e: Event, c: nat)
    requires s.Valid() && e.op.For(s) && LawfulEvent(s, executing, e) && Aware(s, executing) && c < s.nrCis
    ensures var end := Step(s, e.op).state; Covers(e.after[c], end.enabled[c], end.running[c])
  {
    hide Covers, Obeys, Truthful, PollRank, LaunchOnRank, LaunchOnDpu, BootRank, BootDpu, DisableDpu, Bit;
    var was, atPoll, now := executing[c], e.atPoll[c], e.after[c];
    match e.op
    case Poll(reply) => PollCovers(s, reply, c, was, atPoll, now);
    case LaunchRank(reply, boot) => LaunchRankCovers(s, reply, boot, c, was, atPoll, now);
    case LaunchDpu(dpu, reply, boot) => LaunchDpuCovers(s, dpu, reply, boot, c, was, atPoll, now);
    case Disable(dpu, disabled) => DisableCovers(s, dpu, disabled, c, was, atPoll, now);
    case BootOne(dpu, prepared, reply, boot) =>
      BootDpuCovers(s, dpu, prepared, reply, boot, c, was, atPoll, now);
    case BootAll(prepared, reply, boot) =>
      BootRankCovers(s, prepared, reply, boot, c, was, atPoll, now);
  }

  lemma StepAware(s: State, executing: Masks, e: Event)
    requires s.Valid() && e.op.For(s) && LawfulEvent(s, executing, e) && Aware(s, executing)
    ensures Aware(Step(s, e.op).state, e.after)
  {
    hide Step, LawfulEvent, Covers;
    forall c: nat | c < s.nrCis
      ensures Covers(e.after[c], Step(s, e.op).state.enabled[c], Step(s, e.op).state.running[c])
    {
      StepCovers(s, executing, e, c);
    }
  }

  ghost predicate LawfulRun(s: State, executing: Masks, events: seq<Event>)
    requires s.Valid()
    decreases |events|
  {
    events != [] ==>
      && events[0].op.For(s)
      && LawfulEvent(s, executing, events[0])
      && LawfulRun(Step(s, events[0].op).state, events[0].after, events[1..])
  }

  function After(s: State, executing: Masks, events: seq<Event>): (r: (State, Masks))
    requires s.Valid() && LawfulRun(s, executing, events)
    ensures r.0.Valid() && r.0.nrCis == s.nrCis
    decreases |events|
  {
    if events == [] then (s, executing) else After(Step(s, events[0].op).state, events[0].after, events[1..])
  }

  /** A new rank on which nothing executes is counted and aware. */
  lemma NewIsAware(nrCis: nat, mask: Masks)
    requires nrCis <= MAX_CIS
    ensures var s := State(nrCis, mask, mask, NOBODY, NOBODY, 0);
      s.Valid() && Counted(s) && Aware(s, NOBODY)
  {
    TotalZero(NOBODY, nrCis);
  }

  /** Over every run the count is kept and no enabled DPU executes unnoticed. */
  lemma {:induction false} RunsAreAware(s: State, executing: Masks, events: seq<Event>)
    requires s.Valid() && LawfulRun(s, executing, events) && Counted(s) && Aware(s, executing)
    ensures var (end, now) := After(s, executing, events); Counted(end) && Aware(end, now)
    decreases |events|
  {
    hide Step, LawfulEvent, Counted, Aware;
    if events != [] {
      StepCounted(s, events[0].op);
      StepAware(s, executing, events[0]);
      RunsAreAware(Step(s, events[0].op).state, events[0].after, events[1..]);
    }
  }

  /** So MRAM is never copied while an enabled DPU executes. */
  lemma CopiesAreSafe(s: State, executing: Masks, events: seq<Event>, result: Status)
    requires s.Valid() && LawfulRun(s, executing, events) && Counted(s) && Aware(s, executing)
    requires result != MramBusy
    ensures var (end, now) := After(s, executing, events);
      CopyMram(end, result) != MramBusy ==> forall c: nat :: c < s.nrCis ==> Apart(now[c], end.enabled[c])
  {
    hide LawfulEvent, LawfulRun, After;
    RunsAreAware(s, executing, events);
    var (end, now) := After(s, executing, events);
    DoneOpensTheGates(end, Ok, PollFailed(0), Ok, result);
    if CopyMram(end, result) != MramBusy {
      forall c: nat | c < s.nrCis ensures Apart(now[c], end.enabled[c]) {
        assert Covers(now[c], end.enabled[c], end.running[c]);
      }
    }
  }

  lemma CoversBit(executing: bv8, enabled: bv8, running: bv8, member: nat)
    requires member < BITS && Covers(executing, enabled, running)
    requires On(executing, member) && On(enabled, member)
    ensures On(running, member)
  {
    OneHot(member);
    hide Bit;
  }

  /** And nothing that executes is booted again: neither an enabled DPU nor a rank that has one. */
  lemma BootsAreSafe(s: State, executing: Masks, events: seq<Event>, d: Dpu,
                     prepared: Status, reply: Reply, boot: Status)
    requires s.Valid() && LawfulRun(s, executing, events) && Counted(s) && Aware(s, executing)
    requires s.Has(d)
    ensures var (end, now) := After(s, executing, events);
      end.Enabled(d) && On(now[d.ci], d.member) ==>
        && BootDpu(end, d, prepared, reply, boot) == Outcome(DpuAlreadyRunning, end)
        && BootRank(end, prepared, reply, boot) == Outcome(DpuAlreadyRunning, end)
  {
    hide LawfulEvent, LawfulRun, After, On;
    RunsAreAware(s, executing, events);
    var (end, now) := After(s, executing, events);
    if end.Enabled(d) && On(now[d.ci], d.member) {
      CoversBit(now[d.ci], end.enabled[d.ci], end.running[d.ci], d.member);
      NotIdle(end, d);
      DoneOpensTheGates(end, prepared, reply, boot, Ok);
    }
  }

  lemma NotIdle(s: State, d: Dpu)
    requires s.Has(d) && On(s.running[d.ci], d.member)
    ensures !Idle(s)
  {
    OneHot(d.member);
    hide Bit;
    MaskOps(0, 0, Bit(d.member));
  }

  /** A disabled DPU is neither launched nor, after the next successful poll, taken for running; the
      other DPUs are polled as before. */
  lemma DisabledIsLeftAlone(s: State, d: Dpu, other: Dpu, prepared: Status, reply: Reply, boot: Status)
    requires s.Valid() && s.Has(d) && s.Has(other) && s.Enabled(d) && reply.PollRead?
    ensures var after := DisableDpu(s, d, Ok).state;
      && LaunchOnDpu(after, d, reply, boot) == Outcome(DpuDisabled, after)
      && BootDpu(after, d, prepared, reply, boot) == Outcome(DpuDisabled, after)
      && !On(PollRank(after, reply).state.running[d.ci], d.member)
      && (other != d ==>
            (On(PollRank(after, reply).state.running[other.ci], other.member)
             <==> On(PollRank(s, reply).state.running[other.ci], other.member)))
  {
    hide On, Without, PollRank;
    var after := DisableDpu(s, d, Ok).state;
    SetBit(s.enabled[d.ci], d.member, d.member);
    SetBit(s.enabled[d.ci], d.member, other.member);
    PollTruth(after, reply, d);
    PollTruth(after, reply, other);
    PollTruth(s, reply, other);
  }
}
