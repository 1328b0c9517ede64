/** The command protocol between the host and up to eight control interfaces (CIs): the host writes a
    command to some CIs and polls until each has answered, telling a fresh answer from the previous
    one by a colour that flips with every command. */
module ControlInterface {
  import opened Wrappers
  import opened Bits

  const MAX_CIS: nat := 8
  const NB_RETRY_FOR_VALID_RESULT: nat := 100
  const TIMEOUT_COLOR: nat := 100000

  const CI_EMPTY: bv64 := 0
  const CI_NOP: bv64 := 0xFF00000000000000
  const CI_IDENTITY: bv64 := 0x01FF000000000000

  predicate IsEmpty(command: bv64) {
    command == CI_EMPTY
  }

  // One 64-bit packet per CI.
  type Frame = s: seq<bv64> | |s| == MAX_CIS witness [0, 0, 0, 0, 0, 0, 0, 0]

  type Flags = s: seq<bool> | |s| == MAX_CIS witness [false, false, false, false, false, false, false, false]

  datatype Status = Ok | InternalError | DriverError | Timeout

  // ----- packets

  function CommandByte(packet: bv64): bv8 {
    (packet >> 56) as bv8
  }

  function ColorByte(packet: bv64): bv8 {
    ((packet & 0x00FF000000000000) >> 48) as bv8
  }

  function ValidByte(packet: bv64): bv8 {
    ((packet & 0x000000FF00000000) >> 32) as bv8
  }

  function LowByte(packet: bv64): bv8 {
    (packet & 0xFF) as bv8
  }

  /** Where these bytes are in a packet. */
  lemma PacketBytes(packet: bv64)
    ensures packet & 0xFF00000000000000 == (CommandByte(packet) as bv64) << 56
    ensures packet & 0x00FF000000000000 == (ColorByte(packet) as bv64) << 48
    ensures packet & 0x000000FF00000000 == (ValidByte(packet) as bv64) << 32
    ensures packet & 0x00000000000000FF == LowByte(packet) as bv64
  {
  }

  /** How many bits a packet's colour byte is off 0xFF (one) or 0x00. */
  function Distance(packet: bv64, one: bool): (d: nat)
    ensures d <= 8
  {
    if one then 8 - Popcount(ColorByte(packet)) else Popcount(ColorByte(packet))
  }

  /** It counts the bits to change: none for the colour itself, one more for every bit that differs. */
  lemma DistanceCounts(packet: bv64, other: bv64, i: nat)
    requires i < BITS && !On(ColorByte(packet), i) && ColorByte(other) == Raised(ColorByte(packet), i)
    ensures Distance(other, false) == Distance(packet, false) + 1
    ensures Distance(packet, true) == Distance(other, true) + 1
    ensures ColorByte(packet) == 0 ==> Distance(packet, false) == 0
    ensures ColorByte(other) == 0xFF ==> Distance(other, true) == 0
  {
    hide On, Raised, ColorByte;
    PopcountRaised(ColorByte(packet), i);
  }

  // ----- the outside world

  /** What one read of the CIs delivers. The field answered is not visible to the host: it says, for
      each CI, how many of the commands sent to it since its reset it had answered at that moment. */
  datatype Reply = DriverFailure | Read(frame: Frame, answered: seq<nat>)

  // The replies to successive reads.
  type Script = nat -> Reply

  /** The colour of an answer alternates, starting from 0x00 for the first command after a reset; a
      reset leaves the other colour behind. */
  predicate AnswerIsOne(answered: nat) {
    answered % 2 == 0
  }

  /** What is assumed of the CIs while commands are outstanding: answers come in order after any
      delay, never taken back, and carry their colour up to three wrong bits. The commands are not NOPs,
      which leave the colour alone. */
  ghost predicate Lawful(script: Script, nrCis: nat, before: seq<nat>, sent: seq<nat>)
    requires nrCis <= MAX_CIS && |before| == |sent| == MAX_CIS
  {
    forall t: nat {:trigger script(t)} :: script(t).Read? ==>
      && |script(t).answered| == MAX_CIS
      && (forall i: nat :: i < MAX_CIS ==> before[i] <= script(t).answered[i] <= sent[i])
      && (forall i: nat :: i < nrCis ==> Distance(script(t).frame[i], AnswerIsOne(script(t).answered[i])) <= 3)
      && (forall s: nat {:trigger script(s)} :: s <= t && script(s).Read? && |script(s).answered| == MAX_CIS ==>
            forall i: nat :: i < MAX_CIS ==> script(s).answered[i] <= script(t).answered[i])
  }

  // ----- looking at the packets of one read

  datatype Context = Context(color: bv8, faultDecode: bv8, faultCollide: bv8)

  // Whether a CI still has to answer; an answer is kept with the distance of its colour byte.
  datatype Progress = Waiting | NotAddressed | Accepted(distance: nat)

  datatype Verdict = NotReady | Ready(distance: nat)

  predicate Passes(result: bv64, mask: bv64, expected: bv64) {
    result & mask == expected
  }

  function Inspect(result: bv64, mask: bv64, expected: bv64, one: bool): (v: Verdict) {
    if !Passes(result, mask, expected) && result & CI_NOP != CI_NOP then NotReady
    else if one && Popcount(ColorByte(result)) <= 3 then NotReady
    else if !one && Popcount(ColorByte(result)) >= 5 then NotReady
    else Ready(Distance(result, one))
  }

  predicate DecodeDistance(d: nat) {
    d == 1 || d == 3
  }

  predicate CollideDistance(d: nat) {
    d == 2 || d == 3
  }

  function WithFaults(ctx: Context, ci: nat, d: nat): Context
    requires ci < MAX_CIS
  {
    ctx.(faultDecode := if DecodeDistance(d) then Raised(ctx.faultDecode, ci) else ctx.faultDecode,
         faultCollide := if CollideDistance(d) then Raised(ctx.faultCollide, ci) else ctx.faultCollide)
  }

  // The parts of a command that the polling loop needs.
  datatype Pending = Pending(masks: Frame, expected: Frame, expectedColor: bv8)

  datatype Scan = Scan(finished: bool, ctx: Context, done: seq<Progress>)

  function ScanFrom(ctx: Context, data: Frame, p: Pending, done: seq<Progress>, ci: nat, nrCis: nat): (s: Scan)
    requires ci <= nrCis <= MAX_CIS && |done| == MAX_CIS
    ensures |s.done| == MAX_CIS && s.ctx.color == ctx.color
    decreases nrCis - ci
  {
    if ci == nrCis then Scan(true, ctx, done)
    else if !done[ci].Waiting? then ScanFrom(ctx, data, p, done, ci + 1, nrCis)
    else
      match Inspect(data[ci], p.masks[ci], p.expected[ci], On(p.expectedColor, ci))
      case NotReady => Scan(false, ctx, done)
      case Ready(d) =>
        if d == 4 then Scan(false, ctx, done[ci := Accepted(d)])
        else ScanFrom(WithFaults(ctx, ci, d), data, p, done[ci := Accepted(d)], ci + 1, nrCis)
  }

  // ----- a command

  datatype SliceTarget = TargetNone | TargetAll | TargetDpu(dpu: nat) | TargetGroup(group: nat)

  datatype Slice = Slice(target: SliceTarget, dpusPerGroup: seq<bv8>)

  predicate ValidSlice(slice: Slice, nrDpus: nat) {
    && nrDpus <= 8
    && |slice.dpusPerGroup| == 8
    && (slice.target.TargetDpu? ==> slice.target.dpu < nrDpus)
    && (slice.target.TargetGroup? ==> slice.target.group < 8)
  }

  function AllDpus(nrDpus: nat): bv8
    requires nrDpus <= 8
  {
    if nrDpus == 8 then 0xFF else Bit(nrDpus) - 1
  }

  function SelectedMask(slice: Slice, nrDpus: nat): Option<bv8>
    requires ValidSlice(slice, nrDpus)
  {
    match slice.target
    case TargetAll => Some(AllDpus(nrDpus))
    case TargetDpu(dpu) => Some(Bit(dpu))
    case TargetGroup(group) => Some(slice.dpusPerGroup[group])
    case TargetNone => None
  }

  datatype Host = Host(nrCis: nat, nrDpus: nat, chipV14: bool, slices: seq<Slice>, ctx: Context)
  {
    predicate Valid() {
      && nrCis <= MAX_CIS && nrDpus <= 8 && |slices| == MAX_CIS
      && forall i :: 0 <= i < MAX_CIS ==> ValidSlice(slices[i], nrDpus)
    }
  }

  function AddressedFrom(commands: Frame, ci: nat): bv8
    requires ci <= MAX_CIS
  {
    if ci == 0 then 0
    else if !IsEmpty(commands[ci - 1]) then Raised(AddressedFrom(commands, ci - 1), ci - 1)
    else AddressedFrom(commands, ci - 1)
  }

  // The command byte and the valid byte, and their values in an answer.
  const ANSWER_MASK: bv64 := 0xFF0000FF00000000
  const ANSWER: bv64 := 0x000000FF00000000

  function WithLow(packet: bv64, low: bv8): bv64 {
    packet | (low as bv64)
  }

  function MaskOf(command: bv64, addSelectMask: bool, nrDpus: nat): bv64
    requires nrDpus <= 8
  {
    if IsEmpty(command) then 0
    else if addSelectMask then WithLow(ANSWER_MASK, AllDpus(nrDpus))
    else ANSWER_MASK
  }

  function ExpectedOf(command: bv64, addSelectMask: bool, selected: bv8): bv64 {
    if IsEmpty(command) then 0
    else if addSelectMask then WithLow(ANSWER, selected)
    else ANSWER
  }

  predicate Addressed(h: Host, commands: Frame, i: nat)
    requires i < MAX_CIS
  {
    i < h.nrCis && !IsEmpty(commands[i])
  }

  // Only a command that waits for the selected DPUs depends on the slices' targets.
  predicate Selectable(h: Host, commands: Frame)
    requires h.Valid()
  {
    forall i: nat :: i < MAX_CIS && Addressed(h, commands, i) ==> !h.slices[i].target.TargetNone?
  }

  function Selected(h: Host, i: nat): bv8
    requires h.Valid() && i < MAX_CIS
  {
    match SelectedMask(h.slices[i], h.nrDpus) case Some(m) => m case None => 0
  }

  const NONE: Frame := [0, 0, 0, 0, 0, 0, 0, 0]

  function MasksUpTo(h: Host, commands: Frame, addSelectMask: bool, count: nat): Frame
    requires h.Valid() && count <= MAX_CIS
  {
    if count == 0 then NONE
    else MasksUpTo(h, commands, addSelectMask, count - 1)
      [count - 1 := MaskOf(commands[count - 1], addSelectMask, h.nrDpus)]
  }

  function ExpectedUpTo(h: Host, commands: Frame, addSelectMask: bool, count: nat): Frame
    requires h.Valid() && count <= MAX_CIS
  {
    if count == 0 then NONE
    else ExpectedUpTo(h, commands, addSelectMask, count - 1)
      [count - 1 := ExpectedOf(commands[count - 1], addSelectMask, Selected(h, count - 1))]
  }

  function PendingOf(h: Host, commands: Frame, addSelectMask: bool): Pending
    requires h.Valid()
  {
    Pending(
      MasksUpTo(h, commands, addSelectMask, h.nrCis),
      ExpectedUpTo(h, commands, addSelectMask, h.nrCis),
      Common(h.ctx.color, AddressedFrom(commands, h.nrCis)))
  }

  function InitialProgress(h: Host, commands: Frame): (done: seq<Progress>)
    ensures |done| == MAX_CIS
  {
    seq(MAX_CIS, i requires 0 <= i < MAX_CIS =>
      if i < h.nrCis && IsEmpty(commands[i]) then NotAddressed else Waiting)
  }

  // The polling loop, about to make read number t with some retries left.
  datatype Polled = Polled(status: Status, ctx: Context, done: seq<Progress>, data: Frame, polls: nat)

  function PollFrom(ctx: Context, p: Pending, done: seq<Progress>, data: Frame,
                    script: Script, t: nat, retries: nat, nrCis: nat): Polled
    requires nrCis <= MAX_CIS && |done| == MAX_CIS
    decreases retries
  {
    match script(t)
    case DriverFailure => Polled(DriverError, ctx, done, data, t + 1)
    case Read(frame, _) =>
      var s := ScanFrom(ctx, frame, p, done, 0, nrCis);
      if s.finished then Polled(Ok, s.ctx, s.done, frame, t + 1)
      else if retries == 0 then Polled(Timeout, s.ctx, s.done, frame, t + 1)
      else PollFrom(s.ctx, p, s.done, frame, script, t + 1, retries - 1, nrCis)
  }

  // The second read that makes sure of the results, on chips other than v1.4.
  function ReadAgain(polled: Polled, script: Script): Polled {
    if polled.status != Ok then polled
    else
      match script(polled.polls)
      case DriverFailure => polled.(status := DriverError, polls := polled.polls + 1)
      case Read(frame, _) => polled.(data := frame, polls := polled.polls + 1)
  }

  // invert_color, on the addressed CIs.
  function Inverted(h: Host, commands: Frame): (ctx: Context)
    requires h.Valid()
    ensures ctx.faultDecode == h.ctx.faultDecode && ctx.faultCollide == h.ctx.faultCollide
  {
    h.ctx.(color := Flipped(h.ctx.color, AddressedFrom(commands, h.nrCis)))
  }

  function ExecCmd(h: Host, data: Frame, commands: Frame, addSelectMask: bool, commitOk: bool, script: Script): Polled
    requires h.Valid()
  {
    var done := InitialProgress(h, commands);
    if addSelectMask && !Selectable(h, commands) then Polled(InternalError, h.ctx, done, data, 0)
    else
      var ctx := Inverted(h, commands);
      if !commitOk then Polled(DriverError, ctx, done, data, 0)
      else
        var polled := PollFrom(ctx, PendingOf(h, commands, addSelectMask), done, data, script, 0,
                               NB_RETRY_FOR_VALID_RESULT, h.nrCis);
        if h.chipV14 then polled else ReadAgain(polled, script)
  }

  // ----- reset

  predicate FailsWithin(script: Script, polls: nat) {
    exists t :: 0 <= t < polls && script(t).DriverFailure?
  }

  function ResetSlice(nrDpus: nat): (slice: Slice)
    requires nrDpus <= 8
    ensures ValidSlice(slice, nrDpus)
  {
    Slice(TargetNone, [AllDpus(nrDpus), 0, 0, 0, 0, 0, 0, 0])
  }

  function ResetSlices(nrDpus: nat): (slices: seq<Slice>)
    requires nrDpus <= 8
    ensures |slices| == MAX_CIS && forall i :: 0 <= i < MAX_CIS ==> ValidSlice(slices[i], nrDpus)
    ensures forall i :: 0 <= i < MAX_CIS ==> slices[i] == ResetSlice(nrDpus)
  {
    var slice := ResetSlice(nrDpus);
    [slice, slice, slice, slice, slice, slice, slice, slice]
  }

  datatype Outcome = Outcome(status: Status, h: Host)

  function ResetCmd(h: Host, commands: Frame, commitOk: bool, script: Script, duration: nat): (o: Outcome)
    requires h.Valid()
    ensures o.h.Valid() && o.h.nrCis == h.nrCis
  {
    var mask := AddressedFrom(commands, h.nrCis);
    var ctx := Inverted(h, commands);
    if !commitOk || FailsWithin(script, duration) then Outcome(DriverError, h.(ctx := ctx))
    else
      Outcome(Ok, h.(
        ctx := Context(Without(ctx.color, mask), Without(ctx.faultDecode, mask), Without(ctx.faultCollide, mask)),
        slices := ResetSlices(h.nrDpus)))
  }

  // ----- learning the colours from the CIs

  predicate IsNop(packet: bv64) {
    CommandByte(packet) == 0xFF
  }

  predicate Settled(packet: bv64) {
    IsNop(packet) || (CommandByte(packet) == 0 && ValidByte(packet) == 0xFF)
  }

  predicate AllSettled(frame: Frame, nrCis: nat)
    requires nrCis <= MAX_CIS
  {
    forall i: nat :: i < nrCis ==> Settled(frame[i])
  }

  predicate AnyNop(frame: Frame, nrCis: nat)
    requires nrCis <= MAX_CIS
  {
    exists i: nat :: i < nrCis && IsNop(frame[i])
  }

  predicate AllCleared(frame: Frame, nrCis: nat)
    requires nrCis <= MAX_CIS
  {
    forall i: nat :: i < nrCis ==> CommandByte(frame[i]) == 0
  }

  datatype Waited = Waited(status: Status, frame: Frame, sawNop: bool, polls: nat)

  function WaitSettled(script: Script, t: nat, timeout: nat, sawNop: bool, nrCis: nat): Waited
    requires timeout > 0 && nrCis <= MAX_CIS
    decreases timeout
  {
    match script(t)
    case DriverFailure => Waited(DriverError, NONE, sawNop, t + 1)
    case Read(frame, _) =>
      var nop := sawNop || AnyNop(frame, nrCis);
      if timeout == 1 then Waited(Timeout, frame, nop, t + 1)
      else if AllSettled(frame, nrCis) then Waited(Ok, frame, nop, t + 1)
      else WaitSettled(script, t + 1, timeout - 1, nop, nrCis)
  }

  function WaitCleared(script: Script, t: nat, timeout: nat, nrCis: nat): Waited
    requires timeout > 0 && nrCis <= MAX_CIS
    decreases timeout
  {
    match script(t)
    case DriverFailure => Waited(DriverError, NONE, false, t + 1)
    case Read(frame, _) =>
      if timeout == 1 then Waited(Timeout, frame, false, t + 1)
      else if AllCleared(frame, nrCis) then Waited(Ok, frame, false, t + 1)
      else WaitCleared(script, t + 1, timeout - 1, nrCis)
  }

  function WithColor(color: bv8, i: nat, one: bool): bv8
    requires i < MAX_CIS
  {
    if one then Raised(color, i) else Without(color, Bit(i))
  }

  function LearntColors(color: bv8, frame: Frame, count: nat): bv8
    requires count <= MAX_CIS
  {
    if count == 0 then color
    else
      WithColor(LearntColors(color, frame, count - 1), count - 1, Popcount(ColorByte(frame[count - 1])) <= 3)
  }

  function DummyCommands(frame: Frame, nrCis: nat): Frame {
    seq(MAX_CIS, i requires 0 <= i < MAX_CIS =>
      if i < nrCis && IsNop(frame[i]) then CI_IDENTITY else if i < nrCis then CI_EMPTY else frame[i])
  }

  // The commands that learning gave to the CIs come with its outcome.
  datatype Learnt = Learnt(status: Status, h: Host, commands: Frame)

  // The script before replies up to the dummy command, the script after once it is sent.
  function GetColor(h: Host, before: Script, commitOk: bool, after: Script, timeout: nat): (l: Learnt)
    requires h.Valid() && timeout > 0
    ensures l.h == h.(ctx := h.ctx.(color := l.h.ctx.color))
  {
    var waited := WaitSettled(before, 0, timeout, false, h.nrCis);
    if waited.status != Ok then Learnt(waited.status, h, NONE)
    else
      match before(waited.polls)
      case DriverFailure => Learnt(DriverError, h, NONE)
      case Read(frame, _) =>
        if !waited.sawNop then
          Learnt(Ok, h.(ctx := h.ctx.(color := LearntColors(h.ctx.color, frame, h.nrCis))), NONE)
        else
          var commands := DummyCommands(frame, h.nrCis);
          if !commitOk then Learnt(DriverError, h, commands)
          else
            var cleared := WaitCleared(after, 0, timeout, h.nrCis);
            if cleared.status != Ok then Learnt(cleared.status, h, commands)
            else
              Learnt(Ok, h.(ctx := h.ctx.(color := LearntColors(h.ctx.color, cleared.frame, h.nrCis))), commands)
  }

  // ----- what one scan does

  // Between two scans from CI ci on: the CIs that were not waiting are as they were, those newly done
  // were accepted on their packets, and none is left waiting when the scan has finished.
  ghost predicate Kept(data: Frame, p: Pending, was: seq<Progress>, done: seq<Progress>, finished: bool,
                       ci: nat, nrCis: nat)
    requires |was| == |done| == MAX_CIS && nrCis <= MAX_CIS
  {
    && (forall i: nat :: i < MAX_CIS && !was[i].Waiting? ==> done[i] == was[i])
    && (forall i: nat :: i < MAX_CIS && was[i].Waiting? && done[i] != Waiting ==>
          && ci <= i < nrCis
          && done[i].Accepted?
          && Inspect(data[i], p.masks[i], p.expected[i], On(p.expectedColor, i)) == Ready(done[i].distance))
    && (finished ==> forall i: nat :: ci <= i < nrCis ==> done[i] != Waiting)
  }

  lemma KeptAccepted(data: Frame, p: Pending, was: seq<Progress>, done: seq<Progress>, finished: bool,
                     ci: nat, nrCis: nat, d: nat)
    requires |was| == |done| == MAX_CIS && ci < nrCis <= MAX_CIS && was[ci].Waiting?
    requires Inspect(data[ci], p.masks[ci], p.expected[ci], On(p.expectedColor, ci)) == Ready(d)
    requires Kept(data, p, was[ci := Accepted(d)], done, finished, ci + 1, nrCis)
    ensures Kept(data, p, was, done, finished, ci, nrCis)
  {
    hide Inspect, On;
    assert done[ci] == Accepted(d);
  }

  /** A scan leaves every CI that is not waiting as it was. */
  lemma {:induction false} ScanKeeps(ctx: Context, data: Frame, p: Pending, done: seq<Progress>, ci: nat, nrCis: nat)
    requires ci <= nrCis <= MAX_CIS && |done| == MAX_CIS
    ensures var s := ScanFrom(ctx, data, p, done, ci, nrCis); Kept(data, p, done, s.done, s.finished, ci, nrCis)
    decreases nrCis - ci
  {
    hide Inspect, On, WithFaults;
    if ci < nrCis {
      if !done[ci].Waiting? {
        ScanKeeps(ctx, data, p, done, ci + 1, nrCis);
      } else {
        match Inspect(data[ci], p.masks[ci], p.expected[ci], On(p.expectedColor, ci))
        case NotReady =>
        case Ready(d) =>
          if d != 4 {
            hide Kept;
            var next := WithFaults(ctx, ci, d);
            ScanKeeps(next, data, p, done[ci := Accepted(d)], ci + 1, nrCis);
            var s := ScanFrom(next, data, p, done[ci := Accepted(d)], ci + 1, nrCis);
            KeptAccepted(data, p, done, s.done, s.finished, ci, nrCis, d);
          }
      }
    }
  }

  // The fault bits of ctx are those of start and those of the CIs accepted since.
  ghost predicate FaultsFrom(start: Context, ctx: Context, was: seq<Progress>, done: seq<Progress>)
    requires |was| == |done| == MAX_CIS
  {
    forall i: nat :: i < MAX_CIS ==>
      && var gained := was[i].Waiting? && done[i].Accepted?;
      && On(ctx.faultDecode, i) == (On(start.faultDecode, i) || (gained && DecodeDistance(done[i].distance)))
      && On(ctx.faultCollide, i) == (On(start.faultCollide, i) || (gained && CollideDistance(done[i].distance)))
  }

  /** In numbers: a newly accepted CI gains its decode bit for one or three wrong bits, its collide bit
      for two or three; no other bit changes. */
  lemma FaultsByDistance(start: Context, ctx: Context, was: seq<Progress>, done: seq<Progress>, i: nat)
    requires |was| == |done| == MAX_CIS && i < MAX_CIS && FaultsFrom(start, ctx, was, done)
    ensures On(ctx.faultDecode, i) <==>
      On(start.faultDecode, i) || (was[i].Waiting? && done[i] in {Accepted(1), Accepted(3)})
    ensures On(ctx.faultCollide, i) <==>
      On(start.faultCollide, i) || (was[i].Waiting? && done[i] in {Accepted(2), Accepted(3)})
  {
    hide On;
  }

  lemma FaultsStep(ctx: Context, ci: nat, d: nat, i: nat)
    requires ci < MAX_CIS && i < MAX_CIS
    ensures On(WithFaults(ctx, ci, d).faultDecode, i) <==> On(ctx.faultDecode, i) || (i == ci && DecodeDistance(d))
    ensures On(WithFaults(ctx, ci, d).faultCollide, i) <==> On(ctx.faultCollide, i) || (i == ci && CollideDistance(d))
  {
    hide On, Bit, Raised;
    SetBit(ctx.faultDecode, ci, i);
    SetBit(ctx.faultCollide, ci, i);
  }

  // Accepting one packet before the others are looked at.
  lemma FaultsAccepted(ctx: Context, end: Context, done: seq<Progress>, doneAtEnd: seq<Progress>, ci: nat, d: nat)
    requires ci < |done| == |doneAtEnd| == MAX_CIS
    requires done[ci].Waiting? && doneAtEnd[ci] == Accepted(d)
    requires FaultsFrom(WithFaults(ctx, ci, d), end, done[ci := Accepted(d)], doneAtEnd)
    ensures FaultsFrom(ctx, end, done, doneAtEnd)
  {
    hide On, WithFaults, DecodeDistance, CollideDistance;
    forall i: nat | i < MAX_CIS
      ensures On(WithFaults(ctx, ci, d).faultDecode, i) <==> On(ctx.faultDecode, i) || (i == ci && DecodeDistance(d))
      ensures On(WithFaults(ctx, ci, d).faultCollide, i) <==> On(ctx.faultCollide, i) || (i == ci && CollideDistance(d))
    {
      FaultsStep(ctx, ci, d, i);
    }
  }

  lemma {:induction false} ScanFaults(ctx: Context, data: Frame, p: Pending, done: seq<Progress>, ci: nat, nrCis: nat)
    requires ci <= nrCis <= MAX_CIS && |done| == MAX_CIS
    ensures var s := ScanFrom(ctx, data, p, done, ci, nrCis); FaultsFrom(ctx, s.ctx, done, s.done)
    decreases nrCis - ci
  {
    hide Inspect, On, WithFaults;
    if ci < nrCis {
      if !done[ci].Waiting? {
        ScanFaults(ctx, data, p, done, ci + 1, nrCis);
      } else {
        match Inspect(data[ci], p.masks[ci], p.expected[ci], On(p.expectedColor, ci))
        case NotReady =>
        case Ready(d) =>
          if d != 4 {
            hide FaultsFrom;
            var next, nextDone := WithFaults(ctx, ci, d), done[ci := Accepted(d)];
            ScanFaults(next, data, p, nextDone, ci + 1, nrCis);
            ScanKeeps(next, data, p, nextDone, ci + 1, nrCis);
            var s := ScanFrom(next, data, p, nextDone, ci + 1, nrCis);
            FaultsAccepted(ctx, s.ctx, done, s.done, ci, d);
          }
      }
    }
  }

  /** A packet that passes the mask test is accepted exactly when its colour byte is at most four bits
      off. In particular the previous answer, e bits off the other colour, is told apart when e <= 3
      and taken for the new one when e >= 4. */
  lemma AcceptedDistance(result: bv64, mask: bv64, expected: bv64, one: bool)
    requires Passes(result, mask, expected) || result & CI_NOP == CI_NOP
    ensures Inspect(result, mask, expected, one).Ready? <==> Distance(result, one) <= 4
    ensures Inspect(result, mask, expected, one).Ready? <==> Distance(result, !one) >= 4
  {
  }

  // ----- what polling does

  lemma {:induction false} PollFaults(ctx: Context, p: Pending, done: seq<Progress>, data: Frame,
                                      script: Script, t: nat, retries: nat, nrCis: nat)
    requires nrCis <= MAX_CIS && |done| == MAX_CIS
    ensures var r := PollFrom(ctx, p, done, data, script, t, retries, nrCis);
      && |r.done| == MAX_CIS && r.ctx.color == ctx.color
      && FaultsFrom(ctx, r.ctx, done, r.done)
      && (forall i: nat :: i < MAX_CIS && (!done[i].Waiting? || i >= nrCis) ==> r.done[i] == done[i])
    decreases retries
  {
    hide ScanFrom, On;
    if script(t).Read? {
      var frame := script(t).frame;
      var s := ScanFrom(ctx, frame, p, done, 0, nrCis);
      ScanKeeps(ctx, frame, p, done, 0, nrCis);
      ScanFaults(ctx, frame, p, done, 0, nrCis);
      if !s.finished && retries > 0 {
        PollFaults(s.ctx, p, s.done, frame, script, t + 1, retries - 1, nrCis);
      }
    }
  }

  /** Every accepted packet is one that some poll delivered, at the recorded distance. */
  ghost predicate Witnessed(p: Pending, was: seq<Progress>, done: seq<Progress>, script: Script, t: nat, polls: nat)
    requires |was| == |done| == MAX_CIS
  {
    forall i: nat :: i < MAX_CIS && was[i].Waiting? && done[i].Accepted? ==>
      exists s: nat :: t <= s < polls && script(s).Read?
        && Inspect(script(s).frame[i], p.masks[i], p.expected[i], On(p.expectedColor, i)) == Ready(done[i].distance)
  }

  lemma {:induction false} PollEnds(ctx: Context, p: Pending, done: seq<Progress>, data: Frame,
                                    script: Script, t: nat, retries: nat, nrCis: nat)
    requires nrCis <= MAX_CIS && |done| == MAX_CIS
    ensures var r := PollFrom(ctx, p, done, data, script, t, retries, nrCis);
      && |r.done| == MAX_CIS
      && t < r.polls <= t + retries + 1
      && (r.status == Ok ==> script(r.polls - 1).Read? && r.data == script(r.polls - 1).frame)
      && (r.status == Ok ==> forall i: nat :: i < nrCis ==> r.done[i] != Waiting)
      && Witnessed(p, done, r.done, script, t, r.polls)
    decreases retries
  {
    hide ScanFrom, On, Inspect;
    if script(t).Read? {
      var frame := script(t).frame;
      var s := ScanFrom(ctx, frame, p, done, 0, nrCis);
      ScanKeeps(ctx, frame, p, done, 0, nrCis);
      if !s.finished && retries > 0 {
        PollFaults(s.ctx, p, s.done, frame, script, t + 1, retries - 1, nrCis);
        PollEnds(s.ctx, p, s.done, frame, script, t + 1, retries - 1, nrCis);
      }
    }
  }

  // From read t on, the accepted CIs have answered everything sent to them.
  ghost predicate Answered(script: Script, done: seq<Progress>, sent: seq<nat>, t: nat)
    requires |done| == |sent| == MAX_CIS
  {
    forall s: nat {:trigger script(s)} :: t <= s && script(s).Read? && |script(s).answered| == MAX_CIS ==>
      forall i: nat :: i < MAX_CIS && done[i].Accepted? ==> script(s).answered[i] == sent[i]
  }

  // A waiting CI has one command outstanding, and the host expects the colour of its answer.
  ghost predicate OneOutstanding(p: Pending, done: seq<Progress>, before: seq<nat>, sent: seq<nat>, nrCis: nat)
    requires |done| == |before| == |sent| == MAX_CIS && nrCis <= MAX_CIS
  {
    forall i: nat :: i < nrCis && done[i].Waiting? ==>
      && before[i] + 1 == sent[i]
      && On(p.expectedColor, i) == AnswerIsOne(sent[i])
  }

  /** Within the noise bound, only the answer to the outstanding command is accepted. */
  lemma ReadyIsFresh(result: bv64, mask: bv64, expected: bv64, answered: nat, sent: nat)
    requires sent > 0 && (answered == sent || answered + 1 == sent)
    requires Distance(result, AnswerIsOne(answered)) <= 3
    requires Inspect(result, mask, expected, AnswerIsOne(sent)).Ready?
    ensures answered == sent
  {
  }

  lemma ScanFresh(ctx: Context, p: Pending, done: seq<Progress>, script: Script, t: nat,
                  before: seq<nat>, sent: seq<nat>, nrCis: nat)
    requires nrCis <= MAX_CIS && |done| == |before| == |sent| == MAX_CIS
    requires script(t).Read? && Lawful(script, nrCis, before, sent)
    requires OneOutstanding(p, done, before, sent, nrCis)
    requires Answered(script, done, sent, t)
    ensures Answered(script, ScanFrom(ctx, script(t).frame, p, done, 0, nrCis).done, sent, t)
  {
    hide ScanFrom, On, Inspect, Distance, AnswerIsOne;
    var frame := script(t).frame;
    var s := ScanFrom(ctx, frame, p, done, 0, nrCis);
    ScanKeeps(ctx, frame, p, done, 0, nrCis);
    forall i: nat | i < MAX_CIS && s.done[i].Accepted?
      ensures script(t).answered[i] == sent[i]
    {
      if done[i].Waiting? {
        ReadyIsFresh(frame[i], p.masks[i], p.expected[i], script(t).answered[i], sent[i]);
      }
    }
  }

  lemma {:induction false} PollFresh(ctx: Context, p: Pending, done: seq<Progress>, data: Frame, script: Script,
                                     t: nat, retries: nat, before: seq<nat>, sent: seq<nat>, nrCis: nat)
    requires nrCis <= MAX_CIS && |done| == |before| == |sent| == MAX_CIS
    requires Lawful(script, nrCis, before, sent)
    requires OneOutstanding(p, done, before, sent, nrCis)
    requires Answered(script, done, sent, t)
    ensures var r := PollFrom(ctx, p, done, data, script, t, retries, nrCis);
      |r.done| == MAX_CIS && r.polls > t && (r.status == Ok ==> Answered(script, r.done, sent, r.polls - 1))
    decreases retries
  {
    hide ScanFrom, On, Inspect, Distance, AnswerIsOne, Lawful;
    if script(t).Read? {
      var frame := script(t).frame;
      var s := ScanFrom(ctx, frame, p, done, 0, nrCis);
      ScanKeeps(ctx, frame, p, done, 0, nrCis);
      ScanFresh(ctx, p, done, script, t, before, sent, nrCis);
      if !s.finished && retries > 0 {
        PollFresh(s.ctx, p, s.done, frame, script, t + 1, retries - 1, before, sent, nrCis);
      }
    }
  }

  // ----- what a command does

  lemma {:induction false} AddressedBits(commands: Frame, count: nat, i: nat)
    requires count <= MAX_CIS && i < MAX_CIS
    ensures On(AddressedFrom(commands, count), i) <==> i < count && !IsEmpty(commands[i])
  {
    if count == 0 {
      assert !On(0, i) by { OneHot(i); MaskOps(0, 0, Bit(i)); }
    } else {
      hide On, Bit, Raised;
      AddressedBits(commands, count - 1, i);
      SetBit(AddressedFrom(commands, count - 1), count - 1, i);
    }
  }

  /** The commands sent to each CI since its last reset, after one more command. */
  function SentAfter(h: Host, commands: Frame, sent: seq<nat>): (s: seq<nat>)
    requires |sent| == MAX_CIS
    ensures |s| == MAX_CIS
  {
    seq(MAX_CIS, i requires 0 <= i < MAX_CIS => if Addressed(h, commands, i) then sent[i] + 1 else sent[i])
  }

  /** Host and CIs agree: the host's colour bit is the parity of the commands sent. */
  predicate InStep(h: Host, sent: seq<nat>)
    requires |sent| == MAX_CIS && h.nrCis <= MAX_CIS
  {
    forall i: nat :: i < h.nrCis ==> (On(h.ctx.color, i) <==> sent[i] % 2 == 1)
  }

  lemma InvertedBit(h: Host, commands: Frame, i: nat)
    requires h.Valid() && i < h.nrCis
    ensures On(Inverted(h, commands).color, i) == (On(h.ctx.color, i) != Addressed(h, commands, i))
  {
    hide On, AddressedFrom, Bit, Flipped;
    XorBit(h.ctx.color, AddressedFrom(commands, h.nrCis), i);
    AddressedBits(commands, h.nrCis, i);
  }

  lemma InvertedStep(h: Host, commands: Frame, sent: seq<nat>)
    requires h.Valid() && |sent| == MAX_CIS && InStep(h, sent)
    ensures InStep(h.(ctx := Inverted(h, commands)), SentAfter(h, commands, sent))
  {
    hide On, AddressedFrom;
    forall i: nat | i < h.nrCis
      ensures On(Inverted(h, commands).color, i) <==> SentAfter(h, commands, sent)[i] % 2 == 1
    {
      InvertedBit(h, commands, i);
    }
  }

  lemma CommandOutstanding(h: Host, commands: Frame, addSelectMask: bool, sent: seq<nat>)
    requires h.Valid() && |sent| == MAX_CIS && InStep(h, sent)
    ensures OneOutstanding(PendingOf(h, commands, addSelectMask), InitialProgress(h, commands),
                           sent, SentAfter(h, commands, sent), h.nrCis)
  {
    hide On, MasksUpTo, ExpectedUpTo;
    forall i: nat | i < h.nrCis && InitialProgress(h, commands)[i].Waiting?
      ensures On(PendingOf(h, commands, addSelectMask).expectedColor, i)
           == AnswerIsOne(SentAfter(h, commands, sent)[i])
    {
      AndBit(h.ctx.color, AddressedFrom(commands, h.nrCis), i);
      AddressedBits(commands, h.nrCis, i);
    }
  }

  lemma {:induction false} WaitingEndsAccepted(ctx: Context, p: Pending, done: seq<Progress>, data: Frame,
                                               script: Script, t: nat, retries: nat, nrCis: nat, i: nat)
    requires nrCis <= MAX_CIS && |done| == MAX_CIS && i < nrCis && done[i].Waiting?
    ensures var r := PollFrom(ctx, p, done, data, script, t, retries, nrCis);
      |r.done| == MAX_CIS && (r.status == Ok ==> r.done[i].Accepted?)
    decreases retries
  {
    hide ScanFrom, On, Inspect;
    if script(t).Read? {
      var frame := script(t).frame;
      var s := ScanFrom(ctx, frame, p, done, 0, nrCis);
      ScanKeeps(ctx, frame, p, done, 0, nrCis);
      if !s.finished && retries > 0 {
        if s.done[i].Waiting? {
          WaitingEndsAccepted(s.ctx, p, s.done, frame, script, t + 1, retries - 1, nrCis, i);
        }
        PollFaults(s.ctx, p, s.done, frame, script, t + 1, retries - 1, nrCis);
      }
    }
  }

  // Everything sent is answered at every read from number t on.
  ghost predicate AllAnswered(script: Script, sent: seq<nat>, t: nat) {
    forall s: nat {:trigger script(s)} :: t <= s && script(s).Read? ==> script(s).answered == sent
  }

  lemma PolledUntilAnswered(ctx: Context, p: Pending, done: seq<Progress>, data: Frame, script: Script,
                            retries: nat, before: seq<nat>, sent: seq<nat>, nrCis: nat)
    requires nrCis <= MAX_CIS && |done| == |before| == |sent| == MAX_CIS
    requires Lawful(script, nrCis, before, sent)
    requires OneOutstanding(p, done, before, sent, nrCis)
    requires forall i: nat :: i < MAX_CIS ==> !done[i].Accepted?
    requires forall i: nat :: i < MAX_CIS ==> before[i] == sent[i] || (i < nrCis && done[i].Waiting?)
    ensures var r := PollFrom(ctx, p, done, data, script, 0, retries, nrCis);
      r.status == Ok ==>
        && r.polls > 0 && script(r.polls - 1).Read? && r.data == script(r.polls - 1).frame
        && AllAnswered(script, sent, r.polls - 1)
  {
    hide PollFrom, OneOutstanding, FaultsFrom, Witnessed;
    var r := PollFrom(ctx, p, done, data, script, 0, retries, nrCis);
    PollFresh(ctx, p, done, data, script, 0, retries, before, sent, nrCis);
    PollEnds(ctx, p, done, data, script, 0, retries, nrCis);
    if r.status == Ok {
      forall i: nat | i < nrCis && done[i].Waiting?
        ensures r.done[i].Accepted?
      {
        WaitingEndsAccepted(ctx, p, done, data, script, 0, retries, nrCis, i);
      }
      forall s: nat | r.polls - 1 <= s && script(s).Read?
        ensures script(s).answered == sent
      {
        assert |script(s).answered| == MAX_CIS;
        assert forall i: nat :: i < MAX_CIS ==> script(s).answered[i] == sent[i];
      }
    }
  }

  /** Every accepted CI was accepted on a packet that answers all that was sent to it, at the distance
      recorded for it. */
  ghost predicate AcceptedAnswers(script: Script, done: seq<Progress>, sent: seq<nat>, polls: nat)
    requires |done| == |sent| == MAX_CIS
  {
    forall i: nat :: i < MAX_CIS && done[i].Accepted? ==> AnswerRead(script, i, done[i].distance, sent[i], polls)
  }

  // One of the polls found CI i at its answer number sent, a distance off.
  ghost predicate AnswerRead(script: Script, i: nat, distance: nat, sent: nat, polls: nat)
    requires i < MAX_CIS
  {
    exists s: nat :: s < polls
      && script(s).Read? && |script(s).answered| == MAX_CIS && script(s).answered[i] == sent
      && distance == Distance(script(s).frame[i], AnswerIsOne(sent))
  }

  lemma WitnessAnswers(p: Pending, was: seq<Progress>, done: seq<Progress>, script: Script, polls: nat,
                       before: seq<nat>, sent: seq<nat>, nrCis: nat)
    requires nrCis <= MAX_CIS && |was| == |done| == |before| == |sent| == MAX_CIS
    requires Lawful(script, nrCis, before, sent) && OneOutstanding(p, was, before, sent, nrCis)
    requires Witnessed(p, was, done, script, 0, polls)
    requires forall i: nat :: i < MAX_CIS && done[i].Accepted? ==> i < nrCis && was[i].Waiting?
    ensures AcceptedAnswers(script, done, sent, polls)
  {
    hide Inspect, Distance, On, AnswerIsOne;
    forall i: nat | i < MAX_CIS && done[i].Accepted?
      ensures AnswerRead(script, i, done[i].distance, sent[i], polls)
    {
      var s: nat :| s < polls && script(s).Read?
        && Inspect(script(s).frame[i], p.masks[i], p.expected[i], On(p.expectedColor, i)) == Ready(done[i].distance);
      ReadyIsFresh(script(s).frame[i], p.masks[i], p.expected[i], script(s).answered[i], sent[i]);
      ReadyDistance(script(s).frame[i], p.masks[i], p.expected[i], AnswerIsOne(sent[i]));
    }
  }

  lemma ReadyDistance(result: bv64, mask: bv64, expected: bv64, one: bool)
    ensures Inspect(result, mask, expected, one).Ready? ==>
      Inspect(result, mask, expected, one).distance == Distance(result, one)
  {
  }

  /** Within the noise bound every packet of an addressed CI that passes is its answer to the command. */
  lemma ReadyAreAnswers(h: Host, commands: Frame, addSelectMask: bool, script: Script, sent: seq<nat>, s: nat, i: nat)
    requires h.Valid() && |sent| == MAX_CIS && InStep(h, sent)
    requires Lawful(script, h.nrCis, sent, SentAfter(h, commands, sent))
    requires script(s).Read? && i < MAX_CIS && Addressed(h, commands, i)
    ensures var p := PendingOf(h, commands, addSelectMask);
      Inspect(script(s).frame[i], p.masks[i], p.expected[i], On(p.expectedColor, i)).Ready? ==>
        |script(s).answered| == MAX_CIS && script(s).answered[i] == SentAfter(h, commands, sent)[i]
  {
    hide PendingOf, Inspect, Distance, On, AnswerIsOne, InStep;
    var p, after := PendingOf(h, commands, addSelectMask), SentAfter(h, commands, sent);
    CommandOutstanding(h, commands, addSelectMask, sent);
    assert InitialProgress(h, commands)[i].Waiting?;
    if Inspect(script(s).frame[i], p.masks[i], p.expected[i], On(p.expectedColor, i)).Ready? {
      ReadyIsFresh(script(s).frame[i], p.masks[i], p.expected[i], script(s).answered[i], after[i]);
    }
  }

  /** Whatever the outcome of a command sent when host and CIs agree, no CI was accepted but on its
      answer to this command; so the fault bits that it gained come from such answers too. */
  lemma AcceptedAreAnswers(h: Host, data: Frame, commands: Frame, addSelectMask: bool, commitOk: bool,
                           script: Script, sent: seq<nat>)
    requires h.Valid() && |sent| == MAX_CIS && InStep(h, sent)
    requires Lawful(script, h.nrCis, sent, SentAfter(h, commands, sent))
    ensures var r := ExecCmd(h, data, commands, addSelectMask, commitOk, script);
      && |r.done| == MAX_CIS
      && AcceptedAnswers(script, r.done, SentAfter(h, commands, sent), r.polls)
  {
    CommandFaults(h, data, commands, addSelectMask, commitOk, script);
    CommandOutstanding(h, commands, addSelectMask, sent);
    hide ExecCmd, PendingOf, Lawful, OneOutstanding, Witnessed, FaultsFrom, InStep, AcceptedAnswers, Inspect;
    var r := ExecCmd(h, data, commands, addSelectMask, commitOk, script);
    WitnessAnswers(PendingOf(h, commands, addSelectMask), InitialProgress(h, commands), r.done, script, r.polls,
                   sent, SentAfter(h, commands, sent), h.nrCis);
  }

  /** A successful command, sent when host and CIs agree and all is answered, ends with every addressed
      CI accepted on its answer to it, never on the previous one, and the data the host keeps was read
      after all those answers. Host and CIs still agree, and all is answered again. */
  lemma CommandIsAnswered(h: Host, data: Frame, commands: Frame, addSelectMask: bool, commitOk: bool,
                          script: Script, sent: seq<nat>)
    requires h.Valid() && |sent| == MAX_CIS && InStep(h, sent)
    requires Lawful(script, h.nrCis, sent, SentAfter(h, commands, sent))
    ensures var r := ExecCmd(h, data, commands, addSelectMask, commitOk, script);
      && |r.done| == MAX_CIS
      && AcceptedAnswers(script, r.done, SentAfter(h, commands, sent), r.polls)
      && (r.status == Ok ==>
            && (forall i: nat :: i < MAX_CIS && Addressed(h, commands, i) ==> r.done[i].Accepted?)
            && r.polls > 0
            && script(r.polls - 1).Read?
            && r.data == script(r.polls - 1).frame
            && script(r.polls - 1).answered == SentAfter(h, commands, sent)
            && r.ctx.color == Inverted(h, commands).color)
  {
    AcceptedAreAnswers(h, data, commands, addSelectMask, commitOk, script, sent);
    AddressedAreAccepted(h, data, commands, addSelectMask, commitOk, script);
    CommandReadsAnswers(h, data, commands, addSelectMask, commitOk, script, sent);
    hide ExecCmd, AcceptedAnswers, Lawful, InStep, Inverted, SentAfter, Addressed;
  }

  lemma AddressedAreAccepted(h: Host, data: Frame, commands: Frame, addSelectMask: bool, commitOk: bool, script: Script)
    requires h.Valid()
    ensures var r := ExecCmd(h, data, commands, addSelectMask, commitOk, script);
      |r.done| == MAX_CIS
      && (r.status == Ok ==> forall i: nat :: i < MAX_CIS && Addressed(h, commands, i) ==> r.done[i].Accepted?)
  {
    hide PollFrom, PendingOf, Inverted, FaultsFrom, Witnessed, Selectable;
    CommandFaults(h, data, commands, addSelectMask, commitOk, script);
    var done, p := InitialProgress(h, commands), PendingOf(h, commands, addSelectMask);
    forall i: nat | i < MAX_CIS && Addressed(h, commands, i)
      ensures ExecCmd(h, data, commands, addSelectMask, commitOk, script).status == Ok ==>
        ExecCmd(h, data, commands, addSelectMask, commitOk, script).done[i].Accepted?
    {
      WaitingEndsAccepted(Inverted(h, commands), p, done, data, script, 0, NB_RETRY_FOR_VALID_RESULT, h.nrCis, i);
    }
  }

  lemma CommandReadsAnswers(h: Host, data: Frame, commands: Frame, addSelectMask: bool, commitOk: bool,
                            script: Script, sent: seq<nat>)
    requires h.Valid() && |sent| == MAX_CIS && InStep(h, sent)
    requires Lawful(script, h.nrCis, sent, SentAfter(h, commands, sent))
    ensures var r := ExecCmd(h, data, commands, addSelectMask, commitOk, script);
      r.status == Ok ==>
        && r.polls > 0
        && script(r.polls - 1).Read?
        && r.data == script(r.polls - 1).frame
        && script(r.polls - 1).answered == SentAfter(h, commands, sent)
        && r.ctx.color == Inverted(h, commands).color
  {
    hide PollFrom, OneOutstanding, FaultsFrom, Witnessed, Lawful, PendingOf, Inverted, InStep;
    var done := InitialProgress(h, commands);
    var p := PendingOf(h, commands, addSelectMask);
    var after := SentAfter(h, commands, sent);
    CommandOutstanding(h, commands, addSelectMask, sent);
    PolledUntilAnswered(Inverted(h, commands), p, done, data, script, NB_RETRY_FOR_VALID_RESULT, sent, after, h.nrCis);
    PollFaults(Inverted(h, commands), p, done, data, script, 0, NB_RETRY_FOR_VALID_RESULT, h.nrCis);
  }

  /** Whatever the CIs reply: a command makes at most 101 polls and, on chips other than v1.4 when these
      end well, one re-read; its fault bits are
      the earlier ones together with those of the CIs whose accepted colour byte, as some poll
      delivered it, was off by one or three bits (decode) or by two or three (collide). */
  lemma CommandFaults(h: Host, data: Frame, commands: Frame, addSelectMask: bool, commitOk: bool, script: Script)
    requires h.Valid()
    ensures var r := ExecCmd(h, data, commands, addSelectMask, commitOk, script);
      && |r.done| == MAX_CIS
      && r.polls <= NB_RETRY_FOR_VALID_RESULT + 2
      && (h.chipV14 || r.status == Timeout ==> r.polls <= NB_RETRY_FOR_VALID_RESULT + 1)
      && FaultsFrom(h.ctx, r.ctx, InitialProgress(h, commands), r.done)
      && Witnessed(PendingOf(h, commands, addSelectMask), InitialProgress(h, commands), r.done, script, 0, r.polls)
      && (forall i: nat :: i < MAX_CIS && r.done[i].Accepted? ==> Addressed(h, commands, i))
  {
    hide ScanFrom, On, Inspect, Distance, PendingOf, PollFrom, Inverted;
    var done := InitialProgress(h, commands);
    var p := PendingOf(h, commands, addSelectMask);
    var ctx := Inverted(h, commands);
    PollEnds(ctx, p, done, data, script, 0, NB_RETRY_FOR_VALID_RESULT, h.nrCis);
    PollFaults(ctx, p, done, data, script, 0, NB_RETRY_FOR_VALID_RESULT, h.nrCis);
  }

  lemma {:induction false} PendingAt(h: Host, commands: Frame, addSelectMask: bool, count: nat, i: nat)
    requires h.Valid() && i < count <= MAX_CIS
    ensures MasksUpTo(h, commands, addSelectMask, count)[i] == MaskOf(commands[i], addSelectMask, h.nrDpus)
    ensures ExpectedUpTo(h, commands, addSelectMask, count)[i]
         == ExpectedOf(commands[i], addSelectMask, Selected(h, i))
  {
    hide MaskOf, ExpectedOf, Selected;
    if i < count - 1 {
      PendingAt(h, commands, addSelectMask, count - 1, i);
    }
  }

  /** What passes the mask test of an addressed CI: a cleared command byte and a full valid byte and,
      for a command that waits for its DPUs, the selected DPUs and no others among the low bits. */
  lemma MaskTest(h: Host, commands: Frame, addSelectMask: bool, i: nat, result: bv64)
    requires h.Valid() && i < MAX_CIS && Addressed(h, commands, i)
    ensures var p := PendingOf(h, commands, addSelectMask);
      Passes(result, p.masks[i], p.expected[i]) <==>
        && IsAnswer(result)
        && (addSelectMask ==> LowBits(result, AllDpus(h.nrDpus), Selected(h, i)))
  {
    hide AllDpus, Selected, MasksUpTo, ExpectedUpTo, Passes, IsAnswer, LowBits, IsEmpty, WithLow;
    PendingAt(h, commands, addSelectMask, h.nrCis, i);
    AnswerMask(result);
    MaskSplits(result, AllDpus(h.nrDpus), Selected(h, i));
  }

  predicate LowBits(result: bv64, all: bv8, selected: bv8) {
    Passes(result, all as bv64, selected as bv64)
  }

  predicate IsAnswer(result: bv64) {
    CommandByte(result) == 0 && ValidByte(result) == 0xFF
  }

  lemma AnswerMask(result: bv64)
    ensures Passes(result, ANSWER_MASK, ANSWER) <==> IsAnswer(result)
  {
  }

  lemma MaskSplits(result: bv64, all: bv8, selected: bv8)
    ensures Passes(result, WithLow(ANSWER_MASK, all), WithLow(ANSWER, selected))
       <==> Passes(result, ANSWER_MASK, ANSWER) && LowBits(result, all, selected)
  {
  }

  // ----- what is accepted, on the bytes of packets

  // Whether a slice's target selects a DPU.
  predicate SelectsDpu(slice: Slice, nrDpus: nat, d: nat)
    requires ValidSlice(slice, nrDpus) && d < BITS
  {
    match slice.target
    case TargetAll => d < nrDpus
    case TargetDpu(dpu) => d == dpu
    case TargetGroup(group) => On(slice.dpusPerGroup[group], d)
    case TargetNone => false
  }

  lemma AllDpusBits(nrDpus: nat, d: nat)
    requires nrDpus <= 8 && d < BITS
    ensures On(AllDpus(nrDpus), d) <==> d < nrDpus
  {
  }

  lemma SelectedBits(h: Host, i: nat, d: nat)
    requires h.Valid() && i < MAX_CIS && d < BITS
    ensures On(Selected(h, i), d) <==> SelectsDpu(h.slices[i], h.nrDpus, d)
    ensures SelectedMask(h.slices[i], h.nrDpus).None? <==> h.slices[i].target.TargetNone?
  {
    hide On, AllDpus, Bit;
    AllDpusBits(h.nrDpus, d);
    if h.slices[i].target.TargetDpu? {
      BitAlone(h.slices[i].target.dpu, d);
    }
    NoBits(0);
  }

  /** The packet of a CI that has carried out a command: its command byte is cleared, its valid byte full
      and, for a command that waits for its DPUs, the low bits of the DPUs are those of the selected. */
  predicate Acknowledges(h: Host, addSelectMask: bool, i: nat, packet: bv64)
    requires h.Valid() && i < MAX_CIS
  {
    && CommandByte(packet) == 0 && ValidByte(packet) == 0xFF
    && (addSelectMask ==>
          forall d: nat :: d < BITS ==>
            (SelectsDpu(h.slices[i], h.nrDpus, d) <==> d < h.nrDpus && On(LowByte(packet), d)))
  }

  lemma LowBitsAre(result: bv64, all: bv8, selected: bv8)
    ensures LowBits(result, all, selected) <==>
      forall d: nat :: d < BITS ==> (On(selected, d) <==> On(all, d) && On(LowByte(result), d))
  {
    LowPart(result, all, selected);
    hide On, LowByte, LowBits;
    forall d: nat | d < BITS ensures On(Common(LowByte(result), all), d) <==> On(LowByte(result), d) && On(all, d) {
      AndBit(LowByte(result), all, d);
    }
    if forall d: nat :: d < BITS ==> (On(selected, d) <==> On(all, d) && On(LowByte(result), d)) {
      SameBits(Common(LowByte(result), all), selected);
    }
  }

  lemma LowPart(result: bv64, all: bv8, selected: bv8)
    ensures LowBits(result, all, selected) <==> Common(LowByte(result), all) == selected
  {
  }

  lemma NopBits(packet: bv64)
    ensures packet & CI_NOP == CI_NOP <==> IsNop(packet)
  {
  }

  lemma LowBitsSelect(h: Host, i: nat, packet: bv64)
    requires h.Valid() && i < MAX_CIS
    ensures LowBits(packet, AllDpus(h.nrDpus), Selected(h, i)) <==>
      forall d: nat :: d < BITS ==>
        (SelectsDpu(h.slices[i], h.nrDpus, d) <==> d < h.nrDpus && On(LowByte(packet), d))
  {
    LowBitsAre(packet, AllDpus(h.nrDpus), Selected(h, i));
    hide On, AllDpus, Selected, LowBits, LowByte, SelectsDpu;
    forall d: nat | d < BITS
      ensures On(AllDpus(h.nrDpus), d) <==> d < h.nrDpus
      ensures On(Selected(h, i), d) <==> SelectsDpu(h.slices[i], h.nrDpus, d)
    {
      AllDpusBits(h.nrDpus, d);
      SelectedBits(h, i, d);
    }
  }

  lemma PassesBytes(h: Host, commands: Frame, addSelectMask: bool, i: nat, packet: bv64)
    requires h.Valid() && i < MAX_CIS && Addressed(h, commands, i)
    ensures var p := PendingOf(h, commands, addSelectMask);
      Passes(packet, p.masks[i], p.expected[i]) <==> Acknowledges(h, addSelectMask, i, packet)
  {
    hide Passes, PendingOf, LowBits, SelectsDpu, On, LowByte, CommandByte, ValidByte;
    MaskTest(h, commands, addSelectMask, i, packet);
    LowBitsSelect(h, i, packet);
  }

  /** A packet of an addressed CI is taken exactly when it acknowledges the command, or is a NOP, and its
      colour byte is at most four bits off the colour expected. */
  lemma Acceptance(h: Host, commands: Frame, addSelectMask: bool, i: nat, packet: bv64)
    requires h.Valid() && i < MAX_CIS && Addressed(h, commands, i)
    ensures var p := PendingOf(h, commands, addSelectMask);
      var one := On(h.ctx.color, i);
      && On(p.expectedColor, i) == one
      && (Inspect(packet, p.masks[i], p.expected[i], one).Ready? <==>
            (Acknowledges(h, addSelectMask, i, packet) || IsNop(packet)) && Distance(packet, one) <= 4)
  {
    var p := PendingOf(h, commands, addSelectMask);
    PassesBytes(h, commands, addSelectMask, i, packet);
    NopBits(packet);
    ExpectedColorBit(h, commands, addSelectMask, i);
    hide Acknowledges, PendingOf, IsNop, Distance, On, Passes;
    var one := On(h.ctx.color, i);
    if Passes(packet, p.masks[i], p.expected[i]) || IsNop(packet) {
      AcceptedDistance(packet, p.masks[i], p.expected[i], one);
    }
  }

  lemma ExpectedColorBit(h: Host, commands: Frame, addSelectMask: bool, i: nat)
    requires h.Valid() && i < MAX_CIS && Addressed(h, commands, i)
    ensures On(PendingOf(h, commands, addSelectMask).expectedColor, i) == On(h.ctx.color, i)
  {
    hide On, MasksUpTo, ExpectedUpTo;
    AndBit(h.ctx.color, AddressedFrom(commands, h.nrCis), i);
    AddressedBits(commands, h.nrCis, i);
  }

  // One of the polls delivered a packet of CI i that acknowledges the command, or a NOP, at a distance.
  ghost predicate AcknowledgementRead(h: Host, addSelectMask: bool, i: nat, distance: nat, script: Script, polls: nat)
    requires h.Valid() && i < MAX_CIS
  {
    exists s: nat :: s < polls && script(s).Read?
      && (Acknowledges(h, addSelectMask, i, script(s).frame[i]) || IsNop(script(s).frame[i]))
      && distance == Distance(script(s).frame[i], On(h.ctx.color, i)) <= 4
  }

  /** Whatever the CIs reply and however the command ends: a CI is accepted only on a packet that
      acknowledges the command, or a NOP. */
  lemma AcceptedAcknowledge(h: Host, data: Frame, commands: Frame, addSelectMask: bool, commitOk: bool, script: Script)
    requires h.Valid()
    ensures var r := ExecCmd(h, data, commands, addSelectMask, commitOk, script);
      && |r.done| == MAX_CIS
      && forall i: nat :: i < MAX_CIS && r.done[i].Accepted? ==>
           AcknowledgementRead(h, addSelectMask, i, r.done[i].distance, script, r.polls)
  {
    CommandFaults(h, data, commands, addSelectMask, commitOk, script);
    hide ExecCmd, PendingOf, FaultsFrom, Inspect, Acknowledges, IsNop, Distance, On;
    var r, p := ExecCmd(h, data, commands, addSelectMask, commitOk, script), PendingOf(h, commands, addSelectMask);
    forall i: nat | i < MAX_CIS && r.done[i].Accepted?
      ensures AcknowledgementRead(h, addSelectMask, i, r.done[i].distance, script, r.polls)
    {
      var s: nat :| s < r.polls && script(s).Read?
        && Inspect(script(s).frame[i], p.masks[i], p.expected[i], On(p.expectedColor, i)) == Ready(r.done[i].distance);
      Acceptance(h, commands, addSelectMask, i, script(s).frame[i]);
      ReadyDistance(script(s).frame[i], p.masks[i], p.expected[i], On(h.ctx.color, i));
    }
  }

  /** On chips other than v1.4 a command that ends well reads once more after all CIs were accepted, and
      keeps the data of that read; on v1.4 it keeps those of the last poll. */
  lemma RereadsAfterAll(h: Host, data: Frame, commands: Frame, addSelectMask: bool, commitOk: bool, script: Script)
    requires h.Valid()
    ensures var r := ExecCmd(h, data, commands, addSelectMask, commitOk, script);
      r.status == Ok ==>
        && |r.done| == MAX_CIS && r.polls > 0
        && script(r.polls - 1).Read? && r.data == script(r.polls - 1).frame
        && (!h.chipV14 ==>
              r.polls > 1 && Witnessed(PendingOf(h, commands, addSelectMask), InitialProgress(h, commands), r.done,
                                       script, 0, r.polls - 1))
  {
    hide PollFrom, PendingOf, Inverted, Selectable, Witnessed, FaultsFrom;
    PollEnds(Inverted(h, commands), PendingOf(h, commands, addSelectMask), InitialProgress(h, commands), data,
             script, 0, NB_RETRY_FOR_VALID_RESULT, h.nrCis);
  }

  // ----- commands that succeed

  // The packets of all waiting CIs are taken, none of them four bits off.
  predicate AllReady(data: Frame, p: Pending, done: seq<Progress>, nrCis: nat)
    requires nrCis <= MAX_CIS == |done|
  {
    forall i: nat :: i < nrCis && done[i].Waiting? ==>
      var v := Inspect(data[i], p.masks[i], p.expected[i], On(p.expectedColor, i));
      v.Ready? && v.distance != 4
  }

  lemma {:induction false} ScanFinishes(ctx: Context, data: Frame, p: Pending, done: seq<Progress>, ci: nat, nrCis: nat)
    requires ci <= nrCis <= MAX_CIS && |done| == MAX_CIS && AllReady(data, p, done, nrCis)
    ensures ScanFrom(ctx, data, p, done, ci, nrCis).finished
    decreases nrCis - ci
  {
    hide Inspect, On, WithFaults;
    if ci < nrCis {
      if !done[ci].Waiting? {
        ScanFinishes(ctx, data, p, done, ci + 1, nrCis);
      } else {
        var d := Inspect(data[ci], p.masks[ci], p.expected[ci], On(p.expectedColor, ci)).distance;
        ScanFinishes(WithFaults(ctx, ci, d), data, p, done[ci := Accepted(d)], ci + 1, nrCis);
      }
    }
  }

  lemma {:induction false} PollSucceeds(ctx: Context, p: Pending, done: seq<Progress>, data: Frame, script: Script,
                                        t: nat, retries: nat, nrCis: nat, last: nat)
    requires nrCis <= MAX_CIS && |done| == MAX_CIS && t <= last <= t + retries
    requires forall s: nat :: t <= s <= last ==> script(s).Read?
    requires AllReady(script(last).frame, p, done, nrCis)
    ensures var r := PollFrom(ctx, p, done, data, script, t, retries, nrCis);
      r.status == Ok && t < r.polls <= last + 1
    decreases retries
  {
    hide ScanFrom, On, Inspect;
    var frame := script(t).frame;
    var s := ScanFrom(ctx, frame, p, done, 0, nrCis);
    ScanKeeps(ctx, frame, p, done, 0, nrCis);
    if t == last {
      ScanFinishes(ctx, frame, p, done, 0, nrCis);
    } else if !s.finished {
      PollSucceeds(s.ctx, p, s.done, frame, script, t + 1, retries - 1, nrCis, last);
    }
  }

  /** A command succeeds when it is committed, its slices have targets if that matters, and by some poll,
      the 101st at the latest, the reads have worked and every addressed CI acknowledges the command
      there within the noise bound; on chips other than v1.4 the re-read has to work too. */
  lemma CommandSucceeds(h: Host, data: Frame, commands: Frame, addSelectMask: bool, script: Script, last: nat)
    requires h.Valid() && (addSelectMask ==> Selectable(h, commands)) && last <= NB_RETRY_FOR_VALID_RESULT
    requires forall s: nat :: s <= last || (!h.chipV14 && s == last + 1) ==> script(s).Read?
    requires forall i: nat :: i < MAX_CIS && Addressed(h, commands, i) ==>
      && Acknowledges(h, addSelectMask, i, script(last).frame[i])
      && Distance(script(last).frame[i], On(h.ctx.color, i)) <= 3
    ensures ExecCmd(h, data, commands, addSelectMask, true, script).status == Ok
  {
    var p, done := PendingOf(h, commands, addSelectMask), InitialProgress(h, commands);
    var frame := script(last).frame;
    hide Selectable, Inspect, On, Distance, Acknowledges, PendingOf, PollFrom, Inverted;
    forall i: nat | i < h.nrCis && done[i].Waiting?
      ensures var v := Inspect(frame[i], p.masks[i], p.expected[i], On(p.expectedColor, i)); v.Ready? && v.distance != 4
    {
      Acceptance(h, commands, addSelectMask, i, frame[i]);
      ReadyDistance(frame[i], p.masks[i], p.expected[i], On(h.ctx.color, i));
    }
    PollSucceeds(Inverted(h, commands), p, done, data, script, 0, NB_RETRY_FOR_VALID_RESULT, h.nrCis, last);
  }

  lemma {:induction false} PollStatus(ctx: Context, p: Pending, done: seq<Progress>, data: Frame, script: Script,
                                      t: nat, retries: nat, nrCis: nat)
    requires nrCis <= MAX_CIS && |done| == MAX_CIS
    ensures var r := PollFrom(ctx, p, done, data, script, t, retries, nrCis);
      && t < r.polls
      && (r.status == DriverError <==> script(r.polls - 1).DriverFailure?)
      && (r.status == Timeout ==> r.polls == t + retries + 1)
      && r.status in {Ok, DriverError, Timeout}
    decreases retries
  {
    hide ScanFrom;
    if script(t).Read? {
      var s := ScanFrom(ctx, script(t).frame, p, done, 0, nrCis);
      if !s.finished && retries > 0 {
        PollStatus(s.ctx, p, s.done, script(t).frame, script, t + 1, retries - 1, nrCis);
      }
    }
  }

  /** How a command fails: for want of a target before anything is sent, with the driver when that does,
      and with a timeout after exactly 101 polls. */
  lemma CommandFails(h: Host, data: Frame, commands: Frame, addSelectMask: bool, commitOk: bool, script: Script)
    requires h.Valid()
    ensures var r := ExecCmd(h, data, commands, addSelectMask, commitOk, script);
      && (r.status == InternalError <==> addSelectMask && !Selectable(h, commands))
      && (r.status == InternalError ==> r.ctx == h.ctx && r.polls == 0)
      && (r.status == DriverError <==>
            r.status != InternalError && (!commitOk || (r.polls > 0 && script(r.polls - 1).DriverFailure?)))
      && (r.status == Timeout ==> r.polls == NB_RETRY_FOR_VALID_RESULT + 1)
      && (r.polls == 0 ==> r.status in {InternalError, DriverError})
      && NB_RETRY_FOR_VALID_RESULT == 100
  {
    hide PollFrom, PendingOf, Inverted, Selectable;
    PollStatus(Inverted(h, commands), PendingOf(h, commands, addSelectMask), InitialProgress(h, commands), data,
               script, 0, NB_RETRY_FOR_VALID_RESULT, h.nrCis);
  }

  // ----- what a reset does

  /** A successful reset clears the colour and fault bits of the CIs it addresses and keeps those of the
      others; on every CI it leaves no target, all DPUs in group 0 and none in the other groups. Of a
      failing one only the colours of the addressed CIs are inverted. */
  lemma ResetBits(h: Host, commands: Frame, commitOk: bool, script: Script, duration: nat, i: nat)
    requires h.Valid() && i < h.nrCis
    ensures var o := ResetCmd(h, commands, commitOk, script, duration);
      var fails := !commitOk || exists t :: 0 <= t < duration && script(t).DriverFailure?;
      && o.status == (if fails then DriverError else Ok)
      && (fails ==>
            && o.h.slices == h.slices
            && On(o.h.ctx.color, i) == (On(h.ctx.color, i) != Addressed(h, commands, i))
            && o.h.ctx.faultDecode == h.ctx.faultDecode && o.h.ctx.faultCollide == h.ctx.faultCollide)
      && (!fails ==>
            && (On(o.h.ctx.color, i) <==> On(h.ctx.color, i) && !Addressed(h, commands, i))
            && (On(o.h.ctx.faultDecode, i) <==> On(h.ctx.faultDecode, i) && !Addressed(h, commands, i))
            && (On(o.h.ctx.faultCollide, i) <==> On(h.ctx.faultCollide, i) && !Addressed(h, commands, i)))
  {
    hide On, AddressedFrom, Inverted, Without;
    InvertedBit(h, commands, i);
    ResetBit(h, commands, i);
    AddressedBits(commands, h.nrCis, i);
    ClearBit(h.ctx.faultDecode, AddressedFrom(commands, h.nrCis), i);
    ClearBit(h.ctx.faultCollide, AddressedFrom(commands, h.nrCis), i);
  }

  lemma ResetGroups(h: Host, commands: Frame, script: Script, duration: nat, i: nat, group: nat, d: nat)
    requires h.Valid() && i < MAX_CIS && group < 8 && d < BITS
    ensures var o := ResetCmd(h, commands, true, script, duration);
      o.status == Ok ==>
        && o.h.slices[i].target == TargetNone
        && (On(o.h.slices[i].dpusPerGroup[group], d) <==> group == 0 && d < h.nrDpus)
  {
    hide On, AllDpus, AddressedFrom, Inverted, Without;
    AllDpusBits(h.nrDpus, d);
    NoBits(0);
  }

  // ----- what learning the colours does

  lemma WithColorBit(color: bv8, j: nat, one: bool, i: nat)
    requires i < MAX_CIS && j < MAX_CIS
    ensures On(WithColor(color, j, one), i) <==> if i == j then one else On(color, i)
  {
    hide On, Bit, Raised;
    SetBit(color, j, i);
  }

  lemma {:induction false} LearntBit(color: bv8, frame: Frame, count: nat, i: nat)
    requires count <= MAX_CIS && i < MAX_CIS
    ensures On(LearntColors(color, frame, count), i)
         <==> if i < count then Popcount(ColorByte(frame[i])) <= 3 else On(color, i)
  {
    hide On, WithColor, Popcount, ColorByte;
    if count > 0 {
      LearntBit(color, frame, count - 1, i);
      WithColorBit(LearntColors(color, frame, count - 1), count - 1, Popcount(ColorByte(frame[count - 1])) <= 3, i);
    }
  }

  /** CIs that nothing was sent to: those holding a NOP show it, the others show their last answer. */
  ghost predicate Quiet(script: Script, nrCis: nat, sent: seq<nat>, held: seq<bool>)
    requires nrCis <= MAX_CIS && |sent| == |held| == MAX_CIS
  {
    forall t: nat {:trigger script(t)} :: script(t).Read? ==>
      forall i: nat :: i < nrCis ==>
        && (held[i] <==> IsNop(script(t).frame[i]))
        && (!held[i] ==> Distance(script(t).frame[i], AnswerIsOne(sent[i])) <= 3)
  }

  /** After the dummy command: a CI whose packet has a clear command byte shows its last answer. */
  ghost predicate ClearedAnswers(script: Script, nrCis: nat, sent: seq<nat>)
    requires nrCis <= MAX_CIS && |sent| == MAX_CIS
  {
    forall t: nat {:trigger script(t)} :: script(t).Read? ==>
      forall i: nat :: i < nrCis && CommandByte(script(t).frame[i]) == 0 ==>
        Distance(script(t).frame[i], AnswerIsOne(sent[i])) <= 3
  }

  /** The dummy command goes to exactly the CIs that hold a NOP. */
  lemma DummyGoesToHolders(h: Host, script: Script, t: nat, sent: seq<nat>, held: seq<bool>)
    requires h.Valid() && |sent| == |held| == MAX_CIS
    requires Quiet(script, h.nrCis, sent, held) && script(t).Read?
    ensures var commands := DummyCommands(script(t).frame, h.nrCis);
      && (forall i: nat :: i < h.nrCis ==> commands[i] == if held[i] then CI_IDENTITY else CI_EMPTY)
      && (forall i: nat :: i < MAX_CIS ==>
            SentAfter(h, commands, sent)[i] == if i < h.nrCis && held[i] then sent[i] + 1 else sent[i])
  {
    hide Distance, IsNop;
    assert IsEmpty(CI_EMPTY) && !IsEmpty(CI_IDENTITY);
  }

  lemma NothingSent(h: Host, sent: seq<nat>)
    requires |sent| == MAX_CIS
    ensures SentAfter(h, NONE, sent) == sent
  {
  }

  lemma {:induction false} WaitSettledEnds(script: Script, t: nat, timeout: nat, sawNop: bool, nrCis: nat,
                                           sent: seq<nat>, held: seq<bool>)
    requires timeout > 0 && nrCis <= MAX_CIS && |sent| == |held| == MAX_CIS
    requires Quiet(script, nrCis, sent, held)
    ensures var w := WaitSettled(script, t, timeout, sawNop, nrCis);
      w.status == Ok ==> (w.sawNop <==> sawNop || exists i: nat :: i < nrCis && held[i])
    decreases timeout
  {
    hide IsNop, Settled, Distance;
    if script(t).Read? {
      var frame := script(t).frame;
      assert AnyNop(frame, nrCis) <==> exists i: nat :: i < nrCis && held[i];
      if timeout > 1 && !AllSettled(frame, nrCis) {
        WaitSettledEnds(script, t + 1, timeout - 1, sawNop || AnyNop(frame, nrCis), nrCis, sent, held);
      }
    }
  }

  lemma {:induction false} WaitClearedEnds(script: Script, t: nat, timeout: nat, nrCis: nat)
    requires timeout > 0 && nrCis <= MAX_CIS
    ensures var w := WaitCleared(script, t, timeout, nrCis);
      w.status == Ok ==>
        && w.polls > 0 && script(w.polls - 1).Read? && w.frame == script(w.polls - 1).frame
        && AllCleared(w.frame, nrCis)
    decreases timeout
  {
    hide CommandByte;
    if script(t).Read? {
      if timeout > 1 && !AllCleared(script(t).frame, nrCis) {
        WaitClearedEnds(script, t + 1, timeout - 1, nrCis);
      }
    }
  }

  /** Waiting for valid results ends well at the first read in which every CI holds a NOP, or has a clear
      command byte and a full valid byte, if it comes before read number 99999 and the reads before it
      work; and it ends with a timeout after exactly 100000 reads. */
  lemma {:induction false} WaitsForValid(script: Script, t: nat, timeout: nat, sawNop: bool, nrCis: nat, last: nat)
    requires timeout > 0 && nrCis <= MAX_CIS && t <= last < t + timeout
    requires forall s: nat :: t <= s <= last ==> script(s).Read?
    requires forall s: nat :: t <= s < last ==> !AllSettled(script(s).frame, nrCis)
    ensures var w := WaitSettled(script, t, timeout, sawNop, nrCis);
      && (last + 1 < t + timeout && AllSettled(script(last).frame, nrCis) ==>
            && w.status == Ok && w.polls == last + 1
            && forall i: nat :: i < nrCis ==>
                 var packet := script(last).frame[i];
                 CommandByte(packet) == 0xFF || (CommandByte(packet) == 0 && ValidByte(packet) == 0xFF))
      && (last + 1 == t + timeout ==> w.status == Timeout && w.polls == t + timeout)
    decreases timeout
  {
    hide CommandByte, ValidByte;
    if t < last {
      WaitsForValid(script, t + 1, timeout - 1, sawNop || AnyNop(script(t).frame, nrCis), nrCis, last);
    }
  }

  lemma {:induction false} WaitsForClear(script: Script, t: nat, timeout: nat, nrCis: nat, last: nat)
    requires timeout > 0 && nrCis <= MAX_CIS && t <= last < t + timeout
    requires forall s: nat :: t <= s <= last ==> script(s).Read?
    requires forall s: nat :: t <= s < last ==> !AllCleared(script(s).frame, nrCis)
    ensures var w := WaitCleared(script, t, timeout, nrCis);
      && (last + 1 < t + timeout && AllCleared(script(last).frame, nrCis) ==>
            && w.status == Ok && w.polls == last + 1
            && forall i: nat :: i < nrCis ==> CommandByte(script(last).frame[i]) == 0)
      && (last + 1 == t + timeout ==> w.status == Timeout && w.polls == t + timeout)
    decreases timeout
  {
    hide CommandByte;
    if t < last {
      WaitsForClear(script, t + 1, timeout - 1, nrCis, last);
    }
  }

  /** Learning succeeds when the CIs settle in time, at read number settled, the reads up to the one after
      it work, the dummy commands can be committed, and the CIs clear their command bytes in time, at read
      number cleared after that. */
  lemma LearningSucceeds(h: Host, before: Script, after: Script, settled: nat, cleared: nat)
    requires h.Valid() && settled < TIMEOUT_COLOR - 1 && cleared < TIMEOUT_COLOR - 1
    requires forall s: nat :: s <= settled + 1 ==> before(s).Read?
    requires AllSettled(before(settled).frame, h.nrCis)
    requires forall s: nat :: s < settled ==> !AllSettled(before(s).frame, h.nrCis)
    requires forall s: nat :: s <= cleared ==> after(s).Read?
    requires AllCleared(after(cleared).frame, h.nrCis)
    requires forall s: nat :: s < cleared ==> !AllCleared(after(s).frame, h.nrCis)
    ensures GetColor(h, before, true, after, TIMEOUT_COLOR).status == Ok
    ensures TIMEOUT_COLOR == 100000
  {
    hide WaitSettled, WaitCleared, AllSettled, AllCleared, DummyCommands, LearntColors;
    WaitsForValid(before, 0, TIMEOUT_COLOR, false, h.nrCis, settled);
    WaitsForClear(after, 0, TIMEOUT_COLOR, h.nrCis, cleared);
  }

  lemma LearntInStep(h: Host, frame: Frame, sent: seq<nat>)
    requires h.Valid() && |sent| == MAX_CIS
    requires forall i: nat :: i < h.nrCis ==> Distance(frame[i], AnswerIsOne(sent[i])) <= 3
    ensures InStep(h.(ctx := h.ctx.(color := LearntColors(h.ctx.color, frame, h.nrCis))), sent)
  {
    hide On, Popcount, ColorByte, LearntColors;
    forall i: nat | i < h.nrCis
      ensures On(LearntColors(h.ctx.color, frame, h.nrCis), i) <==> sent[i] % 2 == 1
    {
      LearntBit(h.ctx.color, frame, h.nrCis, i);
    }
  }

  /** Success makes host and CIs agree, from whatever colours the host had: the dummy command went to
      exactly the CIs that held a NOP, and the colours are those the CIs answer with next. */
  lemma LearningSynchronises(h: Host, before: Script, commitOk: bool, after: Script, timeout: nat,
                             sent: seq<nat>, held: seq<bool>)
    requires h.Valid() && timeout > 0 && |sent| == |held| == MAX_CIS
    requires Quiet(before, h.nrCis, sent, held)
    requires ClearedAnswers(after, h.nrCis, SentAfter(h, GetColor(h, before, commitOk, after, timeout).commands, sent))
    ensures var l := GetColor(h, before, commitOk, after, timeout);
      l.status == Ok ==>
        && InStep(l.h, SentAfter(h, l.commands, sent))
        && forall i: nat :: i < h.nrCis ==> l.commands[i] == if held[i] then CI_IDENTITY else CI_EMPTY
  {
    hide On, Popcount, ColorByte, LearntColors, WaitSettled, WaitCleared, IsNop, Settled, Distance, InStep, IsEmpty;
    hide DummyCommands;
    WaitSettledEnds(before, 0, timeout, false, h.nrCis, sent, held);
    WaitClearedEnds(after, 0, timeout, h.nrCis);
    var l := GetColor(h, before, commitOk, after, timeout);
    var waited := WaitSettled(before, 0, timeout, false, h.nrCis);
    if l.status == Ok {
      DummyGoesToHolders(h, before, waited.polls, sent, held);
      NothingSent(h, sent);
      hide SentAfter;
      if waited.sawNop {
        var cleared := WaitCleared(after, 0, timeout, h.nrCis);
        LearntInStep(h, cleared.frame, SentAfter(h, l.commands, sent));
      } else {
        LearntInStep(h, before(waited.polls).frame, sent);
      }
    }
  }

  /** On a host that agrees with CIs of which none holds a NOP, learning changes no colour bit. */
  lemma LearningChangesNothing(h: Host, before: Script, commitOk: bool, after: Script, timeout: nat, sent: seq<nat>)
    requires h.Valid() && timeout > 0 && |sent| == MAX_CIS && InStep(h, sent)
    requires Quiet(before, h.nrCis, sent, seq(MAX_CIS, _ => false))
    ensures GetColor(h, before, commitOk, after, timeout).h == h
  {
    hide On, Popcount, ColorByte, LearntColors, WaitSettled, WaitCleared, IsNop, Settled, Distance, InStep;
    var held := seq(MAX_CIS, _ => false);
    WaitSettledEnds(before, 0, timeout, false, h.nrCis, sent, held);
    var waited := WaitSettled(before, 0, timeout, false, h.nrCis);
    if waited.status == Ok && before(waited.polls).Read? {
      var frame := before(waited.polls).frame;
      LearntInStep(h, frame, sent);
      SameColors(h, frame, sent);
    }
  }

  lemma SameColors(h: Host, frame: Frame, sent: seq<nat>)
    requires h.Valid() && |sent| == MAX_CIS && InStep(h, sent)
    requires InStep(h.(ctx := h.ctx.(color := LearntColors(h.ctx.color, frame, h.nrCis))), sent)
    ensures LearntColors(h.ctx.color, frame, h.nrCis) == h.ctx.color
  {
    hide On, Popcount, ColorByte, LearntColors;
    forall i: nat | i < MAX_CIS
      ensures On(LearntColors(h.ctx.color, frame, h.nrCis), i) <==> On(h.ctx.color, i)
    {
      LearntBit(h.ctx.color, frame, h.nrCis, i);
    }
    SameBits(LearntColors(h.ctx.color, frame, h.nrCis), h.ctx.color);
  }

  // ----- runs of calls

  type Counts = s: seq<nat> | |s| == MAX_CIS witness [0, 0, 0, 0, 0, 0, 0, 0]

  const NO_COMMANDS: Counts := [0, 0, 0, 0, 0, 0, 0, 0]

  datatype Call =
    | Command(data: Frame, commands: Frame, addSelectMask: bool, commitOk: bool, script: Script)
    | Reset(commands: Frame, commitOk: bool, script: Script, duration: nat)
    | Learn(before: Script, commitOk: bool, after: Script, held: Flags)

  // A call, and how many commands the CIs turn out to have answered when it leaves them unknown.
  datatype Event = Event(call: Call, answered: Counts)

  // The host, and how many commands were sent to each CI since its reset, all of them answered; when
  // they are not known to the host, its colours may be wrong.
  datatype System = System(h: Host, sent: Counts, known: bool)
  {
    predicate Valid() {
      h.Valid()
    }
  }

  function SentAfterReset(h: Host, commands: Frame, sent: Counts): Counts {
    seq(MAX_CIS, i requires 0 <= i < MAX_CIS => if Addressed(h, commands, i) then 0 else sent[i])
  }

  function CallOutcome(h: Host, call: Call): (o: Outcome)
    requires h.Valid()
    ensures o.h.Valid() && o.h.nrCis == h.nrCis
  {
    match call
    case Command(data, commands, addSelectMask, commitOk, script) =>
      var r := ExecCmd(h, data, commands, addSelectMask, commitOk, script);
      Outcome(r.status, h.(ctx := r.ctx))
    case Reset(commands, commitOk, script, duration) => ResetCmd(h, commands, commitOk, script, duration)
    case Learn(before, commitOk, after, _) =>
      var l := GetColor(h, before, commitOk, after, TIMEOUT_COLOR);
      Outcome(l.status, l.h)
  }

  function SentBy(h: Host, call: Call, sent: Counts): Counts
    requires h.Valid()
  {
    match call
    case Command(_, commands, _, _, _) => SentAfter(h, commands, sent)
    case Reset(commands, _, _, _) => SentAfterReset(h, commands, sent)
    case Learn(before, commitOk, after, _) =>
      SentAfter(h, GetColor(h, before, commitOk, after, TIMEOUT_COLOR).commands, sent)
  }

  // Learning the colours needs no agreement, and neither does resetting all the CIs.
  predicate Resynchronises(h: Host, call: Call) {
    call.Learn? || (call.Reset? && forall i: nat :: i < h.nrCis && i < MAX_CIS ==> Addressed(h, call.commands, i))
  }

  function After(sys: System, e: Event): (next: System)
    requires sys.Valid()
    ensures next.Valid() && next.h.nrCis == sys.h.nrCis
  {
    var o := CallOutcome(sys.h, e.call);
    if o.status == Ok && (sys.known || Resynchronises(sys.h, e.call)) then
      System(o.h, SentBy(sys.h, e.call, sys.sent), true)
    else System(o.h, e.answered, false)
  }

  ghost predicate LawfulEvent(sys: System, e: Event)
    requires sys.Valid()
  {
    match e.call
    case Command(_, commands, _, _, script) =>
      sys.known ==> Lawful(script, sys.h.nrCis, sys.sent, SentAfter(sys.h, commands, sys.sent))
    case Reset(_, _, _, _) => true
    case Learn(before, _, after, held) =>
      && Quiet(before, sys.h.nrCis, sys.sent, held)
      && ClearedAnswers(after, sys.h.nrCis, SentBy(sys.h, e.call, sys.sent))
  }

  ghost predicate LawfulRun(sys: System, events: seq<Event>)
    requires sys.Valid()
    decreases |events|
  {
    events != [] ==> LawfulEvent(sys, events[0]) && LawfulRun(After(sys, events[0]), events[1..])
  }

  // When the host knows the CIs, its colour bits are the parities of the commands sent.
  predicate Agrees(sys: System) {
    sys.Valid() && (sys.known ==> InStep(sys.h, sys.sent))
  }

  // Every CI was accepted on its answer, and on success the data was read after all the answers.
  ghost predicate FreshCommand(sys: System, c: Call)
    requires sys.Valid() && c.Command?
  {
    var r := ExecCmd(sys.h, c.data, c.commands, c.addSelectMask, c.commitOk, c.script);
    var sent := SentAfter(sys.h, c.commands, sys.sent);
    && |r.done| == MAX_CIS
    && AcceptedAnswers(c.script, r.done, sent, r.polls)
    && (r.status == Ok ==>
          && (forall i: nat :: i < MAX_CIS && Addressed(sys.h, c.commands, i) ==> r.done[i].Accepted?)
          && r.polls > 0 && c.script(r.polls - 1).Read?
          && r.data == c.script(r.polls - 1).frame
          && c.script(r.polls - 1).answered == sent)
  }

  /** Every command of a run that is sent while the CIs are known is fresh, and host and CIs agree
      whenever they are known: from the start until a call fails, and again from the next successful
      learning of the colours or reset of all the CIs. */
  ghost predicate AlwaysFresh(sys: System, events: seq<Event>)
    requires sys.Valid()
    decreases |events|
  {
    events != [] ==>
      && (events[0].call.Command? && sys.known ==> FreshCommand(sys, events[0].call))
      && Agrees(After(sys, events[0]))
      && AlwaysFresh(After(sys, events[0]), events[1..])
  }

  lemma ResetInStep(h: Host, commands: Frame, commitOk: bool, script: Script, duration: nat, sent: Counts)
    requires h.Valid()
    requires forall i: nat :: i < h.nrCis && !Addressed(h, commands, i) ==> (On(h.ctx.color, i) <==> sent[i] % 2 == 1)
    ensures var o := ResetCmd(h, commands, commitOk, script, duration);
      o.status == Ok ==> InStep(o.h, SentAfterReset(h, commands, sent))
  {
    hide On, AddressedFrom, Inverted, Addressed;
    var o := ResetCmd(h, commands, commitOk, script, duration);
    if o.status == Ok {
      forall i: nat | i < h.nrCis
        ensures On(o.h.ctx.color, i) <==> SentAfterReset(h, commands, sent)[i] % 2 == 1
      {
        ResetBit(h, commands, i);
      }
    }
  }

  lemma ResetBit(h: Host, commands: Frame, i: nat)
    requires h.Valid() && i < h.nrCis
    ensures On(Without(Inverted(h, commands).color, AddressedFrom(commands, h.nrCis)), i)
       <==> !Addressed(h, commands, i) && On(h.ctx.color, i)
  {
    hide On, AddressedFrom, Inverted, Without;
    ClearBit(Inverted(h, commands).color, AddressedFrom(commands, h.nrCis), i);
    InvertedBit(h, commands, i);
    AddressedBits(commands, h.nrCis, i);
  }

  lemma EventAgrees(sys: System, e: Event)
    requires Agrees(sys) && LawfulEvent(sys, e)
    ensures Agrees(After(sys, e))
  {
    hide On, ExecCmd, GetColor, ResetCmd, Lawful, Quiet, ClearedAnswers, Inverted, SentAfter, SentAfterReset, Addressed;
    if After(sys, e).known {
      match e.call
      case Command(data, commands, addSelectMask, commitOk, script) =>
        CommandIsAnswered(sys.h, data, commands, addSelectMask, commitOk, script, sys.sent);
        InvertedStep(sys.h, commands, sys.sent);
      case Reset(commands, commitOk, script, duration) =>
        ResetInStep(sys.h, commands, commitOk, script, duration, sys.sent);
      case Learn(before, commitOk, after, held) =>
        LearningSynchronises(sys.h, before, commitOk, after, TIMEOUT_COLOR, sys.sent, held);
    }
  }

  lemma CommandIsFresh(sys: System, c: Call)
    requires Agrees(sys) && sys.known && c.Command?
    requires Lawful(c.script, sys.h.nrCis, sys.sent, SentAfter(sys.h, c.commands, sys.sent))
    ensures FreshCommand(sys, c)
  {
    hide ExecCmd, Lawful, Inverted, InStep, AcceptedAnswers;
    CommandIsAnswered(sys.h, c.data, c.commands, c.addSelectMask, c.commitOk, c.script, sys.sent);
  }

  /** Safety over every run, failing calls included. */
  lemma {:induction false} RunsAreFresh(sys: System, events: seq<Event>)
    requires Agrees(sys) && LawfulRun(sys, events)
    ensures AlwaysFresh(sys, events)
    decreases |events|
  {
    if events != [] {
      EventAgrees(sys, events[0]);
      if events[0].call.Command? && sys.known {
        CommandIsFresh(sys, events[0].call);
      }
      hide After, LawfulEvent, FreshCommand;
      RunsAreFresh(After(sys, events[0]), events[1..]);
    }
  }

  /** A host whose colour bits are clear agrees with CIs to which no command was sent since their reset. */
  lemma FreshHostAgrees(h: Host)
    requires h.Valid() && h.ctx.color == 0
    ensures Agrees(System(h, NO_COMMANDS, true))
  {
    forall i: nat | i < h.nrCis ensures !On(0, i) {
      OneHot(i);
      hide Bit;
      MaskOps(0, 0, Bit(i));
    }
  }

  function HostAfter(h: Host, calls: seq<Call>): Host
    requires h.Valid()
    decreases |calls|
  {
    if calls == [] then h else HostAfter(CallOutcome(h, calls[0]).h, calls[1..])
  }

  lemma CallFaultsGrow(h: Host, call: Call, i: nat)
    requires h.Valid() && i < MAX_CIS
    requires call.Reset? ==> !Addressed(h, call.commands, i)
    ensures var after := CallOutcome(h, call).h;
      && (On(h.ctx.faultDecode, i) ==> On(after.ctx.faultDecode, i))
      && (On(h.ctx.faultCollide, i) ==> On(after.ctx.faultCollide, i))
  {
    hide On, ExecCmd, GetColor, Witnessed, AddressedFrom, Inverted, Without;
    match call
    case Command(data, commands, addSelectMask, commitOk, script) =>
      CommandFaults(h, data, commands, addSelectMask, commitOk, script);
    case Reset(commands, commitOk, script, duration) =>
      AddressedBits(commands, h.nrCis, i);
      ClearBit(h.ctx.faultDecode, AddressedFrom(commands, h.nrCis), i);
      ClearBit(h.ctx.faultCollide, AddressedFrom(commands, h.nrCis), i);
    case Learn(_, _, _, _) =>
  }

  /** Over any run, failing calls and lawless replies included, a CI's fault bits stay until that CI
      is reset. */
  lemma {:induction false} RunFaultsGrow(h: Host, calls: seq<Call>, i: nat)
    requires h.Valid() && i < MAX_CIS
    requires forall c :: c in calls && c.Reset? ==> !Addressed(h, c.commands, i)
    ensures On(h.ctx.faultDecode, i) ==> On(HostAfter(h, calls).ctx.faultDecode, i)
    ensures On(h.ctx.faultCollide, i) ==> On(HostAfter(h, calls).ctx.faultCollide, i)
    decreases |calls|
  {
    hide On, CallOutcome;
    if calls != [] {
      CallFaultsGrow(h, calls[0], i);
      RunFaultsGrow(CallOutcome(h, calls[0]).h, calls[1..], i);
    }
  }

  // ----- four wrong bits

  // A CI that has answered nothing, with a packet that passes and a colour byte halfway.
  const HALFWAY: Frame := [0x000F00FF00000000, 0, 0, 0, 0, 0, 0, 0]
  const IDENTITY: Frame := [CI_IDENTITY, 0, 0, 0, 0, 0, 0, 0]

  /** Beyond the noise bound a command can succeed on what is no answer to it: with the colour byte
      four bits off, the first poll marks the CI as done and the second does not look at it. */
  lemma FourBitsOff(h: Host, data: Frame)
    requires h.Valid() && h.nrCis == 1 && h.chipV14 && h.ctx.color == 0
    ensures var script := (t: nat) => Read(HALFWAY, NO_COMMANDS);
      var r := ExecCmd(h, data, IDENTITY, false, true, script);
      && r.status == Ok && r.polls == 2
      && script(1).answered[0] == 0 && SentAfter(h, IDENTITY, NO_COMMANDS)[0] == 1
      && Distance(HALFWAY[0], AnswerIsOne(0)) == 4
  {
  }

  // ----- the program

  class Rank {
    const nrCis: nat
    const nrDpus: nat
    const chipV14: bool
    var slices: seq<Slice>
    var color: bv8
    var faultDecode: bv8
    var faultCollide: bv8
    var data: Frame

    constructor (nrCis: nat, nrDpus: nat, chipV14: bool, slices: seq<Slice>)
      requires Host(nrCis, nrDpus, chipV14, slices, Context(0, 0, 0)).Valid()
      ensures State() == Host(nrCis, nrDpus, chipV14, slices, Context(0, 0, 0))
    {
      this.nrCis, this.nrDpus, this.chipV14, this.slices := nrCis, nrDpus, chipV14, slices;
      color, faultDecode, faultCollide := 0, 0, 0;
      data := seq(MAX_CIS, _ => CI_EMPTY);
    }

    function Registers(): Context
      reads this
    {
      Context(color, faultDecode, faultCollide)
    }

    function State(): Host
      reads this
    {
      Host(nrCis, nrDpus, chipV14, slices, Registers())
    }

    // invert_color
    method InvertColor(commands: Frame, ciMask: bv8)
      requires State().Valid() && ciMask == AddressedFrom(commands, nrCis)
      modifies this`color
      ensures Registers() == Inverted(old(State()), commands)
    {
      color := Flipped(color, ciMask);
    }

    // compute_ci_mask
    method ComputeCiMask(commands: Frame) returns (ciMask: bv8)
      requires nrCis <= MAX_CIS
      ensures ciMask == AddressedFrom(commands, nrCis)
    {
      hide Raised;
      ciMask := 0;
      for eachCi := 0 to nrCis
        invariant ciMask == AddressedFrom(commands, eachCi)
      {
        if !IsEmpty(commands[eachCi]) {
          ciMask := Raised(ciMask, eachCi);
        }
      }
    }

    // compute_masks; the flags of isDone are false on entry
    method ComputeMasks(commands: Frame, addSelectMask: bool, isDone: array<bool>)
      returns (status: Status, masks: Frame, expected: Frame, ciMask: bv8)
      requires State().Valid()
      requires isDone.Length == MAX_CIS && forall i :: 0 <= i < MAX_CIS ==> !isDone[i]
      modifies isDone
      ensures status == if addSelectMask && !Selectable(State(), commands) then InternalError else Ok
      ensures status == Ok ==>
        && Pending(masks, expected, Common(color, ciMask)) == PendingOf(State(), commands, addSelectMask)
        && ciMask == AddressedFrom(commands, nrCis)
        && Tracks(isDone[..], InitialProgress(State(), commands))
    {
      hide Raised, Common, IsEmpty, AllDpus, MaskOf, ExpectedOf, SelectedMask, Selected;
      hide MasksUpTo, ExpectedUpTo, AddressedFrom;
      FirstMasks(State(), commands, addSelectMask);
      ciMask := 0;
      masks, expected := NONE, NONE;
      for eachCi := 0 to nrCis
        invariant ciMask == AddressedFrom(commands, eachCi)
        invariant masks == MasksUpTo(State(), commands, addSelectMask, eachCi)
        invariant expected == ExpectedUpTo(State(), commands, addSelectMask, eachCi)
        invariant forall i :: 0 <= i < MAX_CIS ==>
          (isDone[i] <==> i < eachCi && IsEmpty(commands[i]))
        invariant addSelectMask ==> forall i: nat :: i < eachCi && Addressed(State(), commands, i) ==>
          !slices[i].target.TargetNone?
      {
        NextMasks(State(), commands, addSelectMask, eachCi);
        if !IsEmpty(commands[eachCi]) {
          ciMask := Raised(ciMask, eachCi);
          if addSelectMask && SelectedMask(slices[eachCi], nrDpus) == None {
            TargetSelected(slices[eachCi], nrDpus);
            assert Addressed(State(), commands, eachCi);
            return InternalError, masks, expected, ciMask;
          }
          TargetSelected(slices[eachCi], nrDpus);
        } else {
          isDone[eachCi] := true;
        }
        masks := masks[eachCi := MaskOf(commands[eachCi], addSelectMask, nrDpus)];
        expected := expected[eachCi := ExpectedOf(commands[eachCi], addSelectMask, Selected(State(), eachCi))];
      }
      status := Ok;
    }

    // determine_if_commands_are_finished
    method CommandsAreFinished(frame: Frame, p: Pending, isDone: array<bool>, ghost done: seq<Progress>)
      returns (finished: bool, ghost newDone: seq<Progress>)
      requires nrCis <= MAX_CIS && isDone.Length == MAX_CIS && Tracks(isDone[..], done)
      modifies this`faultDecode, this`faultCollide, isDone
      ensures Scan(finished, Registers(), newDone) == ScanFrom(old(Registers()), frame, p, done, 0, nrCis)
      ensures Tracks(isDone[..], newDone)
    {
      hide On, Inspect, Raised;
      newDone := done;
      for eachCi := 0 to nrCis
        invariant Tracks(isDone[..], newDone)
        invariant ScanFrom(Registers(), frame, p, newDone, eachCi, nrCis)
               == ScanFrom(old(Registers()), frame, p, done, 0, nrCis)
      {
        if !isDone[eachCi] {
          match Inspect(frame[eachCi], p.masks[eachCi], p.expected[eachCi], On(p.expectedColor, eachCi))
          case NotReady =>
            return false, newDone;
          case Ready(distance) =>
            isDone[eachCi] := true;
            newDone := newDone[eachCi := Accepted(distance)];
            match distance {
              case 0 =>
              case 1 => faultDecode := Raised(faultDecode, eachCi);
              case 2 => faultCollide := Raised(faultCollide, eachCi);
              case 3 =>
                faultCollide := Raised(faultCollide, eachCi);
                faultDecode := Raised(faultDecode, eachCi);
              case _ =>
                InspectedDistance(frame[eachCi], p.masks[eachCi], p.expected[eachCi], On(p.expectedColor, eachCi));
                return false, newDone;
            }
        }
      }
      finished := true;
    }

    // exec_cmd
    method Exec(commands: Frame, addSelectMask: bool, commitOk: bool, script: Script)
      returns (status: Status, ghost result: Polled)
      requires State().Valid()
      modifies this`color, this`faultDecode, this`faultCollide, this`data
      ensures result == ExecCmd(old(State()), old(data), commands, addSelectMask, commitOk, script)
      ensures status == result.status && Registers() == result.ctx && data == result.data
    {
      hide ScanFrom, PendingOf, Inverted, AddressedFrom, Selectable;
      var isDone := new bool[MAX_CIS](_ => false);
      ghost var done := InitialProgress(State(), commands);
      var masks, expected, ciMask;
      status, masks, expected, ciMask := ComputeMasks(commands, addSelectMask, isDone);
      if status != Ok {
        return status, Polled(status, Registers(), done, data, 0);
      }
      var p := Pending(masks, expected, Common(color, ciMask));
      InvertColor(commands, ciMask);
      if !commitOk {
        return DriverError, Polled(DriverError, Registers(), done, data, 0);
      }
      ghost var ctx, start := Registers(), data;
      var t := 0;
      var nrRetries := NB_RETRY_FOR_VALID_RESULT;
      var inProgress, timeout := true, false;
      while inProgress && !timeout
        invariant fresh(isDone) && isDone.Length == MAX_CIS && Tracks(isDone[..], done)
        invariant !timeout && inProgress ==>
          PollFrom(Registers(), p, done, data, script, t, nrRetries, nrCis)
          == PollFrom(ctx, p, InitialProgress(old(State()), commands), start, script, 0,
                      NB_RETRY_FOR_VALID_RESULT, nrCis)
        invariant timeout || !inProgress ==>
          Polled(if inProgress then Timeout else Ok, Registers(), done, data, t)
          == PollFrom(ctx, p, InitialProgress(old(State()), commands), start, script, 0,
                      NB_RETRY_FOR_VALID_RESULT, nrCis)
        decreases if timeout || !inProgress then 0 else nrRetries + 1
      {
        match script(t)
        case DriverFailure =>
          return DriverError, Polled(DriverError, Registers(), done, data, t + 1);
        case Read(frame, _) =>
          data := frame;
          t := t + 1;
          var finished;
          finished, done := CommandsAreFinished(frame, p, isDone, done);
          inProgress := !finished;
          timeout := nrRetries == 0;
          nrRetries := if nrRetries == 0 then 0 else nrRetries - 1;
      }
      if inProgress {
        return Timeout, Polled(Timeout, Registers(), done, data, t);
      }
      if !chipV14 {
        match script(t)
        case DriverFailure =>
          return DriverError, Polled(DriverError, Registers(), done, data, t + 1);
        case Read(frame, _) =>
          data := frame;
          t := t + 1;
      }
      return Ok, Polled(Ok, Registers(), done, data, t);
    }

    // ci_exec_reset_cmd
    method ExecReset(commands: Frame, commitOk: bool, script: Script, resetDuration: nat) returns (status: Status)
      requires State().Valid()
      modifies this`color, this`faultDecode, this`faultCollide, this`slices
      ensures Outcome(status, State()) == ResetCmd(old(State()), commands, commitOk, script, resetDuration)
    {
      hide AddressedFrom, Inverted, ResetSlice, Without;
      var resetMask := ComputeCiMask(commands);
      InvertColor(commands, resetMask);
      if !commitOk {
        return DriverError;
      }
      for eachIter := 0 to resetDuration
        invariant !FailsWithin(script, eachIter)
      {
        if script(eachIter).DriverFailure? {
          return DriverError;
        }
      }
      color := Without(color, resetMask);
      faultCollide := Without(faultCollide, resetMask);
      faultDecode := Without(faultDecode, resetMask);
      ghost var registers := Registers();
      for eachCi := 0 to MAX_CIS
        invariant |slices| == MAX_CIS && Registers() == registers
        invariant forall i :: 0 <= i < eachCi ==> slices[i] == ResetSlice(nrDpus)
      {
        slices := slices[eachCi := ResetSlice(nrDpus)];
      }
      assert slices == ResetSlices(nrDpus);
      status := Ok;
    }

    // The first loop of ci_get_color.
    method PollUntilSettled(script: Script) returns (waited: Waited)
      requires nrCis <= MAX_CIS
      ensures waited == WaitSettled(script, 0, TIMEOUT_COLOR, false, nrCis)
    {
      hide IsNop, Settled;
      var timeout, t := TIMEOUT_COLOR, 0;
      var dummyCommandIsNeeded := false;
      while true
        invariant 0 < timeout
        invariant WaitSettled(script, t, timeout, dummyCommandIsNeeded, nrCis)
               == WaitSettled(script, 0, TIMEOUT_COLOR, false, nrCis)
        decreases timeout
      {
        if script(t).DriverFailure? {
          return Waited(DriverError, NONE, dummyCommandIsNeeded, t + 1);
        }
        var frame := script(t).frame;
        timeout := timeout - 1;
        var resultIsStable := true;
        ghost var sawNop := dummyCommandIsNeeded;
        for eachSlice := 0 to nrCis
          invariant resultIsStable <==> forall i: nat :: i < eachSlice ==> Settled(frame[i])
          invariant dummyCommandIsNeeded <==> sawNop || exists i: nat :: i < eachSlice && IsNop(frame[i])
        {
          if IsNop(frame[eachSlice]) {
            dummyCommandIsNeeded := true;
            NopIsSettled(frame[eachSlice]);
          } else {
            resultIsStable := resultIsStable && Settled(frame[eachSlice]);
          }
        }
        assert resultIsStable <==> AllSettled(frame, nrCis);
        assert dummyCommandIsNeeded <==> sawNop || AnyNop(frame, nrCis);
        t := t + 1;
        if timeout == 0 {
          return Waited(Timeout, frame, dummyCommandIsNeeded, t);
        }
        if resultIsStable {
          return Waited(Ok, frame, dummyCommandIsNeeded, t);
        }
      }
    }

    // The loop of ci_get_color after its dummy command.
    method PollUntilCleared(script: Script) returns (waited: Waited)
      requires nrCis <= MAX_CIS
      ensures waited == WaitCleared(script, 0, TIMEOUT_COLOR, nrCis)
    {
      hide CommandByte;
      var timeout, t := TIMEOUT_COLOR, 0;
      while true
        invariant 0 < timeout
        invariant WaitCleared(script, t, timeout, nrCis) == WaitCleared(script, 0, TIMEOUT_COLOR, nrCis)
        decreases timeout
      {
        if script(t).DriverFailure? {
          return Waited(DriverError, NONE, false, t + 1);
        }
        var frame := script(t).frame;
        timeout := timeout - 1;
        var resultIsStable := true;
        for eachSlice := 0 to nrCis
          invariant resultIsStable <==> forall i: nat :: i < eachSlice ==> CommandByte(frame[i]) == 0
        {
          resultIsStable := resultIsStable && CommandByte(frame[eachSlice]) == 0;
        }
        assert resultIsStable <==> AllCleared(frame, nrCis);
        t := t + 1;
        if timeout == 0 {
          return Waited(Timeout, frame, false, t);
        }
        if resultIsStable {
          return Waited(Ok, frame, false, t);
        }
      }
    }

    // The commands that ci_get_color sends, made in place of the packets it read.
    method DummyFrom(frame: Frame) returns (commands: Frame)
      requires nrCis <= MAX_CIS
      ensures commands == DummyCommands(frame, nrCis)
    {
      hide IsNop;
      commands := frame;
      for eachSlice := 0 to nrCis
        invariant forall i :: eachSlice <= i < MAX_CIS ==> commands[i] == frame[i]
        invariant forall i :: 0 <= i < eachSlice ==> commands[i] == if IsNop(frame[i]) then CI_IDENTITY else CI_EMPTY
      {
        if IsNop(commands[eachSlice]) {
          commands := commands[eachSlice := CI_IDENTITY];
        } else {
          commands := commands[eachSlice := CI_EMPTY];
        }
      }
    }

    // ci_get_color, with the commands that it commits
    method LearnColors(before: Script, commitOk: bool, after: Script) returns (status: Status, commands: Frame)
      requires State().Valid()
      modifies this`color
      ensures Learnt(status, State(), commands) == GetColor(old(State()), before, commitOk, after, TIMEOUT_COLOR)
    {
      hide WaitSettled, WaitCleared, WithColor, Popcount, ColorByte, DummyCommands;
      commands := NONE;
      var waited := PollUntilSettled(before);
      if waited.status != Ok {
        return waited.status, commands;
      }
      if before(waited.polls).DriverFailure? {
        return DriverError, commands;
      }
      var frame := before(waited.polls).frame;
      if waited.sawNop {
        commands := DummyFrom(frame);
        if !commitOk {
          return DriverError, commands;
        }
        var cleared := PollUntilCleared(after);
        if cleared.status != Ok {
          return cleared.status, commands;
        }
        frame := cleared.frame;
      }
      for eachSlice := 0 to nrCis
        invariant color == LearntColors(old(color), frame, eachSlice)
      {
        color := WithColor(color, eachSlice, Popcount(ColorByte(frame[eachSlice])) <= 3);
      }
      status := Ok;
    }
  }

  lemma NopIsSettled(packet: bv64)
    ensures IsNop(packet) ==> Settled(packet)
  {
  }

  // The flags of the program against the progress they stand for.
  ghost predicate Tracks(isDone: seq<bool>, done: seq<Progress>) {
    |isDone| == |done| == MAX_CIS && forall i :: 0 <= i < MAX_CIS ==> (isDone[i] <==> !done[i].Waiting?)
  }

  lemma FirstMasks(h: Host, commands: Frame, addSelectMask: bool)
    requires h.Valid()
    ensures AddressedFrom(commands, 0) == 0
    ensures MasksUpTo(h, commands, addSelectMask, 0) == ExpectedUpTo(h, commands, addSelectMask, 0) == NONE
  {
  }

  lemma NextMasks(h: Host, commands: Frame, addSelectMask: bool, ci: nat)
    requires h.Valid() && ci < MAX_CIS
    ensures AddressedFrom(commands, ci + 1)
         == if IsEmpty(commands[ci]) then AddressedFrom(commands, ci) else Raised(AddressedFrom(commands, ci), ci)
    ensures MasksUpTo(h, commands, addSelectMask, ci + 1)
         == MasksUpTo(h, commands, addSelectMask, ci)[ci := MaskOf(commands[ci], addSelectMask, h.nrDpus)]
    ensures ExpectedUpTo(h, commands, addSelectMask, ci + 1)
         == ExpectedUpTo(h, commands, addSelectMask, ci)
              [ci := ExpectedOf(commands[ci], addSelectMask, Selected(h, ci))]
  {
    hide Raised, IsEmpty, MaskOf, ExpectedOf, Selected;
  }

  lemma TargetSelected(slice: Slice, nrDpus: nat)
    requires ValidSlice(slice, nrDpus)
    ensures SelectedMask(slice, nrDpus) == None <==> slice.target.TargetNone?
  {
  }

  lemma InspectedDistance(result: bv64, mask: bv64, expected: bv64, one: bool)
    ensures var v := Inspect(result, mask, expected, one); v.Ready? ==> v.distance <= 4
  {
  }
}
