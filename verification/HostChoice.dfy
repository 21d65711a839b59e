/**
 Which host a placement goes to, in numbers of the ledger: a host busier in one dimension than another
 is in all of them is never chosen while the other is eligible; benchmark and name decide between
 equally busy ones (packages/backend/convex/attemptScheduler.ts).
 */
module HostChoice {
  import opened Common
  import opened Placement
  import opened Capacity

  // ---------------------------------------------------------------------------------------------
  // Shares, as a part and a whole

  /** What is taken: reserved CPUs and memory where the host has a limit, and guests or used slots. */
  function Part(l: Ledger, id: MachineId, m: Machine, d: Dimension): nat {
    match d
    case Vcpus => if m.cpus.Some? then ReservedOn(l, id).vcpus else 0
    case Memory => if m.memoryMiB.Some? then ReservedOn(l, id).memoryMiB else 0
    case Guests => if ReservedOn(l, id).count > UsedOn(l, id) then ReservedOn(l, id).count else UsedOn(l, id)
  }

  /** What there is: nine tenths of a host, or all of it for work at least its size. */
  function Whole(m: Machine, c: Contract, d: Dimension): nat {
    match d
    case Vcpus => if m.cpus.None? then 1 else if c.vcpus >= m.cpus.value then m.cpus.value else 9 * m.cpus.value / 10
    case Memory =>
      if m.memoryMiB.None? then 1
      else if c.memoryMiB >= m.memoryMiB.value then m.memoryMiB.value else 9 * m.memoryMiB.value / 10
    case Guests => m.maxSlots
  }

  lemma WholeIsPositive(m: Machine, c: Contract, d: Dimension)
    ensures d != Guests ==> Whole(m, c, d) > 0
  {
  }

  function Share(l: Ledger, id: MachineId, m: Machine, c: Contract, d: Dimension): real {
    if Whole(m, c, d) == 0 then 0.0 else Part(l, id, m, d) as real / Whole(m, c, d) as real
  }

  /** Pressure is the largest of the three shares. */
  lemma PressureIsLargestShare(l: Ledger, id: MachineId, m: Machine, c: Contract)
    ensures forall d :: Share(l, id, m, c, d) <= Pressure(l, id, m, c)
    ensures exists d :: Share(l, id, m, c, d) == Pressure(l, id, m, c)
  {
    WholeIsPositive(m, c, Vcpus);
    WholeIsPositive(m, c, Memory);
    assert Share(l, id, m, c, Vcpus) ==
           if m.cpus.None? then 0.0 else Ratio(ReservedOn(l, id).vcpus, Usable(m.cpus.value, c.vcpus));
    assert Share(l, id, m, c, Memory) ==
           if m.memoryMiB.None? then 0.0
           else Ratio(ReservedOn(l, id).memoryMiB, Usable(m.memoryMiB.value, c.memoryMiB));
    assert Share(l, id, m, c, Guests) == Ratio(Occupied(l, id), m.maxSlots);
  }

  // ---------------------------------------------------------------------------------------------
  // Who may take an item

  /** The Worker is ready for exactly this work, has the Profile's labels, and was checked and heard of lately. */
  ghost predicate MayRun(f: Fleet, c: Contract, r: Readiness) {
    && r.ready && r.admitted && r.machineId in f.machines
    && r.executor == c.executor && r.imageRelease == c.imageRelease
    && r.checkedAt > f.now - 43_200_000 && f.machines[r.machineId].lastSeen > f.now - 120_000
    && forall i :: 0 <= i < |f.profiles| && f.profiles[i].contract.profile == c.profile ==>
         forall tag :: tag in f.profiles[i].workerLabels ==> tag in f.machines[r.machineId].labels
  }

  /** What the item would add: nothing if a warm guest of its Profile is idle there. */
  function Adds(l: Ledger, id: MachineId, c: Contract, d: Dimension): nat {
    if WarmKey(id, c.profile) in l.idle && l.idle[WarmKey(id, c.profile)] > 0 then 0
    else
      match d
      case Vcpus => c.vcpus
      case Memory => c.memoryMiB
      case Guests => 1
  }

  /** The item fits every limit of the host, and 8 GiB of its pool are free for each guest it would have. */
  predicate RoomFor(l: Ledger, id: MachineId, m: Machine, c: Contract, poolFreeMiB: Option<nat>) {
    var guests := Part(l, id, m, Guests) + Adds(l, id, c, Guests);
    && guests <= m.maxSlots
    && (m.cpus.Some? ==> Part(l, id, m, Vcpus) + Adds(l, id, c, Vcpus) <= Whole(m, c, Vcpus))
    && (m.memoryMiB.Some? ==> Part(l, id, m, Memory) + Adds(l, id, c, Memory) <= Whole(m, c, Memory))
    && (poolFreeMiB.Some? ==> 8_192 * guests <= poolFreeMiB.value)
  }

  lemma LabelsAreThose(f: Fleet, c: Contract, labels: set<string>)
    requires DistinctNames(f.profiles)
    ensures var p := ActiveProfile(f, c.profile);
            (forall i :: 0 <= i < |f.profiles| && f.profiles[i].contract.profile == c.profile ==>
               forall tag :: tag in f.profiles[i].workerLabels ==> tag in labels) <==>
            (if p.Some? then p.value.workerLabels else {}) <= labels
  {
    var p := ActiveProfile(f, c.profile);
    if p.Some? {
      var i :| 0 <= i < |f.profiles| && f.profiles[i] == p.value;
      forall j | 0 <= j < |f.profiles| && f.profiles[j].contract.profile == c.profile ensures j == i {
      }
    }
  }

  lemma RoomIff(l: Ledger, id: MachineId, m: Machine, c: Contract, poolFreeMiB: Option<nat>)
    ensures HasRoom(l, id, m, c, poolFreeMiB) <==> RoomFor(l, id, m, c, poolFreeMiB)
  {
  }

  /** A candidate is eligible exactly if it may run the item and has room for it. */
  lemma EligibleIff(f: Fleet, l: Ledger, c: Contract, r: Readiness)
    requires DistinctNames(f.profiles)
    ensures Eligible(f, l, c, r) <==>
            MayRun(f, c, r) && RoomFor(l, r.machineId, f.machines[r.machineId], c, r.poolFreeMiB)
  {
    if r.machineId in f.machines {
      LabelsAreThose(f, c, f.machines[r.machineId].labels);
      RoomIff(l, r.machineId, f.machines[r.machineId], c, r.poolFreeMiB);
    }
  }

  /** An item is placed exactly if some candidate may run it and has room, and then on such a candidate's host. */
  lemma PlacedIff(f: Fleet, l: Ledger, c: Contract)
    requires DistinctNames(f.profiles)
    ensures Pick(f, l, c).Some? <==>
              exists r :: r in Candidates(f, c) && MayRun(f, c, r)
                          && RoomFor(l, r.machineId, f.machines[r.machineId], c, r.poolFreeMiB)
    ensures Pick(f, l, c).Some? ==>
              exists r :: r in Candidates(f, c) && r.machineId == Pick(f, l, c).value && MayRun(f, c, r)
                          && RoomFor(l, r.machineId, f.machines[r.machineId], c, r.poolFreeMiB)
  {
    var rs := Candidates(f, c);
    forall r ensures Eligible(f, l, c, r) <==>
                     MayRun(f, c, r) && RoomFor(l, r.machineId, f.machines[r.machineId], c, r.poolFreeMiB)
    {
      EligibleIff(f, l, c, r);
    }
    var best := Choose(f, l, c, rs);
    if best.Some? {
      assert best.value in rs && Eligible(f, l, c, best.value);
    }
  }

  // ---------------------------------------------------------------------------------------------
  // The busier host loses

  /** The first share exceeds the second, without dividing. */
  predicate More(part: nat, whole: nat, part': nat, whole': nat) {
    part * whole' > part' * whole
  }

  /** In one dimension the first host is busier than the second is in any. */
  ghost predicate Busier(l: Ledger, a: MachineId, ma: Machine, b: MachineId, mb: Machine, c: Contract) {
    exists d :: forall d' :: More(Part(l, a, ma, d), Whole(ma, c, d), Part(l, b, mb, d'), Whole(mb, c, d'))
  }

  lemma MoreHasWhole(part: nat, whole: nat, part': nat, whole': nat)
    requires More(part, whole, part', whole') && (whole > 0 || part == 0)
    ensures whole > 0 && whole' > 0
  {
    assert part' * whole >= 0;
  }

  /** A host that can take the work has slots for what it holds. */
  lemma EligibleWithinSlots(f: Fleet, l: Ledger, c: Contract, r: Readiness)
    requires Eligible(f, l, c, r)
    ensures Part(l, r.machineId, f.machines[r.machineId], Guests) <= f.machines[r.machineId].maxSlots
  {
  }

  lemma HigherShare(l: Ledger, a: MachineId, ma: Machine, b: MachineId, mb: Machine, c: Contract, d: Dimension,
                    d': Dimension)
    requires Part(l, a, ma, Guests) <= ma.maxSlots
    requires More(Part(l, a, ma, d), Whole(ma, c, d), Part(l, b, mb, d'), Whole(mb, c, d'))
    ensures Share(l, a, ma, c, d) > Share(l, b, mb, c, d')
  {
    WholeIsPositive(ma, c, d);
    MoreHasWhole(Part(l, a, ma, d), Whole(ma, c, d), Part(l, b, mb, d'), Whole(mb, c, d'));
    FractionOrder(Part(l, a, ma, d), Whole(ma, c, d), Part(l, b, mb, d'), Whole(mb, c, d'));
  }

  lemma BusierHasMorePressure(l: Ledger, a: MachineId, ma: Machine, b: MachineId, mb: Machine, c: Contract)
    requires Part(l, a, ma, Guests) <= ma.maxSlots && Busier(l, a, ma, b, mb, c)
    ensures Pressure(l, a, ma, c) > Pressure(l, b, mb, c)
  {
    var d :| forall d' :: More(Part(l, a, ma, d), Whole(ma, c, d), Part(l, b, mb, d'), Whole(mb, c, d'));
    PressureIsLargestShare(l, a, ma, c);
    PressureIsLargestShare(l, b, mb, c);
    var d' :| Share(l, b, mb, c, d') == Pressure(l, b, mb, c);
    HigherShare(l, a, ma, b, mb, c, d, d');
  }

  /** A host busier in one dimension than an eligible one is in any is not the choice. */
  lemma BusierIsNotPicked(f: Fleet, l: Ledger, c: Contract, a: MachineId, r: Readiness)
    requires a in f.machines && r in Candidates(f, c) && Eligible(f, l, c, r)
    requires Busier(l, a, f.machines[a], r.machineId, f.machines[r.machineId], c)
    ensures Pick(f, l, c) != Some(a)
  {
    var rs := Candidates(f, c);
    ChoiceIsBest(f, l, c, rs);
    var best := Choose(f, l, c, rs);
    if best.Some? && best.value.machineId == a {
      EligibleWithinSlots(f, l, c, best.value);
      BusierHasMorePressure(l, a, f.machines[a], r.machineId, f.machines[r.machineId], c);
    }
  }

  /**
   In a pass, no item goes to a host that is then busier in one dimension than some host it could go to
   is in any: work spreads before it fills.
   */
  lemma PassSpreads(f: Fleet, l: Ledger, cs: seq<Contract>, i: nat, a: MachineId, r: Readiness)
    requires i < |cs| && Slot(f, l, cs, i) == Some(a) && a in f.machines
    requires r in Candidates(f, cs[i]) && Eligible(f, Placed(f, l, cs[..i]), cs[i], r)
    ensures !Busier(Placed(f, l, cs[..i]), a, f.machines[a], r.machineId, f.machines[r.machineId], cs[i])
  {
    if Busier(Placed(f, l, cs[..i]), a, f.machines[a], r.machineId, f.machines[r.machineId], cs[i]) {
      BusierIsNotPicked(f, Placed(f, l, cs[..i]), cs[i], a, r);
    }
  }

  // ---------------------------------------------------------------------------------------------
  // Between equally busy hosts

  /** The measurement is there and less than a week old. */
  predicate Measured(m: Machine, now: int) {
    m.benchmark.Some? && now - m.benchmark.value.measuredAt < 604_800_000
  }

  /** What counts for a policy: its own score, fifty for a host without a recent measurement. */
  predicate Scores(m: Machine, policy: FitPolicy, now: int, score: int) {
    if !Measured(m, now) then score == 50
    else
      && (policy == Cpu ==> score == m.benchmark.value.cpu)
      && (policy == Network ==> score == m.benchmark.value.network)
      && (policy == Io ==> score == m.benchmark.value.disk)
      && (policy == Balanced ==> score == m.benchmark.value.balanced)
  }

  /** The policy of the Profile that is active under the work's name, balanced without one. */
  ghost predicate Policy(f: Fleet, c: Contract, policy: FitPolicy) {
    if exists i :: 0 <= i < |f.profiles| && f.profiles[i].contract.profile == c.profile then
      exists i :: 0 <= i < |f.profiles| && f.profiles[i].contract.profile == c.profile
                  && f.profiles[i].fitPolicy == policy
    else policy == Balanced
  }

  lemma PolicyIsRead(f: Fleet, c: Contract, policy: FitPolicy)
    requires DistinctNames(f.profiles) && Policy(f, c, policy)
    ensures var p := ActiveProfile(f, c.profile); policy == if p.Some? then p.value.fitPolicy else Balanced
  {
    var p := ActiveProfile(f, c.profile);
    if p.Some? {
      var i :| 0 <= i < |f.profiles| && f.profiles[i] == p.value;
      var j :| 0 <= j < |f.profiles| && f.profiles[j].contract.profile == c.profile
               && f.profiles[j].fitPolicy == policy;
      assert i == j;
    }
  }

  /**
   Between hosts under equal pressure the one with the higher score for the Profile's policy wins, and
   between equal scores the first by name.
   */
  lemma TiesGoToTheFaster(f: Fleet, l: Ledger, c: Contract, a: MachineId, r: Readiness, policy: FitPolicy,
                          score: int, score': int)
    requires DistinctNames(f.profiles) && Policy(f, c, policy)
    requires Pick(f, l, c) == Some(a) && r in Candidates(f, c) && Eligible(f, l, c, r)
    requires a in f.machines && Scores(f.machines[a], policy, f.now, score)
    requires Scores(f.machines[r.machineId], policy, f.now, score')
    requires Pressure(l, a, f.machines[a], c) == Pressure(l, r.machineId, f.machines[r.machineId], c)
    ensures score > score' || (score == score' && f.machines[a].nameRank <= f.machines[r.machineId].nameRank)
  {
    PolicyIsRead(f, c, policy);
    ChoiceIsBest(f, l, c, Candidates(f, c));
    assert Score(f.machines[a], policy, f.now) == score;
    assert Score(f.machines[r.machineId], policy, f.now) == score';
  }
}
