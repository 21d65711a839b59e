/**
 The Attempt scheduler (packages/backend/convex/attemptScheduler.ts): a snapshot of live work, warm
 guests and slots, and the pass that places the queue on it, consuming the snapshot as it goes.

 `Fleet` is what a pass only reads, `Ledger` what it consumes. Readiness admission is a flag of the
 readiness row, a Worker's place in the locale order of names is a number, and 0.9 is 9/10.
 */
module Placement {
  import opened Common

  const READINESS_STALE_AFTER_MS := 12 * 60 * 60000
  const WORKER_OFFLINE_AFTER_MS := 2 * 60000
  const SNAPSHOT_RESERVE_MIB := 8 * 1024
  const NEUTRAL_BENCHMARK_SCORE := 50
  const BENCHMARK_STALE_AFTER_MS := 7 * 24 * 60 * 60000

  /** Ids and names are only compared for equality, so numbers stand for them. */
  type MachineId = nat
  type ProfileName = nat
  type Positive = n: int | 0 < n witness 1

  datatype FitPolicy = Balanced | Cpu | Network | Io

  datatype Benchmark = Benchmark(measuredAt: int, balanced: int, cpu: int, network: int, disk: int)

  datatype Machine = Machine(
    nameRank: int, cpus: Option<Positive>, memoryMiB: Option<Positive>, maxSlots: nat, usedSlots: nat,
    labels: set<string>, lastSeen: int, benchmark: Option<Benchmark>)

  /** The part of a piece of work that decides where it can run. */
  datatype Contract = Contract(profile: ProfileName, executor: string, imageRelease: string, vcpus: Positive,
                               memoryMiB: Positive)

  datatype Profile = Profile(contract: Contract, fitPolicy: FitPolicy, workerLabels: set<string>, warmPool: nat)

  datatype WarmPool = WarmPool(target: nat, parked: nat, claimed: nat)

  datatype Readiness = Readiness(
    machineId: MachineId, profile: ProfileName, ready: bool, executor: string, imageRelease: string,
    vcpus: Option<Positive>, memoryMiB: Option<Positive>, checkedAt: int, admitted: bool,
    poolFreeMiB: Option<nat>, warmPool: Option<WarmPool>)

  datatype Work = Work(contract: Contract, createdAt: int, machineId: Option<MachineId>)

  datatype Dimension = Vcpus | Memory | Guests

  /** vCPUs, memory and guests, as a reservation or a demand. */
  datatype Size = Size(vcpus: nat, memoryMiB: nat, count: nat) {
    function Plus(other: Size): Size {
      Size(vcpus + other.vcpus, memoryMiB + other.memoryMiB, count + other.count)
    }

    function Get(d: Dimension): nat {
      match d
      case Vcpus => vcpus
      case Memory => memoryMiB
      case Guests => count
    }

    predicate AtMost(other: Size) {
      vcpus <= other.vcpus && memoryMiB <= other.memoryMiB && count <= other.count
    }
  }

  const NOTHING := Size(0, 0, 0)

  function SizeOf(c: Contract): Size {
    Size(c.vcpus, c.memoryMiB, 1)
  }

  function Times(n: nat, s: Size): Size {
    Size(n * s.vcpus, n * s.memoryMiB, n * s.count)
  }

  datatype Fleet = Fleet(now: int, machines: map<MachineId, Machine>, profiles: seq<Profile>,
                         ready: map<ProfileName, seq<Readiness>>)

  /** `${machineId}:${profile}`. */
  datatype WarmKey = WarmKey(machine: MachineId, profile: ProfileName)

  datatype Ledger = Ledger(reserved: map<MachineId, Size>, idle: map<WarmKey, nat>, used: map<MachineId, nat>)

  // ---------------------------------------------------------------------------------------------
  // Lookups, with the defaults the source gives them

  function ReservedOn(l: Ledger, m: MachineId): Size {
    if m in l.reserved then l.reserved[m] else NOTHING
  }

  function IdleOn(l: Ledger, m: MachineId, p: ProfileName): nat {
    if WarmKey(m, p) in l.idle then l.idle[WarmKey(m, p)] else 0
  }

  /** A loaded ledger has an entry for every machine, so the default never shows. */
  function UsedOn(l: Ledger, m: MachineId): nat {
    if m in l.used then l.used[m] else 0
  }

  function ActiveProfile(f: Fleet, p: ProfileName): Option<Profile> {
    Lookup(f.profiles, p)
  }

  function Lookup(profiles: seq<Profile>, p: ProfileName): (r: Option<Profile>)
    ensures r.Some? ==> r.value in profiles && r.value.contract.profile == p
    ensures r.None? ==> forall i :: 0 <= i < |profiles| ==> profiles[i].contract.profile != p
  {
    if profiles == [] then None
    else
      var n := |profiles| - 1;
      if profiles[n].contract.profile == p then Some(profiles[n]) else Lookup(profiles[..n], p)
  }

  predicate MatchesActiveProfile(f: Fleet, c: Contract) {
    ActiveProfile(f, c.profile).Some? && ActiveProfile(f, c.profile).value.contract == c
  }

  // ---------------------------------------------------------------------------------------------
  // Admission

  predicate IsSchedulable(f: Fleet, c: Contract, r: Readiness) {
    var labels := if ActiveProfile(f, c.profile).Some? then ActiveProfile(f, c.profile).value.workerLabels else {};
    && r.ready && r.machineId in f.machines
    && labels <= f.machines[r.machineId].labels
    && r.executor == c.executor && r.imageRelease == c.imageRelease
    && f.now - r.checkedAt < READINESS_STALE_AFTER_MS
    && r.admitted
    && f.now - f.machines[r.machineId].lastSeen < WORKER_OFFLINE_AFTER_MS
  }

  /** Nine tenths of a host, or all of it for a demand at least its size. */
  function Usable(capacity: Positive, want: Positive): nat {
    if capacity <= want then capacity else capacity * 9 / 10
  }

  predicate Fits(demand: nat, capacity: Option<Positive>, want: Positive) {
    capacity.Some? ==> demand <= Usable(capacity.value, want)
  }

  predicate HasHeadroom(poolFreeMiB: Option<nat>, guests: nat) {
    poolFreeMiB.Some? ==> poolFreeMiB.value >= SNAPSHOT_RESERVE_MIB * guests
  }

  function Max(a: nat, b: nat): nat {
    if a >= b then a else b
  }

  function Occupied(l: Ledger, m: MachineId): nat {
    Max(ReservedOn(l, m).count, UsedOn(l, m))
  }

  predicate UsesWarm(l: Ledger, m: MachineId, c: Contract) {
    IdleOn(l, m, c.profile) > 0
  }

  /** The machine's reservation with the contract placed on it: a warm guest is already in it. */
  function Grown(l: Ledger, m: MachineId, c: Contract): Size {
    if UsesWarm(l, m, c) then ReservedOn(l, m) else ReservedOn(l, m).Plus(SizeOf(c))
  }

  /** The guests it would count then. */
  function GuestsWith(l: Ledger, m: MachineId, c: Contract): nat {
    if UsesWarm(l, m, c) then Occupied(l, m) else Occupied(l, m) + 1
  }

  predicate HasRoom(l: Ledger, id: MachineId, m: Machine, c: Contract, poolFreeMiB: Option<nat>) {
    && GuestsWith(l, id, c) <= m.maxSlots
    && Fits(Grown(l, id, c).vcpus, m.cpus, c.vcpus)
    && Fits(Grown(l, id, c).memoryMiB, m.memoryMiB, c.memoryMiB)
    && HasHeadroom(poolFreeMiB, GuestsWith(l, id, c))
  }

  predicate Eligible(f: Fleet, l: Ledger, c: Contract, r: Readiness) {
    IsSchedulable(f, c, r) && HasRoom(l, r.machineId, f.machines[r.machineId], c, r.poolFreeMiB)
  }

  // ---------------------------------------------------------------------------------------------
  // Choice

  function Ratio(part: nat, whole: nat): real {
    if whole == 0 then 0.0 else part as real / whole as real
  }

  function MaxReal(a: real, b: real): (r: real)
    ensures r >= a && r >= b && (r == a || r == b)
  {
    if a >= b then a else b
  }

  function Pressure(l: Ledger, id: MachineId, m: Machine, c: Contract): real {
    var reserved := ReservedOn(l, id);
    MaxReal(
      MaxReal(
        if m.cpus.None? then 0.0 else Ratio(reserved.vcpus, Usable(m.cpus.value, c.vcpus)),
        if m.memoryMiB.None? then 0.0 else Ratio(reserved.memoryMiB, Usable(m.memoryMiB.value, c.memoryMiB))),
      Ratio(Occupied(l, id), m.maxSlots))
  }

  function Score(m: Machine, policy: FitPolicy, now: int): int {
    if m.benchmark.None? || now - m.benchmark.value.measuredAt >= BENCHMARK_STALE_AFTER_MS
    then NEUTRAL_BENCHMARK_SCORE
    else
      match policy
      case Cpu => m.benchmark.value.cpu
      case Network => m.benchmark.value.network
      case Io => m.benchmark.value.disk
      case Balanced => m.benchmark.value.balanced
  }

  datatype Rank = Rank(pressure: real, score: int, name: int) {
    /** Lowest pressure, then highest score, then name. */
    predicate Before(other: Rank) {
      || pressure < other.pressure
      || (pressure == other.pressure && score > other.score)
      || (pressure == other.pressure && score == other.score && name < other.name)
    }
  }

  function RankOf(f: Fleet, l: Ledger, c: Contract, r: Readiness): Rank
    requires r.machineId in f.machines
  {
    var m := f.machines[r.machineId];
    var policy := if ActiveProfile(f, c.profile).Some? then ActiveProfile(f, c.profile).value.fitPolicy else Balanced;
    Rank(Pressure(l, r.machineId, m, c), Score(m, policy, f.now), m.nameRank)
  }

  /** The head of the sorted candidates: the earliest of the best. */
  function Choose(f: Fleet, l: Ledger, c: Contract, rs: seq<Readiness>): (best: Option<Readiness>)
    ensures best.Some? ==> best.value in rs && Eligible(f, l, c, best.value)
    ensures best.None? ==> forall i :: 0 <= i < |rs| ==> !Eligible(f, l, c, rs[i])
  {
    if rs == [] then None
    else
      var n := |rs| - 1;
      var best := Choose(f, l, c, rs[..n]);
      if !Eligible(f, l, c, rs[n]) then best
      else if best.None? || RankOf(f, l, c, rs[n]).Before(RankOf(f, l, c, best.value)) then Some(rs[n])
      else best
  }

  /** No eligible Worker ranks before the chosen one. */
  lemma {:induction false} ChoiceIsBest(f: Fleet, l: Ledger, c: Contract, rs: seq<Readiness>)
    ensures Choose(f, l, c, rs).Some? ==>
              forall i :: 0 <= i < |rs| && Eligible(f, l, c, rs[i]) ==>
                !RankOf(f, l, c, rs[i]).Before(RankOf(f, l, c, Choose(f, l, c, rs).value))
  {
    if rs != [] {
      var n := |rs| - 1;
      ChoiceIsBest(f, l, c, rs[..n]);
      var before, after := Choose(f, l, c, rs[..n]), Choose(f, l, c, rs);
      if after.Some? {
        forall i | 0 <= i < |rs| && Eligible(f, l, c, rs[i])
          ensures !RankOf(f, l, c, rs[i]).Before(RankOf(f, l, c, after.value))
        {
          if i < n {
            assert rs[..n][i] == rs[i];
          }
        }
      }
    }
  }

  // ---------------------------------------------------------------------------------------------
  // The pass

  function TakeWarm(idle: map<WarmKey, nat>, key: WarmKey): map<WarmKey, nat>
    requires key in idle && idle[key] > 0
  {
    idle[key := idle[key] - 1]
  }

  function Commit(l: Ledger, m: MachineId, c: Contract): Ledger {
    Ledger(
      l.reserved[m := Grown(l, m, c)],
      if UsesWarm(l, m, c) then TakeWarm(l.idle, WarmKey(m, c.profile)) else l.idle,
      l.used[m := UsedOn(l, m) + 1])
  }

  function Candidates(f: Fleet, c: Contract): seq<Readiness> {
    if c.profile in f.ready then f.ready[c.profile] else []
  }

  function Pick(f: Fleet, l: Ledger, c: Contract): Option<MachineId> {
    var r := Choose(f, l, c, Candidates(f, c));
    if r.Some? then Some(r.value.machineId) else None
  }

  function After(f: Fleet, l: Ledger, c: Contract): Ledger {
    var m := Pick(f, l, c);
    if m.Some? then Commit(l, m.value, c) else l
  }

  /** The ledger once the contracts have been placed in order. */
  function Placed(f: Fleet, l: Ledger, cs: seq<Contract>): Ledger {
    if cs == [] then l else After(f, Placed(f, l, cs[..|cs| - 1]), cs[|cs| - 1])
  }

  /** Where the `i`-th contract went: decided by the ledger the ones before it left. */
  function Slot(f: Fleet, l: Ledger, cs: seq<Contract>, i: nat): Option<MachineId>
    requires i < |cs|
  {
    Pick(f, Placed(f, l, cs[..i]), cs[i])
  }

  function Slots(f: Fleet, l: Ledger, cs: seq<Contract>): (ms: seq<Option<MachineId>>)
    ensures |ms| == |cs| && forall i :: 0 <= i < |cs| ==> ms[i] == Slot(f, l, cs, i)
  {
    seq(|cs|, i requires 0 <= i < |cs| => Slot(f, l, cs, i))
  }

  // ---------------------------------------------------------------------------------------------
  // Eligibility only gets harder

  ghost predicate Harder(l: Ledger, l': Ledger) {
    && (forall m :: ReservedOn(l, m).AtMost(ReservedOn(l', m)) && UsedOn(l, m) <= UsedOn(l', m))
    && (forall m, p :: IdleOn(l', m, p) <= IdleOn(l, m, p))
  }

  lemma CommitIsHarder(l: Ledger, m: MachineId, c: Contract)
    ensures Harder(l, Commit(l, m, c))
  {
    var l' := Commit(l, m, c);
    forall m', p ensures IdleOn(l', m', p) <= IdleOn(l, m', p) {
      if m' == m && p == c.profile {
        IdleHere(l, m, c);
      } else {
        IdleElsewhere(l, m, c, m', p);
      }
    }
  }

  lemma IdleElsewhere(l: Ledger, m: MachineId, c: Contract, m': MachineId, p: ProfileName)
    requires m' != m || p != c.profile
    ensures IdleOn(Commit(l, m, c), m', p) == IdleOn(l, m', p)
  {
  }

  lemma IdleHere(l: Ledger, m: MachineId, c: Contract)
    ensures UsesWarm(l, m, c) ==> IdleOn(Commit(l, m, c), m, c.profile) == IdleOn(l, m, c.profile) - 1
    ensures !UsesWarm(l, m, c) ==> IdleOn(Commit(l, m, c), m, c.profile) == IdleOn(l, m, c.profile)
  {
  }

  lemma {:induction false} PassIsHarder(f: Fleet, l: Ledger, cs: seq<Contract>, i: nat)
    requires i <= |cs|
    ensures Harder(Placed(f, l, cs[..i]), Placed(f, l, cs))
    decreases |cs| - i
  {
    if i == |cs| {
      assert cs[..i] == cs;
    } else {
      var n := |cs| - 1;
      assert cs[..n][..i] == cs[..i];
      PassIsHarder(f, l, cs[..n], i);
      var mid, c := Placed(f, l, cs[..n]), cs[n];
      if Pick(f, mid, c).Some? {
        CommitIsHarder(mid, Pick(f, mid, c).value, c);
      }
    }
  }

  /** Whoever is turned away once stays turned away, warm guests consumed or not. */
  lemma IneligibleStays(f: Fleet, l: Ledger, l': Ledger, c: Contract, r: Readiness)
    requires Harder(l, l') && !Eligible(f, l, c, r)
    ensures !Eligible(f, l', c, r)
  {
    var m := r.machineId;
    assert ReservedOn(l, m).AtMost(ReservedOn(l', m));
    assert IdleOn(l', m, c.profile) <= IdleOn(l, m, c.profile);
  }

  lemma UnplacedStays(f: Fleet, l: Ledger, l': Ledger, c: Contract)
    requires Harder(l, l') && Pick(f, l, c).None?
    ensures Pick(f, l', c).None?
  {
    var rs := Candidates(f, c);
    forall i | 0 <= i < |rs| ensures !Eligible(f, l', c, rs[i]) {
      IneligibleStays(f, l, l', c, rs[i]);
    }
  }

  /** No overtaking: a later item with the same contract is placed only if the earlier one was. */
  lemma NoOvertaking(f: Fleet, l: Ledger, cs: seq<Contract>, i: nat, j: nat)
    requires i < j < |cs| && cs[i] == cs[j]
    requires Slot(f, l, cs, j).Some?
    ensures Slot(f, l, cs, i).Some?
  {
    assert cs[..j][..i] == cs[..i];
    PassIsHarder(f, l, cs[..j], i);
    if Slot(f, l, cs, i).None? {
      UnplacedStays(f, Placed(f, l, cs[..i]), Placed(f, l, cs[..j]), cs[i]);
    }
  }

  /** Maximality: an item the pass leaves out has no eligible Worker when the pass ends. */
  lemma LeftOutHasNoRoom(f: Fleet, l: Ledger, cs: seq<Contract>, i: nat)
    requires i < |cs| && Slot(f, l, cs, i).None?
    ensures Pick(f, Placed(f, l, cs), cs[i]).None?
    ensures forall r :: r in Candidates(f, cs[i]) ==> !Eligible(f, Placed(f, l, cs), cs[i], r)
  {
    PassIsHarder(f, l, cs, i);
    UnplacedStays(f, Placed(f, l, cs[..i]), Placed(f, l, cs), cs[i]);
  }

  lemma {:induction false} NothingToPlace(f: Fleet, l: Ledger, cs: seq<Contract>)
    requires forall i :: 0 <= i < |cs| ==> Pick(f, l, cs[i]).None?
    ensures Placed(f, l, cs) == l
  {
    if cs != [] {
      NothingToPlace(f, l, cs[..|cs| - 1]);
    }
  }

  /** A second pass over what the first left out, on the consumed ledger, places nothing. */
  lemma SecondPassPlacesNothing(f: Fleet, l: Ledger, cs: seq<Contract>, left: seq<Contract>)
    requires forall k :: 0 <= k < |left| ==> exists i :: 0 <= i < |cs| && cs[i] == left[k] && Slot(f, l, cs, i).None?
    ensures Placed(f, Placed(f, l, cs), left) == Placed(f, l, cs)
    ensures forall k :: 0 <= k < |left| ==> Slot(f, Placed(f, l, cs), left, k).None?
  {
    var l' := Placed(f, l, cs);
    forall k | 0 <= k < |left| ensures Pick(f, l', left[k]).None? {
      var i :| 0 <= i < |cs| && cs[i] == left[k] && Slot(f, l, cs, i).None?;
      LeftOutHasNoRoom(f, l, cs, i);
    }
    NothingToPlace(f, l', left);
    forall k | 0 <= k < |left| ensures Slot(f, l', left, k).None? {
      NothingToPlace(f, l', left[..k]);
    }
  }

  /** A hypothetical job behind the queue changes nothing in front of it. */
  lemma AppendingChangesNothing(f: Fleet, l: Ledger, cs: seq<Contract>, more: seq<Contract>)
    ensures Slots(f, l, cs + more)[..|cs|] == Slots(f, l, cs)
  {
    forall i | 0 <= i < |cs| ensures Slot(f, l, cs + more, i) == Slot(f, l, cs, i) {
      assert (cs + more)[..i] == cs[..i];
    }
  }
}
