/**
 What a placement pass does to resources: conservation, capacity and slots, the queue it works
 through, and the snapshot it starts from (packages/backend/convex/attemptScheduler.ts).
 */
module Capacity {
  import opened Common
  import opened Sorting
  import opened Placement

  // ---------------------------------------------------------------------------------------------
  // The three parts of a machine's reservation

  function Demand(c: Contract, d: Dimension): nat {
    SizeOf(c).Get(d)
  }

  /** Live work on the machine. */
  function LoadOn(ws: seq<Work>, m: MachineId, d: Dimension): nat {
    if ws == [] then 0
    else
      var n := |ws| - 1;
      LoadOn(ws[..n], m, d) + if ws[n].machineId == Some(m) then Demand(ws[n].contract, d) else 0
  }

  /** Work the pass has placed on the machine. */
  function PlacedOn(f: Fleet, l: Ledger, cs: seq<Contract>, m: MachineId, d: Dimension): nat {
    if cs == [] then 0
    else
      var n := |cs| - 1;
      PlacedOn(f, l, cs[..n], m, d) + if Slot(f, l, cs, n) == Some(m) then Demand(cs[n], d) else 0
  }

  /** Idle warm guests on the machine, each the size of its Profile. */
  function WarmOn(ps: seq<Profile>, l: Ledger, m: MachineId, d: Dimension): nat {
    if ps == [] then 0
    else
      var n := |ps| - 1;
      WarmOn(ps[..n], l, m, d) + IdleOn(l, m, ps[n].contract.profile) * Demand(ps[n].contract, d)
  }

  ghost predicate DistinctNames(ps: seq<Profile>) {
    forall i, j :: 0 <= i < j < |ps| ==> ps[i].contract.profile != ps[j].contract.profile
  }

  /** In this dimension the reservation is live work, placed work and idle warm guests. */
  ghost predicate ConservedAt(f: Fleet, l: Ledger, live: nat, placed: nat, m: MachineId, d: Dimension) {
    ReservedOn(l, m).Get(d) == live + placed + WarmOn(f.profiles, l, m, d)
  }

  // ---------------------------------------------------------------------------------------------
  // Warm guests, one Profile at a time

  lemma {:induction false} WarmUnchanged(ps: seq<Profile>, l: Ledger, l': Ledger, m: MachineId, d: Dimension)
    requires forall i :: 0 <= i < |ps| ==> IdleOn(l, m, ps[i].contract.profile) == IdleOn(l', m, ps[i].contract.profile)
    ensures WarmOn(ps, l, m, d) == WarmOn(ps, l', m, d)
  {
    if ps != [] {
      WarmUnchanged(ps[..|ps| - 1], l, l', m, d);
    }
  }

  /** Changing the idle count of Profile `k` alone changes the sum by exactly that. */
  lemma {:induction false} WarmChanges(ps: seq<Profile>, l: Ledger, l': Ledger, m: MachineId, k: nat, d: Dimension)
    requires DistinctNames(ps) && k < |ps|
    requires forall i :: 0 <= i < |ps| && i != k ==>
               IdleOn(l, m, ps[i].contract.profile) == IdleOn(l', m, ps[i].contract.profile)
    ensures var c := ps[k].contract;
            WarmOn(ps, l, m, d) + IdleOn(l', m, c.profile) * Demand(c, d) ==
            WarmOn(ps, l', m, d) + IdleOn(l, m, c.profile) * Demand(c, d)
  {
    var n := |ps| - 1;
    if k < n {
      WarmChanges(ps[..n], l, l', m, k, d);
    } else {
      WarmUnchanged(ps[..n], l, l', m, d);
    }
  }

  lemma {:induction false} IndexOfActive(ps: seq<Profile>, c: Contract) returns (k: nat)
    requires DistinctNames(ps) && Lookup(ps, c.profile).Some? && Lookup(ps, c.profile).value.contract == c
    ensures k < |ps| && ps[k].contract == c
    ensures forall i :: 0 <= i < |ps| && i != k ==> ps[i].contract.profile != c.profile
  {
    k :| 0 <= k < |ps| && ps[k] == Lookup(ps, c.profile).value;
  }

  /** A commit gives up the warm guest it uses, and no other. */
  lemma CommitWarm(f: Fleet, l: Ledger, c: Contract, m: MachineId, d: Dimension)
    requires DistinctNames(f.profiles) && MatchesActiveProfile(f, c)
    ensures WarmOn(f.profiles, l, m, d) ==
            WarmOn(f.profiles, Commit(l, m, c), m, d) + if UsesWarm(l, m, c) then Demand(c, d) else 0
  {
    var l' := Commit(l, m, c);
    var k := IndexOfActive(f.profiles, c);
    forall i | 0 <= i < |f.profiles| && i != k
      ensures IdleOn(l, m, f.profiles[i].contract.profile) == IdleOn(l', m, f.profiles[i].contract.profile)
    {
      IdleElsewhere(l, m, c, m, f.profiles[i].contract.profile);
    }
    WarmChanges(f.profiles, l, l', m, k, d);
    IdleHere(l, m, c);
    OneLess(IdleOn(l, m, c.profile), Demand(c, d));
  }

  lemma {:induction false} OneLess(n: nat, x: nat)
    ensures n > 0 ==> n * x == (n - 1) * x + x
  {
  }

  // ---------------------------------------------------------------------------------------------
  // Conservation

  lemma CommitConserves(f: Fleet, l: Ledger, c: Contract, m: MachineId, live: nat, placed: nat, d: Dimension)
    requires DistinctNames(f.profiles) && MatchesActiveProfile(f, c) && ConservedAt(f, l, live, placed, m, d)
    ensures ConservedAt(f, Commit(l, m, c), live, placed + Demand(c, d), m, d)
  {
    CommitWarm(f, l, c, m, d);
  }

  lemma CommitElsewhere(f: Fleet, l: Ledger, c: Contract, m: MachineId, m': MachineId, d: Dimension)
    requires m' != m
    ensures ReservedOn(Commit(l, m, c), m') == ReservedOn(l, m')
    ensures UsedOn(Commit(l, m, c), m') == UsedOn(l, m')
    ensures WarmOn(f.profiles, Commit(l, m, c), m', d) == WarmOn(f.profiles, l, m', d)
  {
    forall i | 0 <= i < |f.profiles|
      ensures IdleOn(Commit(l, m, c), m', f.profiles[i].contract.profile) ==
              IdleOn(l, m', f.profiles[i].contract.profile)
    {
      IdleElsewhere(l, m, c, m', f.profiles[i].contract.profile);
    }
    WarmUnchanged(f.profiles, Commit(l, m, c), l, m', d);
  }

  /** What a pass may assume: the queue holds only work its Profiles still describe. */
  ghost predicate Queued(f: Fleet, cs: seq<Contract>) {
    DistinctNames(f.profiles) && forall i :: 0 <= i < |cs| ==> MatchesActiveProfile(f, cs[i])
  }

  /**
   Through a whole pass, each machine's reservation is its live work plus the work placed on it
   plus its idle warm guests, in vCPUs, memory and guests alike.
   */
  lemma {:induction false} PassConserves(f: Fleet, l: Ledger, cs: seq<Contract>, live: nat, m: MachineId, d: Dimension)
    requires Queued(f, cs) && ConservedAt(f, l, live, 0, m, d)
    ensures ConservedAt(f, Placed(f, l, cs), live, PlacedOn(f, l, cs, m, d), m, d)
  {
    if cs != [] {
      var n := |cs| - 1;
      PassConserves(f, l, cs[..n], live, m, d);
      var mid, c := Placed(f, l, cs[..n]), cs[n];
      var pick := Pick(f, mid, c);
      if pick == Some(m) {
        CommitConserves(f, mid, c, m, live, PlacedOn(f, l, cs[..n], m, d), d);
      } else if pick.Some? {
        CommitElsewhere(f, mid, c, pick.value, m, d);
      }
    }
  }

  /** Used slots grow by one for each item placed, no more and no less. */
  lemma {:induction false} UsedCountsPlacements(f: Fleet, l: Ledger, cs: seq<Contract>, m: MachineId)
    ensures UsedOn(Placed(f, l, cs), m) == UsedOn(l, m) + PlacedOn(f, l, cs, m, Guests)
  {
    if cs != [] {
      UsedCountsPlacements(f, l, cs[..|cs| - 1], m);
    }
  }

  // ---------------------------------------------------------------------------------------------
  // Capacity

  predicate Within(l: Ledger, id: MachineId, m: Machine) {
    && (m.cpus.Some? ==> ReservedOn(l, id).vcpus <= m.cpus.value)
    && (m.memoryMiB.Some? ==> ReservedOn(l, id).memoryMiB <= m.memoryMiB.value)
    && ReservedOn(l, id).count <= m.maxSlots
  }

  ghost predicate Received(f: Fleet, l: Ledger, cs: seq<Contract>, m: MachineId) {
    exists i :: 0 <= i < |cs| && Slot(f, l, cs, i) == Some(m)
  }

  lemma PickFits(f: Fleet, l: Ledger, c: Contract)
    requires Pick(f, l, c).Some?
    ensures var id := Pick(f, l, c).value;
            && id in f.machines
            && Within(Commit(l, id, c), id, f.machines[id])
            && GuestsWith(l, id, c) <= f.machines[id].maxSlots
  {
  }

  lemma SlotOfPrefix(f: Fleet, l: Ledger, cs: seq<Contract>, n: nat, i: nat)
    requires i < n <= |cs|
    ensures Slot(f, l, cs[..n], i) == Slot(f, l, cs, i)
  {
    assert cs[..n][..i] == cs[..i];
  }

  /** Nothing about the machine differs between the two ledgers. */
  ghost predicate SameOn(l: Ledger, l': Ledger, m: MachineId) {
    && ReservedOn(l, m) == ReservedOn(l', m) && UsedOn(l, m) == UsedOn(l', m)
    && forall p :: IdleOn(l, m, p) == IdleOn(l', m, p)
  }

  lemma OtherPlacement(f: Fleet, l: Ledger, c: Contract, m: MachineId)
    requires Pick(f, l, c) != Some(m)
    ensures SameOn(l, After(f, l, c), m)
  {
    var pick := Pick(f, l, c);
    if pick.Some? {
      forall p ensures IdleOn(l, m, p) == IdleOn(After(f, l, c), m, p) {
        IdleElsewhere(l, pick.value, c, m, p);
      }
    }
  }

  lemma StaysSame(l: Ledger, l': Ledger, l'': Ledger, m: MachineId)
    requires SameOn(l, l', m) && SameOn(l', l'', m)
    ensures SameOn(l, l'', m)
  {
  }

  lemma ReceivedBefore(f: Fleet, l: Ledger, cs: seq<Contract>, m: MachineId)
    requires Received(f, l, cs, m) && Slot(f, l, cs, |cs| - 1) != Some(m)
    ensures Received(f, l, cs[..|cs| - 1], m)
  {
    var i :| 0 <= i < |cs| && Slot(f, l, cs, i) == Some(m);
    SlotOfPrefix(f, l, cs, |cs| - 1, i);
  }

  /** A machine that received work ends as its last placement left it. */
  lemma {:induction false} LastPlacement(f: Fleet, l: Ledger, cs: seq<Contract>, m: MachineId) returns (i: nat)
    requires Received(f, l, cs, m)
    ensures i < |cs| && Slot(f, l, cs, i) == Some(m)
    ensures SameOn(Commit(Placed(f, l, cs[..i]), m, cs[i]), Placed(f, l, cs), m)
  {
    var n := |cs| - 1;
    if Slot(f, l, cs, n) == Some(m) {
      i := n;
    } else {
      ReceivedBefore(f, l, cs, m);
      i := LastPlacement(f, l, cs[..n], m);
      SlotOfPrefix(f, l, cs, n, i);
      assert cs[..n][..i] == cs[..i];
      OtherPlacement(f, Placed(f, l, cs[..n]), cs[n], m);
      StaysSame(Commit(Placed(f, l, cs[..i]), m, cs[i]), Placed(f, l, cs[..n]), Placed(f, l, cs), m);
    }
  }

  /** Every machine that received work ends within its CPUs, its memory and its guest limit. */
  lemma PassStaysWithin(f: Fleet, l: Ledger, cs: seq<Contract>, m: MachineId)
    requires Received(f, l, cs, m)
    ensures m in f.machines && Within(Placed(f, l, cs), m, f.machines[m])
  {
    var i := LastPlacement(f, l, cs, m);
    PickFits(f, Placed(f, l, cs[..i]), cs[i]);
  }

  lemma PickKeepsTenth(f: Fleet, l: Ledger, c: Contract)
    requires Pick(f, l, c).Some?
    ensures var id := Pick(f, l, c).value;
            && id in f.machines
            && var m := f.machines[id];
               && (m.cpus.Some? && c.vcpus < m.cpus.value ==> Grown(l, id, c).vcpus <= m.cpus.value * 9 / 10)
               && (m.memoryMiB.Some? && c.memoryMiB < m.memoryMiB.value ==>
                     Grown(l, id, c).memoryMiB <= m.memoryMiB.value * 9 / 10)
  {
  }

  /** Every item the pass put on the machine asks for less than this. */
  ghost predicate AllSmaller(f: Fleet, l: Ledger, cs: seq<Contract>, m: MachineId, d: Dimension, limit: int) {
    forall i :: 0 <= i < |cs| && Slot(f, l, cs, i) == Some(m) ==> Demand(cs[i], d) < limit
  }

  /**
   A machine all of whose new items are smaller than it keeps a tenth of its CPUs free, and a tenth
   of its memory likewise.
   */
  lemma PassKeepsTenth(f: Fleet, l: Ledger, cs: seq<Contract>, m: MachineId)
    requires Received(f, l, cs, m)
    ensures m in f.machines
    ensures var host, end := f.machines[m], ReservedOn(Placed(f, l, cs), m);
            && (host.cpus.Some? && AllSmaller(f, l, cs, m, Vcpus, host.cpus.value) ==>
                  end.vcpus <= host.cpus.value * 9 / 10)
            && (host.memoryMiB.Some? && AllSmaller(f, l, cs, m, Memory, host.memoryMiB.value) ==>
                  end.memoryMiB <= host.memoryMiB.value * 9 / 10)
  {
    var i := LastPlacement(f, l, cs, m);
    PickKeepsTenth(f, Placed(f, l, cs[..i]), cs[i]);
  }

  lemma {:induction false} WarmGuestCounted(ps: seq<Profile>, l: Ledger, m: MachineId, k: nat)
    requires k < |ps| && IdleOn(l, m, ps[k].contract.profile) > 0
    ensures WarmOn(ps, l, m, Guests) >= 1
  {
    if k < |ps| - 1 {
      WarmGuestCounted(ps[..|ps| - 1], l, m, k);
    }
  }

  /** The step that matters: a warm start on a machine whose used slots are its live work. */
  lemma WarmStartFits(f: Fleet, l: Ledger, c: Contract, live: nat, placed: nat)
    requires DistinctNames(f.profiles) && MatchesActiveProfile(f, c) && Pick(f, l, c).Some?
    requires ConservedAt(f, l, live, placed, Pick(f, l, c).value, Guests)
    requires UsedOn(l, Pick(f, l, c).value) <= live + placed
    ensures UsedOn(l, Pick(f, l, c).value) + 1 <= f.machines[Pick(f, l, c).value].maxSlots
  {
    var m := Pick(f, l, c).value;
    PickFits(f, l, c);
    if UsesWarm(l, m, c) {
      var k := IndexOfActive(f.profiles, c);
      WarmGuestCounted(f.profiles, l, m, k);
    }
  }

  /** What the last placement on the machine found there. */
  lemma BeforePlacement(f: Fleet, l: Ledger, cs: seq<Contract>, live: nat, m: MachineId, i: nat)
    requires Queued(f, cs) && ConservedAt(f, l, live, 0, m, Guests) && i < |cs|
    ensures var mid, placed := Placed(f, l, cs[..i]), PlacedOn(f, l, cs[..i], m, Guests);
            ConservedAt(f, mid, live, placed, m, Guests) && UsedOn(mid, m) == UsedOn(l, m) + placed
  {
    PassConserves(f, l, cs[..i], live, m, Guests);
    UsedCountsPlacements(f, l, cs[..i], m);
  }

  /**
   Slots: when used slots count only the live work the snapshot saw, every machine that received
   work also ends within its slots.
   */
  lemma PassKeepsSlots(f: Fleet, l: Ledger, cs: seq<Contract>, live: nat, m: MachineId)
    requires Queued(f, cs) && ConservedAt(f, l, live, 0, m, Guests) && UsedOn(l, m) <= live
    requires Received(f, l, cs, m)
    ensures m in f.machines && UsedOn(Placed(f, l, cs), m) <= f.machines[m].maxSlots
  {
    var i := LastPlacement(f, l, cs, m);
    PickFits(f, Placed(f, l, cs[..i]), cs[i]);
    BeforePlacement(f, l, cs, live, m, i);
    WarmStartFits(f, Placed(f, l, cs[..i]), cs[i], live, PlacedOn(f, l, cs[..i], m, Guests));
  }

  /** Whatever else holds its slots, no machine ends more than one over. */
  lemma AtMostOneOver(f: Fleet, l: Ledger, cs: seq<Contract>, m: MachineId)
    requires Received(f, l, cs, m)
    ensures m in f.machines && UsedOn(Placed(f, l, cs), m) <= f.machines[m].maxSlots + 1
  {
    var i := LastPlacement(f, l, cs, m);
    PickFits(f, Placed(f, l, cs[..i]), cs[i]);
  }

  /** One slot, taken by a legacy Job the snapshot does not load, and one warm guest. */
  function CrowdedFleet(c: Contract, now: int): Fleet {
    var m := Machine(0, None, None, 1, 1, {}, now, None);
    var pool := WarmPool(1, 1, 0);
    var r := Readiness(7, c.profile, true, c.executor, c.imageRelease, None, None, now, true, None, Some(pool));
    Fleet(now, map[7 := m], [Profile(c, Balanced, {}, 1)], map[c.profile := [r]])
  }

  function CrowdedLedger(c: Contract): Ledger {
    Ledger(map[7 := SizeOf(c)], map[WarmKey(7, c.profile) := 1], map[7 := 1])
  }

  lemma OnlyCandidate(f: Fleet, l: Ledger, c: Contract, r: Readiness)
    requires Candidates(f, c) == [r] && Eligible(f, l, c, r)
    ensures Pick(f, l, c) == Some(r.machineId)
  {
  }

  lemma {:induction false} LegacyJobOverfills(c: Contract, now: int, d: Dimension)
    ensures var f, l := CrowdedFleet(c, now), CrowdedLedger(c);
            && ConservedAt(f, l, 0, 0, 7, d)
            && Pick(f, l, c) == Some(7) && UsedOn(Commit(l, 7, c), 7) > f.machines[7].maxSlots
  {
    var f, l := CrowdedFleet(c, now), CrowdedLedger(c);
    assert WarmOn(f.profiles[..0], l, 7, d) == 0;
    OnlyCandidate(f, l, c, f.ready[c.profile][0]);
  }

  // ---------------------------------------------------------------------------------------------
  // Whole hosts

  lemma {:induction false} VcpusAtLeastGuests(f: Fleet, l: Ledger, cs: seq<Contract>, m: MachineId)
    ensures PlacedOn(f, l, cs, m, Vcpus) >= PlacedOn(f, l, cs, m, Guests)
  {
    if cs != [] {
      VcpusAtLeastGuests(f, l, cs[..|cs| - 1], m);
    }
  }

  lemma {:induction false} VcpusCoverItem(f: Fleet, l: Ledger, cs: seq<Contract>, m: MachineId, i: nat)
    requires i < |cs| && Slot(f, l, cs, i) == Some(m)
    ensures PlacedOn(f, l, cs, m, Vcpus) >= cs[i].vcpus + PlacedOn(f, l, cs, m, Guests) - 1
    ensures PlacedOn(f, l, cs, m, Guests) >= 1
  {
    var n := |cs| - 1;
    if i < n {
      SlotOfPrefix(f, l, cs, n, i);
      VcpusCoverItem(f, l, cs[..n], m, i);
    } else {
      VcpusAtLeastGuests(f, l, cs[..n], m);
    }
  }

  /**
   An item asking for at least a host's CPUs lands only on a host of exactly that size, and through
   the end of the pass it is all that host has: no live work, no other placement, no warm guest.
   */
  lemma WholeHost(f: Fleet, l: Ledger, cs: seq<Contract>, live: nat, m: MachineId, i: nat)
    requires Queued(f, cs) && ConservedAt(f, l, live, 0, m, Vcpus)
    requires i < |cs| && Slot(f, l, cs, i) == Some(m) && m in f.machines
    requires f.machines[m].cpus.Some? && f.machines[m].cpus.value <= cs[i].vcpus
    ensures f.machines[m].cpus.value == cs[i].vcpus == ReservedOn(Placed(f, l, cs), m).vcpus
    ensures PlacedOn(f, l, cs, m, Guests) == 1
    ensures live == 0 && WarmOn(f.profiles, Placed(f, l, cs), m, Vcpus) == 0
  {
    PassConserves(f, l, cs, live, m, Vcpus);
    PassStaysWithin(f, l, cs, m);
    VcpusCoverItem(f, l, cs, m, i);
  }

  // ---------------------------------------------------------------------------------------------
  // The queue

  predicate IsUnassigned(f: Fleet, w: Work) {
    w.machineId.None? && MatchesActiveProfile(f, w.contract)
  }

  function Unassigned(f: Fleet, ws: seq<Work>): seq<Keyed<Work>> {
    if ws == [] then []
    else
      var n := |ws| - 1;
      Unassigned(f, ws[..n]) + if IsUnassigned(f, ws[n]) then [Keyed(ws[n].createdAt as real, ws[n])] else []
  }

  function Queue(f: Fleet, ws: seq<Work>): seq<Keyed<Work>> {
    StableSort(Unassigned(f, ws))
  }

  function Contracts(q: seq<Keyed<Work>>): (cs: seq<Contract>)
    ensures |cs| == |q| && forall i :: 0 <= i < |q| ==> cs[i] == q[i].item.contract
  {
    seq(|q|, i requires 0 <= i < |q| => q[i].item.contract)
  }

  lemma {:induction false} UnassignedAre(f: Fleet, ws: seq<Work>)
    ensures forall k :: k in Unassigned(f, ws) <==>
              k.item in ws && IsUnassigned(f, k.item) && k.key == k.item.createdAt as real
  {
    if ws != [] {
      var n := |ws| - 1;
      UnassignedAre(f, ws[..n]);
      assert ws == ws[..n] + [ws[n]];
    }
  }

  /** The queue is exactly the unassigned work its Profiles still describe, oldest first. */
  lemma QueueIsOldestFirst(f: Fleet, ws: seq<Work>)
    requires DistinctNames(f.profiles)
    ensures Sorted(Queue(f, ws)) && Queued(f, Contracts(Queue(f, ws)))
    ensures forall k :: k in Queue(f, ws) <==>
              k.item in ws && IsUnassigned(f, k.item) && k.key == k.item.createdAt as real
  {
    SortSorts(Unassigned(f, ws));
    UnassignedAre(f, ws);
    forall k ensures k in Queue(f, ws) <==> k in Unassigned(f, ws) {
      assert k in Queue(f, ws) <==> k in multiset(Queue(f, ws));
      assert k in Unassigned(f, ws) <==> k in multiset(Unassigned(f, ws));
    }
  }

  /** No queued item is placed while an older one of its Profile is left waiting. */
  lemma OlderFirst(f: Fleet, l: Ledger, ws: seq<Work>, i: nat, j: nat)
    requires DistinctNames(f.profiles)
    requires var q := Queue(f, ws);
             && i < |q| && j < |q| && q[i].item.contract.profile == q[j].item.contract.profile
             && q[i].item.createdAt < q[j].item.createdAt
             && Slot(f, l, Contracts(q), j).Some?
    ensures Slot(f, l, Contracts(Queue(f, ws)), i).Some?
  {
    var q := Queue(f, ws);
    QueueIsOldestFirst(f, ws);
    assert q[i] in q && q[j] in q;
    assert i < j;
    NoOvertaking(f, l, Contracts(q), i, j);
  }
}
