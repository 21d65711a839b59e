/**
 When a pass can leave a machine with more used slots than it has. Legacy Jobs count in `usedSlots`
 but not in the snapshot's live work, so a warm start, which reserves nothing new, can be one too many.
 */
module Overfill {
  import opened Common
  import opened Sorting
  import opened Placement
  import opened Capacity
  import opened Scheduler

  ghost predicate Overfills(f: Fleet, l: Ledger, cs: seq<Contract>, m: MachineId) {
    m in f.machines && Received(f, l, cs, m) && UsedOn(Placed(f, l, cs), m) > f.machines[m].maxSlots
  }

  /** The machine as a pass loads it from the rows: live work, used slots, idle warm guests and its limit. */
  ghost predicate Finds(f: Fleet, l: Ledger, work: seq<Work>, readiness: seq<Readiness>, m: MachineId,
                        live: nat, used: nat, warm: nat, slots: nat)
  {
    && LoadedFrom(f, l, work, readiness) && m in f.machines
    && LoadOn(work, m, Guests) == live && f.machines[m].usedSlots == used
    && WarmOn(f.profiles, l, m, Guests) == warm && f.machines[m].maxSlots == slots
  }

  /** The pass over exactly the work of those rows that waits overfills the machine. */
  ghost predicate PassOverfills(f: Fleet, l: Ledger, work: seq<Work>, m: MachineId) {
    Overfills(f, l, Contracts(Queue(f, work)), m)
  }

  lemma {:induction false} WarmShrinks(ps: seq<Profile>, l: Ledger, l': Ledger, m: MachineId)
    requires Harder(l, l')
    ensures WarmOn(ps, l', m, Guests) <= WarmOn(ps, l, m, Guests)
  {
    if ps != [] {
      WarmShrinks(ps[..|ps| - 1], l, l', m);
      assert IdleOn(l', m, ps[|ps| - 1].contract.profile) <= IdleOn(l, m, ps[|ps| - 1].contract.profile);
    }
  }

  /** The overfilling placement: a warm start on the last free slot. */
  lemma OverfillingStart(f: Fleet, l: Ledger, c: Contract, live: nat, placed: nat)
    requires DistinctNames(f.profiles) && MatchesActiveProfile(f, c) && Pick(f, l, c).Some?
    requires ConservedAt(f, l, live, placed, Pick(f, l, c).value, Guests)
    requires UsedOn(l, Pick(f, l, c).value) + 1 > f.machines[Pick(f, l, c).value].maxSlots
    ensures var m := Pick(f, l, c).value;
            && UsesWarm(l, m, c) && WarmOn(f.profiles, l, m, Guests) >= 1
            && UsedOn(l, m) == f.machines[m].maxSlots
            && live + placed + WarmOn(f.profiles, l, m, Guests) <= f.machines[m].maxSlots
  {
    PickFits(f, l, c);
    var k := IndexOfActive(f.profiles, c);
    WarmGuestCounted(f.profiles, l, Pick(f, l, c).value, k);
  }

  /** The opening ledger bounds the later ones. */
  lemma NothingBefore(f: Fleet, l: Ledger, cs: seq<Contract>, m: MachineId)
    ensures WarmOn(f.profiles, Placed(f, l, cs), m, Guests) <= WarmOn(f.profiles, l, m, Guests)
    ensures UsedOn(l, m) <= UsedOn(Placed(f, l, cs), m)
    ensures ReservedOn(l, m).count <= ReservedOn(Placed(f, l, cs), m).count
  {
    assert cs[..0] == [];
    PassIsHarder(f, l, cs, 0);
    WarmShrinks(f.profiles, l, Placed(f, l, cs), m);
  }

  /**
   What an overfilled machine had before the pass: used slots beyond its live work, an idle warm
   guest, and room for both. It ends exactly one over, with fewer idle warm guests than that excess.
   */
  lemma OverfillNeeds(f: Fleet, l: Ledger, cs: seq<Contract>, m: MachineId, live: nat)
    requires Queued(f, cs) && ConservedAt(f, l, live, 0, m, Guests) && Overfills(f, l, cs, m)
    ensures var slots, warm := f.machines[m].maxSlots, WarmOn(f.profiles, l, m, Guests);
            && live < UsedOn(l, m) <= slots && 1 <= warm && live + warm <= slots
            && UsedOn(Placed(f, l, cs), m) == slots + 1
            && WarmOn(f.profiles, Placed(f, l, cs), m, Guests) < UsedOn(l, m) - live
  {
    var i := LastPlacement(f, l, cs, m);
    var mid, c, placed := Placed(f, l, cs[..i]), cs[i], PlacedOn(f, l, cs[..i], m, Guests);
    BeforePlacement(f, l, cs, live, m, i);
    OverfillingStart(f, mid, c, live, placed);
    NothingBefore(f, l, cs[..i], m);
    CommitWarm(f, mid, c, m, Guests);
    WarmUnchanged(f.profiles, Commit(mid, m, c), Placed(f, l, cs), m, Guests);
  }

  // ---------------------------------------------------------------------------------------------
  // And when it had all that, some queue overfills it

  const WARM := Contract(1, "firecracker", "image", 1, 1)
  const COLD := Contract(2, "firecracker", "image", 1, 1)

  function RowFor(c: Contract, pool: Option<WarmPool>): Readiness {
    Readiness(7, c.profile, true, c.executor, c.imageRelease, None, None, 0, true, None, pool)
  }

  function WarmRow(warm: nat): Readiness {
    RowFor(WARM, Some(WarmPool(warm, warm, 0)))
  }

  function ColdRow(): Readiness {
    RowFor(COLD, None)
  }

  function HostRows(warm: nat): seq<Readiness> {
    [WarmRow(warm), ColdRow()]
  }

  function HostProfiles(warm: nat): seq<Profile> {
    [Profile(WARM, Balanced, {}, warm), Profile(COLD, Balanced, {}, 0)]
  }

  /** A host without CPU or memory limit, a Profile it keeps `warm` guests of, and one it starts cold. */
  function OneHost(used: nat, slots: nat, warm: nat): Fleet {
    Fleet(0, map[7 := Machine(0, None, None, slots, used, {}, 0, None)], HostProfiles(warm),
          map[1 := [WarmRow(warm)], 2 := [ColdRow()]])
  }

  function Opening(live: nat, used: nat, warm: nat): Ledger {
    Ledger(map[7 := Size(live + warm, live + warm, live + warm)], map[WarmKey(7, 1) := warm], map[7 := used])
  }

  ghost predicate Standing(l: Ledger, count: nat, used: nat, warm: nat) {
    && ReservedOn(l, 7).count == count && UsedOn(l, 7) == used
    && IdleOn(l, 7, 1) == warm && IdleOn(l, 7, 2) == 0
  }

  lemma WarmTurn(f: Fleet, l: Ledger, count: nat, used: nat, warm: nat, used0: nat, slots: nat, warm0: nat)
    requires f == OneHost(used0, slots, warm0) && Standing(l, count, used, warm)
    requires warm >= 1 && count <= slots && used <= slots
    ensures Pick(f, l, WARM) == Some(7) && Standing(Commit(l, 7, WARM), count, used + 1, warm - 1)
  {
    WarmIsEligible(f, l, count, used, warm, used0, slots, warm0);
    OnlyCandidate(f, l, WARM, WarmRow(warm0));
    IdleHere(l, 7, WARM);
    IdleElsewhere(l, 7, WARM, 7, 2);
  }

  lemma ColdTurn(f: Fleet, l: Ledger, count: nat, used: nat, warm: nat, used0: nat, slots: nat, warm0: nat)
    requires f == OneHost(used0, slots, warm0) && Standing(l, count, used, warm)
    requires count < slots && used < slots
    ensures Pick(f, l, COLD) == Some(7) && Standing(Commit(l, 7, COLD), count + 1, used + 1, warm)
  {
    ColdIsEligible(f, l, count, used, warm, used0, slots, warm0);
    OnlyCandidate(f, l, COLD, ColdRow());
    ColdStands(l, count, used, warm);
  }

  lemma WarmIsEligible(f: Fleet, l: Ledger, count: nat, used: nat, warm: nat, used0: nat, slots: nat, warm0: nat)
    requires f == OneHost(used0, slots, warm0) && Standing(l, count, used, warm)
    requires warm >= 1 && count <= slots && used <= slots
    ensures Eligible(f, l, WARM, WarmRow(warm0))
  {
    BothActive(used0, slots, warm0);
  }

  lemma ColdIsEligible(f: Fleet, l: Ledger, count: nat, used: nat, warm: nat, used0: nat, slots: nat, warm0: nat)
    requires f == OneHost(used0, slots, warm0) && Standing(l, count, used, warm)
    requires count < slots && used < slots
    ensures Eligible(f, l, COLD, ColdRow())
  {
    BothActive(used0, slots, warm0);
  }

  lemma ColdStands(l: Ledger, count: nat, used: nat, warm: nat)
    requires Standing(l, count, used, warm)
    ensures Standing(Commit(l, 7, COLD), count + 1, used + 1, warm)
  {
    IdleHere(l, 7, COLD);
    IdleElsewhere(l, 7, COLD, 7, 1);
  }

  function Repeat(c: Contract, n: nat): (cs: seq<Contract>)
    ensures |cs| == n && forall i :: 0 <= i < n ==> cs[i] == c
  {
    if n == 0 then [] else Repeat(c, n - 1) + [c]
  }

  lemma PlacedSnoc(f: Fleet, l: Ledger, cs: seq<Contract>, c: Contract, cs': seq<Contract>)
    requires cs' == cs + [c]
    ensures Placed(f, l, cs') == After(f, Placed(f, l, cs), c)
  {
    assert cs'[..|cs|] == cs;
  }

  lemma {:induction false} WarmTurns(f: Fleet, l: Ledger, count: nat, used: nat, warm: nat, slots: nat, n: nat,
                                     used0: nat, warm0: nat)
    requires f == OneHost(used0, slots, warm0) && Standing(l, count, used, warm)
    requires n <= warm && count <= slots && used + n <= slots + 1
    ensures Standing(Placed(f, l, Repeat(WARM, n)), count, used + n, warm - n)
  {
    if n > 0 {
      WarmTurns(f, l, count, used, warm, slots, n - 1, used0, warm0);
      var mid := Placed(f, l, Repeat(WARM, n - 1));
      PlacedSnoc(f, l, Repeat(WARM, n - 1), WARM, Repeat(WARM, n));
      WarmTurn(f, mid, count, used + n - 1, warm - n + 1, used0, slots, warm0);
    }
  }

  lemma {:induction false} ColdTurns(f: Fleet, l: Ledger, count: nat, used: nat, warm: nat, slots: nat, n: nat,
                                     used0: nat, warm0: nat)
    requires f == OneHost(used0, slots, warm0) && Standing(l, count, used, warm)
    requires count + n <= slots && used + n <= slots
    ensures Standing(Placed(f, l, Repeat(COLD, n)), count + n, used + n, warm)
  {
    if n > 0 {
      ColdTurns(f, l, count, used, warm, slots, n - 1, used0, warm0);
      var mid := Placed(f, l, Repeat(COLD, n - 1));
      PlacedSnoc(f, l, Repeat(COLD, n - 1), COLD, Repeat(COLD, n));
      ColdTurn(f, mid, count + n - 1, used + n - 1, warm, used0, slots, warm0);
    }
  }

  lemma {:induction false} PlacedAppend(f: Fleet, l: Ledger, a: seq<Contract>, b: seq<Contract>)
    ensures Placed(f, l, a + b) == Placed(f, Placed(f, l, a), b)
  {
    if b == [] {
      assert a + b == a;
    } else {
      var front, c := b[..|b| - 1], b[|b| - 1];
      assert b == front + [c];
      assert a + b == (a + front) + [c];
      PlacedAppend(f, l, a, front);
      PlacedSnoc(f, l, a + front, c, a + b);
      PlacedSnoc(f, Placed(f, l, a), front, c, b);
    }
  }

  lemma OpeningStands(live: nat, used: nat, warm: nat)
    ensures Standing(Opening(live, used, warm), live + warm, used, warm)
  {
  }

  /** Use warm guests down to the excess, fill the slots with cold starts, then start one more warm. */
  function Crowd(first: nat, rest: nat): seq<Contract> {
    Repeat(WARM, first) + Repeat(COLD, rest) + [WARM]
  }

  lemma BothActive(used: nat, slots: nat, warm: nat)
    ensures var f := OneHost(used, slots, warm);
            && ActiveProfile(f, 1) == Some(Profile(WARM, Balanced, {}, warm))
            && MatchesActiveProfile(f, WARM) && MatchesActiveProfile(f, COLD)
  {
    var ps := HostProfiles(warm);
    assert ps[..1] == [Profile(WARM, Balanced, {}, warm)];
    assert Lookup(ps[..1], 1) == Some(Profile(WARM, Balanced, {}, warm));
  }

  lemma CrowdIsQueued(used: nat, slots: nat, warm: nat, first: nat, rest: nat)
    ensures Queued(OneHost(used, slots, warm), Crowd(first, rest))
  {
    BothActive(used, slots, warm);
  }

  /** After the first two stretches every slot is used, and a warm guest is left. */
  lemma SlotsFilled(live: nat, used: nat, warm: nat, slots: nat, first: nat, rest: nat)
    requires first < warm && live + warm <= used + first && used + first + rest == slots
    requires first == 0 || live + warm == used + first
    requires live + warm <= slots
    ensures var cs := Repeat(WARM, first) + Repeat(COLD, rest);
            Standing(Placed(OneHost(used, slots, warm), Opening(live, used, warm), cs), live + warm + rest, slots,
                     warm - first)
  {
    var f, l := OneHost(used, slots, warm), Opening(live, used, warm);
    OpeningStands(live, used, warm);
    WarmTurns(f, l, live + warm, used, warm, slots, first, used, warm);
    ColdTurns(f, Placed(f, l, Repeat(WARM, first)), live + warm, used + first, warm - first, slots, rest, used, warm);
    PlacedAppend(f, l, Repeat(WARM, first), Repeat(COLD, rest));
  }

  lemma OneMoreOverfills(f: Fleet, l: Ledger, before: seq<Contract>, count: nat, warm: nat, used: nat, slots: nat,
                         warm0: nat)
    requires f == OneHost(used, slots, warm0) && Standing(Placed(f, l, before), count, slots, warm)
    requires 1 <= warm && count <= slots
    ensures Overfills(f, l, before + [WARM], 7)
  {
    var cs := before + [WARM];
    WarmTurn(f, Placed(f, l, before), count, slots, warm, used, slots, warm0);
    PlacedSnoc(f, l, before, WARM, cs);
    assert cs[..|before|] == before && Slot(f, l, cs, |before|) == Some(7);
  }

  // ---------------------------------------------------------------------------------------------
  // The rows that load this

  /** Live work on the host, and waiting work behind it. */
  function HostWork(live: nat, cs: seq<Contract>): seq<Work> {
    if cs != [] then HostWork(live, cs[..|cs| - 1]) + [Work(cs[|cs| - 1], 0, None)]
    else if live > 0 then HostWork(live - 1, []) + [Work(COLD, 0, Some(7))]
    else []
  }

  lemma {:induction false} HostLoad(live: nat, cs: seq<Contract>, m: MachineId, d: Dimension)
    ensures LoadOn(HostWork(live, cs), m, d) == if m == 7 then live else 0
    ensures ActiveOn(HostWork(live, cs), 7, 1) == 0
  {
    var ws := HostWork(live, cs);
    if cs != [] {
      HostLoad(live, cs[..|cs| - 1], m, d);
      assert ws[..|ws| - 1] == HostWork(live, cs[..|cs| - 1]);
    } else if live > 0 {
      HostLoad(live - 1, [], m, d);
      assert ws[..|ws| - 1] == HostWork(live - 1, []);
    }
  }

  /** The waiting work is the queue, in order. */
  function Waiting(cs: seq<Contract>): (q: seq<Keyed<Work>>)
    ensures |q| == |cs| && forall i :: 0 <= i < |q| ==> q[i] == Keyed(0.0, Work(cs[i], 0, None))
  {
    seq(|cs|, i requires 0 <= i < |cs| => Keyed(0.0, Work(cs[i], 0, None)))
  }

  lemma {:induction false} HostUnassigned(f: Fleet, live: nat, cs: seq<Contract>)
    requires Queued(f, cs)
    ensures Unassigned(f, HostWork(live, cs)) == Waiting(cs)
  {
    var ws := HostWork(live, cs);
    if cs != [] {
      var n := |cs| - 1;
      HostUnassigned(f, live, cs[..n]);
      assert ws[..|ws| - 1] == HostWork(live, cs[..n]);
      assert Waiting(cs) == Waiting(cs[..n]) + [Keyed(0.0, Work(cs[n], 0, None))];
    } else if live > 0 {
      HostUnassigned(f, live - 1, []);
      assert ws[..|ws| - 1] == HostWork(live - 1, []);
    }
  }

  lemma HostQueue(f: Fleet, live: nat, cs: seq<Contract>)
    requires Queued(f, cs)
    ensures Contracts(Queue(f, HostWork(live, cs))) == cs
  {
    HostUnassigned(f, live, cs);
    OneKeyStays(Waiting(cs), 0.0);
  }

  lemma HostWarm(live: nat, used: nat, warm: nat, m: MachineId, d: Dimension)
    ensures WarmOn(HostProfiles(warm), Opening(live, used, warm), m, d) == if m == 7 then warm else 0
  {
    var ps, l := HostProfiles(warm), Opening(live, used, warm);
    assert ps[..1] == [Profile(WARM, Balanced, {}, warm)] && ps[..1][..0] == [];
    assert WarmOn(ps[..1][..0], l, m, d) == 0;
    assert WarmOn(ps[..1], l, m, d) == IdleOn(l, m, 1) * Demand(WARM, d);
    assert Demand(WARM, d) == 1;
  }

  lemma HostReady(used: nat, slots: nat, warm: nat, p: ProfileName)
    ensures RowsIn(OneHost(used, slots, warm).ready, p) == ReadyRows(HostRows(warm), p)
  {
    var rs := HostRows(warm);
    assert rs[..1] == [WarmRow(warm)] && rs[..1][..0] == [];
    assert ReadyRows(rs[..1], p) == if p == 1 then [WarmRow(warm)] else [];
  }

  lemma HostBalances(live: nat, used: nat, warm: nat, slots: nat, cs: seq<Contract>)
    ensures LedgerBalances(OneHost(used, slots, warm), HostWork(live, cs), Opening(live, used, warm))
  {
    var f, l, ws := OneHost(used, slots, warm), Opening(live, used, warm), HostWork(live, cs);
    forall m, d ensures ConservedAt(f, l, LoadOn(ws, m, d), 0, m, d) {
      HostLoad(live, cs, m, d);
      HostWarm(live, used, warm, m, d);
    }
  }

  lemma HostIdle(live: nat, used: nat, warm: nat, slots: nat, cs: seq<Contract>)
    ensures IdleIsSpare(OneHost(used, slots, warm), HostWork(live, cs), HostRows(warm), Opening(live, used, warm).idle)
  {
    var rs := HostRows(warm);
    HostLoad(live, cs, 7, Guests);
    BothActive(used, slots, warm);
    assert IsWarmRow(OneHost(used, slots, warm), rs[0]) && KeyOf(rs[0]) == WarmKey(7, 1);
  }

  lemma HostLoads(live: nat, used: nat, warm: nat, slots: nat, cs: seq<Contract>)
    ensures Finds(OneHost(used, slots, warm), Opening(live, used, warm), HostWork(live, cs), HostRows(warm), 7,
                  live, used, warm, slots)
  {
    forall p ensures RowsIn(OneHost(used, slots, warm).ready, p) == ReadyRows(HostRows(warm), p) {
      HostReady(used, slots, warm, p);
    }
    HostBalances(live, used, warm, slots, cs);
    HostIdle(live, used, warm, slots, cs);
    HostLoad(live, cs, 7, Guests);
    HostWarm(live, used, warm, 7, Guests);
  }

  /** The queue that overfills the host. */
  lemma CrowdOverfills(live: nat, used: nat, warm: nat, slots: nat) returns (cs: seq<Contract>)
    requires live < used <= slots && 1 <= warm && live + warm <= slots
    ensures Queued(OneHost(used, slots, warm), cs)
    ensures Overfills(OneHost(used, slots, warm), Opening(live, used, warm), cs, 7)
  {
    var first := if live + warm > used then live + warm - used else 0;
    var rest := slots - used - first;
    cs := Crowd(first, rest);
    SlotsFilled(live, used, warm, slots, first, rest);
    OneMoreOverfills(OneHost(used, slots, warm), Opening(live, used, warm), Repeat(WARM, first) + Repeat(COLD, rest),
                     live + warm + rest, warm - first, used, slots, warm);
    CrowdIsQueued(used, slots, warm, first, rest);
  }

  /**
   Exactly when a machine can be overfilled, by what its rows say before the pass: some rows with these
   counts, as the scheduler loads and queues them, overfill it if and only if used slots exceed the
   live work, a warm guest is idle, and both fit the limit.
   */
  lemma OverfillIff(live: nat, used: nat, warm: nat, slots: nat)
    ensures (exists f, l, work, readiness, m ::
               Finds(f, l, work, readiness, m, live, used, warm, slots) && PassOverfills(f, l, work, m))
            <==> live < used <= slots && 1 <= warm && live + warm <= slots
  {
    if f, l, work, readiness, m :|
       Finds(f, l, work, readiness, m, live, used, warm, slots) && PassOverfills(f, l, work, m)
    {
      QueueIsOldestFirst(f, work);
      assert ConservedAt(f, l, LoadOn(work, m, Guests), 0, m, Guests);
      OverfillNeeds(f, l, Contracts(Queue(f, work)), m, live);
    }
    if live < used <= slots && 1 <= warm && live + warm <= slots {
      var cs := CrowdOverfills(live, used, warm, slots);
      HostLoads(live, used, warm, slots, cs);
      HostQueue(OneHost(used, slots, warm), live, cs);
      assert PassOverfills(OneHost(used, slots, warm), Opening(live, used, warm), HostWork(live, cs), 7);
    }
  }
}
