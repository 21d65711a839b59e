/**
 The scheduler snapshot as the source keeps it, maps filled by loops and consumed by the pass
 (packages/backend/convex/attemptScheduler.ts).
 */
module Scheduler {
  import opened Common
  import opened Sorting
  import opened Placement
  import opened Capacity

  /** Live work of a Profile on a machine. */
  function ActiveOn(ws: seq<Work>, m: MachineId, p: ProfileName): nat {
    if ws == [] then 0
    else
      var n := |ws| - 1;
      ActiveOn(ws[..n], m, p) + if ws[n].machineId == Some(m) && ws[n].contract.profile == p then 1 else 0
  }

  /** A warm pool report that still describes its Profile. */
  predicate IsWarmRow(f: Fleet, r: Readiness) {
    var p := ActiveProfile(f, r.profile);
    && r.warmPool.Some? && r.machineId in f.machines && p.Some?
    && p.value.contract.executor == r.executor && p.value.contract.imageRelease == r.imageRelease
    && (r.vcpus.Some? ==> r.vcpus.value == p.value.contract.vcpus)
    && (r.memoryMiB.Some? ==> r.memoryMiB.value == p.value.contract.memoryMiB)
    && r.warmPool.value.target == p.value.warmPool
  }

  /** Warm guests of the row that no live work occupies. */
  function IdleGuests(ws: seq<Work>, r: Readiness): nat
    requires r.warmPool.Some?
  {
    var guests := r.warmPool.value.parked + r.warmPool.value.claimed;
    var active := ActiveOn(ws, r.machineId, r.profile);
    if guests > active then guests - active else 0
  }

  function KeyOf(r: Readiness): WarmKey {
    WarmKey(r.machineId, r.profile)
  }

  /** One readiness row a machine and Profile, as the index by both keeps it. */
  ghost predicate UniqueRows(rs: seq<Readiness>) {
    forall i, j :: 0 <= i < j < |rs| ==> KeyOf(rs[i]) != KeyOf(rs[j])
  }

  function SizeIn(reserved: map<MachineId, Size>, m: MachineId): Size {
    if m in reserved then reserved[m] else NOTHING
  }

  function CountIn(active: map<WarmKey, nat>, k: WarmKey): nat {
    if k in active then active[k] else 0
  }

  ghost predicate Tallied(ws: seq<Work>, reserved: map<MachineId, Size>) {
    forall m, d :: SizeIn(reserved, m).Get(d) == LoadOn(ws, m, d)
  }

  ghost predicate Counted(ws: seq<Work>, active: map<WarmKey, nat>) {
    forall k :: CountIn(active, k) == ActiveOn(ws, k.machine, k.profile)
  }

  lemma TallyStep(ws: seq<Work>, i: nat, reserved: map<MachineId, Size>, m: MachineId)
    requires i < |ws| && Tallied(ws[..i], reserved) && ws[i].machineId == Some(m)
    ensures Tallied(ws[..i + 1], reserved[m := SizeIn(reserved, m).Plus(SizeOf(ws[i].contract))])
  {
    assert ws[..i + 1][..i] == ws[..i];
    var reserved' := reserved[m := SizeIn(reserved, m).Plus(SizeOf(ws[i].contract))];
    forall m', d ensures SizeIn(reserved', m').Get(d) == LoadOn(ws[..i + 1], m', d) {
      assert SizeIn(reserved, m').Get(d) == LoadOn(ws[..i], m', d);
    }
  }

  lemma CountStep(ws: seq<Work>, i: nat, active: map<WarmKey, nat>, k: WarmKey)
    requires i < |ws| && Counted(ws[..i], active)
    requires ws[i].machineId == Some(k.machine) && ws[i].contract.profile == k.profile
    ensures Counted(ws[..i + 1], active[k := CountIn(active, k) + 1])
  {
    assert ws[..i + 1][..i] == ws[..i];
    var active' := active[k := CountIn(active, k) + 1];
    forall k' ensures CountIn(active', k') == ActiveOn(ws[..i + 1], k'.machine, k'.profile) {
      assert CountIn(active, k') == ActiveOn(ws[..i], k'.machine, k'.profile);
      assert k' == k <==> k'.machine == k.machine && k'.profile == k.profile;
    }
  }

  lemma SkipStep(ws: seq<Work>, i: nat, reserved: map<MachineId, Size>, active: map<WarmKey, nat>)
    requires i < |ws| && Tallied(ws[..i], reserved) && Counted(ws[..i], active) && ws[i].machineId.None?
    ensures Tallied(ws[..i + 1], reserved) && Counted(ws[..i + 1], active)
  {
    assert ws[..i + 1][..i] == ws[..i];
    forall m, d ensures SizeIn(reserved, m).Get(d) == LoadOn(ws[..i + 1], m, d) {
      assert SizeIn(reserved, m).Get(d) == LoadOn(ws[..i], m, d);
    }
    forall k ensures CountIn(active, k) == ActiveOn(ws[..i + 1], k.machine, k.profile) {
      assert CountIn(active, k) == ActiveOn(ws[..i], k.machine, k.profile);
    }
  }

  /** Live work counted by machine, and by machine and Profile. */
  method LoadWork(ws: seq<Work>) returns (reserved: map<MachineId, Size>, active: map<WarmKey, nat>)
    ensures Tallied(ws, reserved) && Counted(ws, active)
  {
    reserved, active := map[], map[];
    for i := 0 to |ws|
      invariant Tallied(ws[..i], reserved) && Counted(ws[..i], active)
    {
      if ws[i].machineId.None? {
        SkipStep(ws, i, reserved, active);
        continue;
      }
      var m, c := ws[i].machineId.value, ws[i].contract;
      var k := WarmKey(m, c.profile);
      TallyStep(ws, i, reserved, m);
      CountStep(ws, i, active, k);
      reserved := reserved[m := SizeIn(reserved, m).Plus(SizeOf(c))];
      active := active[k := CountIn(active, k) + 1];
    }
    assert ws[..|ws|] == ws;
  }

  /** Idle guests are exactly the spare ones of the rows that describe their Profile. */
  ghost predicate IdleIsSpare(f: Fleet, ws: seq<Work>, rs: seq<Readiness>, idle: map<WarmKey, nat>) {
    && (forall i :: 0 <= i < |rs| && IsWarmRow(f, rs[i]) ==> CountIn(idle, KeyOf(rs[i])) == IdleGuests(ws, rs[i]))
    && (forall k :: k in idle ==> exists i :: 0 <= i < |rs| && KeyOf(rs[i]) == k && IsWarmRow(f, rs[i]))
  }

  ghost predicate LedgerBalances(f: Fleet, ws: seq<Work>, l: Ledger) {
    forall m, d :: ConservedAt(f, l, LoadOn(ws, m, d), 0, m, d)
  }

  /** What a warm row adds to the idle map and to its machine's reservation. */
  function WithIdle(l: Ledger, r: Readiness, c: Contract, spare: nat): Ledger {
    Ledger(l.reserved[r.machineId := ReservedOn(l, r.machineId).Plus(Times(spare, SizeOf(c)))],
           l.idle[KeyOf(r) := spare], l.used)
  }

  lemma {:induction false} NoWarmGuests(ps: seq<Profile>, l: Ledger, m: MachineId, d: Dimension)
    requires l.idle == map[]
    ensures WarmOn(ps, l, m, d) == 0
  {
    if ps != [] {
      NoWarmGuests(ps[..|ps| - 1], l, m, d);
    }
  }

  lemma AddingIdleHere(f: Fleet, l: Ledger, r: Readiness, c: Contract, spare: nat, live: nat, d: Dimension)
    requires DistinctNames(f.profiles) && MatchesActiveProfile(f, c) && c.profile == r.profile && KeyOf(r) !in l.idle
    requires ConservedAt(f, l, live, 0, r.machineId, d)
    ensures ConservedAt(f, WithIdle(l, r, c, spare), live, 0, r.machineId, d)
  {
    var l', m := WithIdle(l, r, c, spare), r.machineId;
    var k := IndexOfActive(f.profiles, c);
    forall i | 0 <= i < |f.profiles| && i != k
      ensures IdleOn(l, m, f.profiles[i].contract.profile) == IdleOn(l', m, f.profiles[i].contract.profile)
    {
      assert WarmKey(m, f.profiles[i].contract.profile) != KeyOf(r);
    }
    WarmChanges(f.profiles, l, l', m, k, d);
  }

  lemma AddingIdle(f: Fleet, ws: seq<Work>, l: Ledger, r: Readiness, c: Contract, spare: nat)
    requires DistinctNames(f.profiles) && MatchesActiveProfile(f, c) && c.profile == r.profile && KeyOf(r) !in l.idle
    requires LedgerBalances(f, ws, l)
    ensures LedgerBalances(f, ws, WithIdle(l, r, c, spare))
  {
    var l' := WithIdle(l, r, c, spare);
    forall m, d ensures ConservedAt(f, l', LoadOn(ws, m, d), 0, m, d) {
      assert ConservedAt(f, l, LoadOn(ws, m, d), 0, m, d);
      if m == r.machineId {
        AddingIdleHere(f, l, r, c, spare, LoadOn(ws, m, d), d);
      } else {
        WarmUnchanged(f.profiles, l, l', m, d);
      }
    }
  }

  lemma SpareStep(f: Fleet, ws: seq<Work>, rs: seq<Readiness>, i: nat, idle: map<WarmKey, nat>)
    requires UniqueRows(rs) && i < |rs| && IdleIsSpare(f, ws, rs[..i], idle)
    ensures KeyOf(rs[i]) !in idle
    ensures var r := rs[i];
            IdleIsSpare(f, ws, rs[..i + 1],
              if IsWarmRow(f, r) && IdleGuests(ws, r) > 0 then idle[KeyOf(r) := IdleGuests(ws, r)] else idle)
  {
    var r, seen, next := rs[i], rs[..i], rs[..i + 1];
    var idle' := if IsWarmRow(f, r) && IdleGuests(ws, r) > 0 then idle[KeyOf(r) := IdleGuests(ws, r)] else idle;
    assert next == seen + [r];
    forall k | k in idle ensures k != KeyOf(r) {
      var j :| 0 <= j < |seen| && KeyOf(seen[j]) == k && IsWarmRow(f, seen[j]);
    }
    forall k | k in idle' ensures exists j :: 0 <= j < |next| && KeyOf(next[j]) == k && IsWarmRow(f, next[j]) {
      if k in idle {
        var j :| 0 <= j < |seen| && KeyOf(seen[j]) == k && IsWarmRow(f, seen[j]);
        assert next[j] == seen[j];
      } else {
        assert next[i] == r;
      }
    }
    forall j | 0 <= j < |next| && IsWarmRow(f, next[j])
      ensures CountIn(idle', KeyOf(next[j])) == IdleGuests(ws, next[j])
    {
      if j < i {
        assert next[j] == seen[j];
      }
    }
  }

  lemma StartsBalanced(f: Fleet, ws: seq<Work>, l: Ledger)
    requires Tallied(ws, l.reserved) && l.idle == map[]
    ensures LedgerBalances(f, ws, l)
  {
    forall m, d ensures ConservedAt(f, l, LoadOn(ws, m, d), 0, m, d) {
      NoWarmGuests(f.profiles, l, m, d);
      assert SizeIn(l.reserved, m).Get(d) == LoadOn(ws, m, d);
    }
  }

  /** The ledger agrees with the rows read so far. */
  ghost predicate Loaded(f: Fleet, ws: seq<Work>, rs: seq<Readiness>, l: Ledger) {
    LedgerBalances(f, ws, l) && IdleIsSpare(f, ws, rs, l.idle)
  }

  /** What one readiness row does, given how many of its guests live work occupies. */
  function WithRow(f: Fleet, l: Ledger, r: Readiness, busy: nat): Ledger {
    if !IsWarmRow(f, r) then l
    else
      var guests := r.warmPool.value.parked + r.warmPool.value.claimed;
      if guests <= busy then l
      else WithIdle(l, r, ActiveProfile(f, r.profile).value.contract, guests - busy)
  }

  lemma RowStep(f: Fleet, ws: seq<Work>, rs: seq<Readiness>, i: nat, l: Ledger)
    requires DistinctNames(f.profiles) && UniqueRows(rs) && i < |rs| && Loaded(f, ws, rs[..i], l)
    ensures Loaded(f, ws, rs[..i + 1], WithRow(f, l, rs[i], ActiveOn(ws, rs[i].machineId, rs[i].profile)))
  {
    var r := rs[i];
    SpareStep(f, ws, rs, i, l.idle);
    if IsWarmRow(f, r) && IdleGuests(ws, r) > 0 {
      AddingIdle(f, ws, l, r, ActiveProfile(f, r.profile).value.contract, IdleGuests(ws, r));
    }
  }

  /** Warm pools: their spare guests join the reservations and the idle map. */
  method LoadWarm(f: Fleet, ws: seq<Work>, rs: seq<Readiness>, start: Ledger, active: map<WarmKey, nat>)
    returns (l: Ledger)
    requires DistinctNames(f.profiles) && UniqueRows(rs)
    requires Tallied(ws, start.reserved) && start.idle == map[] && Counted(ws, active)
    ensures Loaded(f, ws, rs, l) && l.used == start.used
  {
    l := start;
    StartsBalanced(f, ws, l);
    for i := 0 to |rs|
      invariant Loaded(f, ws, rs[..i], l) && l.used == start.used
    {
      RowStep(f, ws, rs, i, l);
      assert CountIn(active, KeyOf(rs[i])) == ActiveOn(ws, rs[i].machineId, rs[i].profile);
      l := WithRow(f, l, rs[i], CountIn(active, KeyOf(rs[i])));
    }
    assert rs[..|rs|] == rs;
  }

  // ---------------------------------------------------------------------------------------------
  // Ready rows by Profile

  /** The ready rows of a Profile, in the order read. */
  function ReadyRows(rs: seq<Readiness>, p: ProfileName): seq<Readiness> {
    if rs == [] then []
    else
      var n := |rs| - 1;
      ReadyRows(rs[..n], p) + if rs[n].ready && rs[n].profile == p then [rs[n]] else []
  }

  function RowsIn(ready: map<ProfileName, seq<Readiness>>, p: ProfileName): seq<Readiness> {
    if p in ready then ready[p] else []
  }

  method LoadReady(rs: seq<Readiness>) returns (ready: map<ProfileName, seq<Readiness>>)
    ensures forall p :: RowsIn(ready, p) == ReadyRows(rs, p)
  {
    ready := map[];
    for i := 0 to |rs|
      invariant forall p :: RowsIn(ready, p) == ReadyRows(rs[..i], p)
    {
      assert rs[..i + 1][..i] == rs[..i];
      if rs[i].ready {
        ready := ready[rs[i].profile := RowsIn(ready, rs[i].profile) + [rs[i]]];
      }
    }
    assert rs[..|rs|] == rs;
  }

  // ---------------------------------------------------------------------------------------------
  // Candidates in rank order

  datatype Candidate = Candidate(rank: Rank, row: Readiness)

  ghost predicate Ranked(xs: seq<Candidate>) {
    forall i, j :: 0 <= i < j < |xs| ==> !xs[j].rank.Before(xs[i].rank)
  }

  function InsertCandidate(x: Candidate, xs: seq<Candidate>): seq<Candidate> {
    if xs == [] || x.rank.Before(xs[0].rank) then [x] + xs else [xs[0]] + InsertCandidate(x, xs[1..])
  }

  lemma {:induction false} InsertCandidateRanks(x: Candidate, xs: seq<Candidate>)
    requires Ranked(xs)
    ensures Ranked(InsertCandidate(x, xs))
    ensures forall y :: y in InsertCandidate(x, xs) <==> y == x || y in xs
  {
    if xs == [] || x.rank.Before(xs[0].rank) {
      HeadFirst(x, xs);
    } else {
      assert xs == [xs[0]] + xs[1..];
      InsertCandidateRanks(x, xs[1..]);
      HeadFirst(xs[0], InsertCandidate(x, xs[1..]));
    }
  }

  lemma HeadFirst(x: Candidate, xs: seq<Candidate>)
    requires Ranked(xs)
    requires forall y :: y in xs ==> !y.rank.Before(x.rank) || (xs != [] && x.rank.Before(xs[0].rank))
    ensures Ranked([x] + xs)
  {
    var all := [x] + xs;
    forall i, j | 0 <= i < j < |all| ensures !all[j].rank.Before(all[i].rank) {
      assert all[j] == xs[j - 1] && xs[j - 1] in xs;
      if i == 0 && j > 1 && x.rank.Before(xs[0].rank) {
        assert !xs[j - 1].rank.Before(xs[0].rank);
      }
    }
  }

  /** The candidate stands for an eligible row of the list, under its rank. */
  ghost predicate Stands(f: Fleet, l: Ledger, c: Contract, rs: seq<Readiness>, x: Candidate) {
    x.row in rs && Eligible(f, l, c, x.row) && x.rank == RankOf(f, l, c, x.row)
  }

  /** Exactly the eligible rows, in rank order, the chosen one first. */
  ghost predicate Lists(f: Fleet, l: Ledger, c: Contract, rs: seq<Readiness>, sorted: seq<Candidate>) {
    && Ranked(sorted)
    && (forall x :: x in sorted <==> Stands(f, l, c, rs, x))
    && Choose(f, l, c, rs) == if sorted == [] then None else Some(sorted[0].row)
  }

  lemma StandsSnoc(f: Fleet, l: Ledger, c: Contract, rs: seq<Readiness>, x: Candidate)
    requires rs != []
    ensures Stands(f, l, c, rs, x) <==>
            Stands(f, l, c, rs[..|rs| - 1], x) || Stands(f, l, c, [rs[|rs| - 1]], x)
  {
    assert rs == rs[..|rs| - 1] + [rs[|rs| - 1]];
  }

  /** One more row read: it takes its place if it is eligible. */
  function WithEntrant(f: Fleet, l: Ledger, c: Contract, r: Readiness, sorted: seq<Candidate>): seq<Candidate> {
    if Eligible(f, l, c, r) then InsertCandidate(Candidate(RankOf(f, l, c, r), r), sorted) else sorted
  }

  lemma OneMoreListed(f: Fleet, l: Ledger, c: Contract, rs: seq<Readiness>, sorted: seq<Candidate>)
    requires rs != [] && Lists(f, l, c, rs[..|rs| - 1], sorted)
    ensures Lists(f, l, c, rs, WithEntrant(f, l, c, rs[|rs| - 1], sorted))
  {
    var r := rs[|rs| - 1];
    forall x ensures Stands(f, l, c, rs, x) <==> x in sorted || Stands(f, l, c, [r], x) {
      StandsSnoc(f, l, c, rs, x);
    }
    if Eligible(f, l, c, r) {
      InsertCandidateRanks(Candidate(RankOf(f, l, c, r), r), sorted);
      assert sorted != [] ==> Stands(f, l, c, rs[..|rs| - 1], sorted[0]);
    }
  }

  /** The eligible rows under their ranks, in the order read. */
  function Entrants(f: Fleet, l: Ledger, c: Contract, rs: seq<Readiness>): seq<Candidate> {
    if rs == [] then []
    else
      var n := |rs| - 1;
      Entrants(f, l, c, rs[..n]) +
      if Eligible(f, l, c, rs[n]) then [Candidate(RankOf(f, l, c, rs[n]), rs[n])] else []
  }

  /** Each eligible row is listed as often as it was read. */
  ghost predicate ListsAll(f: Fleet, l: Ledger, c: Contract, rs: seq<Readiness>, sorted: seq<Candidate>) {
    multiset(sorted) == multiset(Entrants(f, l, c, rs))
  }

  lemma {:induction false} InsertAddsOne(x: Candidate, xs: seq<Candidate>)
    ensures multiset(InsertCandidate(x, xs)) == multiset(xs) + multiset{x}
  {
    if xs != [] && !x.rank.Before(xs[0].rank) {
      assert xs == [xs[0]] + xs[1..];
      InsertAddsOne(x, xs[1..]);
    }
  }

  lemma OneMoreEntrant(f: Fleet, l: Ledger, c: Contract, rs: seq<Readiness>, sorted: seq<Candidate>)
    requires rs != [] && ListsAll(f, l, c, rs[..|rs| - 1], sorted)
    ensures ListsAll(f, l, c, rs, WithEntrant(f, l, c, rs[|rs| - 1], sorted))
  {
    var r := rs[|rs| - 1];
    if Eligible(f, l, c, r) {
      InsertAddsOne(Candidate(RankOf(f, l, c, r), r), sorted);
    }
  }

  method SortCandidates(f: Fleet, l: Ledger, c: Contract) returns (sorted: seq<Candidate>)
    ensures Lists(f, l, c, Candidates(f, c), sorted) && ListsAll(f, l, c, Candidates(f, c), sorted)
  {
    var rs := Candidates(f, c);
    sorted := [];
    for i := 0 to |rs|
      invariant Lists(f, l, c, rs[..i], sorted) && ListsAll(f, l, c, rs[..i], sorted)
    {
      assert rs[..i + 1][..i] == rs[..i];
      OneMoreListed(f, l, c, rs[..i + 1], sorted);
      OneMoreEntrant(f, l, c, rs[..i + 1], sorted);
      sorted := WithEntrant(f, l, c, rs[i], sorted);
    }
    assert rs[..|rs|] == rs;
  }

  /** The machine of the best candidate, if there is one. */
  method FirstCandidate(f: Fleet, l: Ledger, c: Contract) returns (m: Option<MachineId>)
    ensures m == Pick(f, l, c)
  {
    var sorted := SortCandidates(f, l, c);
    if sorted == [] {
      return None;
    }
    return Some(sorted[0].row.machineId);
  }

  /** What the loader makes of the rows: a balanced ledger, the stored slots, the ready rows as candidates. */
  ghost predicate LoadedFrom(f: Fleet, l: Ledger, work: seq<Work>, readiness: seq<Readiness>) {
    && DistinctNames(f.profiles) && UniqueRows(readiness)
    && (forall p :: RowsIn(f.ready, p) == ReadyRows(readiness, p))
    && Loaded(f, work, readiness, l)
    && l.used.Keys == f.machines.Keys && forall m :: m in l.used ==> l.used[m] == f.machines[m].usedSlots
  }

  class Snapshot {
    const fleet: Fleet
    var reserved: map<MachineId, Size>
    var idle: map<WarmKey, nat>
    var used: map<MachineId, nat>

    function View(): Ledger
      reads this
    {
      Ledger(reserved, idle, used)
    }

    constructor Load(now: int, machines: map<MachineId, Machine>, profiles: seq<Profile>, work: seq<Work>,
                     readiness: seq<Readiness>)
      requires DistinctNames(profiles) && UniqueRows(readiness)
      ensures fleet == Fleet(now, machines, profiles, fleet.ready)
      ensures LoadedFrom(fleet, View(), work, readiness)
    {
      var ready := LoadReady(readiness);
      var f := Fleet(now, machines, profiles, ready);
      var slots := map m | m in machines :: machines[m].usedSlots;
      var live, active := LoadWork(work);
      var l := LoadWarm(f, work, readiness, Ledger(live, map[], slots), active);
      fleet := f;
      reserved, idle, used := l.reserved, l.idle, l.used;
    }

    /** Places the contracts in order, updating the three maps after each. */
    method PlaceInOrder(cs: seq<Contract>) returns (slots: seq<Option<MachineId>>)
      modifies this
      ensures slots == Slots(fleet, old(View()), cs)
      ensures View() == Placed(fleet, old(View()), cs)
    {
      slots := [];
      ghost var l0 := View();
      for i := 0 to |cs|
        invariant View() == Placed(fleet, l0, cs[..i])
        invariant |slots| == i && forall k :: 0 <= k < i ==> slots[k] == Slot(fleet, l0, cs, k)
      {
        assert cs[..i + 1][..i] == cs[..i];
        var choice := FirstCandidate(fleet, View(), cs[i]);
        slots := slots + [choice];
        if choice.Some? {
          Take(choice.value, cs[i]);
        }
      }
      assert cs[..|cs|] == cs;
    }

    method Take(m: MachineId, c: Contract)
      modifies this
      ensures View() == Commit(old(View()), m, c)
    {
      var warm := UsesWarm(View(), m, c);
      var size := ReservedOn(View(), m);
      used := used[m := UsedOn(View(), m) + 1];
      if warm {
        idle := TakeWarm(idle, WarmKey(m, c.profile));
      } else {
        size := size.Plus(SizeOf(c));
      }
      reserved := reserved[m := size];
    }
  }

  // ---------------------------------------------------------------------------------------------
  // One assignment pass, from rows to placements

  /** Item `i` is the older of two with the same Profile. */
  predicate Before(queue: seq<Keyed<Work>>, i: nat, j: nat)
    requires i < |queue| && j < |queue|
  {
    && queue[i].item.contract.profile == queue[j].item.contract.profile
    && queue[i].item.createdAt < queue[j].item.createdAt
  }

  /** What the placements give the machine. */
  function Given(cs: seq<Contract>, slots: seq<Option<MachineId>>, m: MachineId, d: Dimension): nat
    requires |slots| == |cs|
  {
    if cs == [] then 0
    else
      var n := |cs| - 1;
      Given(cs[..n], slots[..n], m, d) + if slots[n] == Some(m) then Demand(cs[n], d) else 0
  }

  lemma {:induction false} GivenIsPlaced(f: Fleet, l: Ledger, cs: seq<Contract>, slots: seq<Option<MachineId>>,
                                         m: MachineId, d: Dimension)
    requires |slots| == |cs| && forall i :: 0 <= i < |cs| ==> slots[i] == Slot(f, l, cs, i)
    ensures Given(cs, slots, m, d) == PlacedOn(f, l, cs, m, d)
  {
    if cs != [] {
      var n := |cs| - 1;
      forall i | 0 <= i < n ensures slots[..n][i] == Slot(f, l, cs[..n], i) {
        SlotOfPrefix(f, l, cs, n, i);
      }
      GivenIsPlaced(f, l, cs[..n], slots[..n], m, d);
    }
  }

  /** What a pass promises about a machine that was given work, in terms of the rows it started from. */
  ghost predicate Kept(work: seq<Work>, cs: seq<Contract>, slots: seq<Option<MachineId>>, id: MachineId, m: Machine)
    requires |slots| == |cs|
  {
    var guests := Given(cs, slots, id, Guests);
    && (m.cpus.Some? ==> LoadOn(work, id, Vcpus) + Given(cs, slots, id, Vcpus) <= m.cpus.value)
    && (m.memoryMiB.Some? ==> LoadOn(work, id, Memory) + Given(cs, slots, id, Memory) <= m.memoryMiB.value)
    && LoadOn(work, id, Guests) + guests <= m.maxSlots
    && m.usedSlots + guests <= m.maxSlots + 1
    && (m.usedSlots <= LoadOn(work, id, Guests) ==> m.usedSlots + guests <= m.maxSlots)
  }

  lemma PassKeeps(f: Fleet, l: Ledger, work: seq<Work>, cs: seq<Contract>, slots: seq<Option<MachineId>>, i: nat)
    requires LedgerBalances(f, work, l) && Queued(f, cs) && |slots| == |cs| && i < |cs|
    requires forall k :: 0 <= k < |cs| ==> slots[k] == Slot(f, l, cs, k)
    requires slots[i].Some? && forall m :: m in f.machines ==> UsedOn(l, m) == f.machines[m].usedSlots
    ensures slots[i].value in f.machines && Kept(work, cs, slots, slots[i].value, f.machines[slots[i].value])
  {
    var m := slots[i].value;
    PassStaysWithin(f, l, cs, m);
    forall d ensures ConservedAt(f, l, LoadOn(work, m, d), 0, m, d) &&
                     ConservedAt(f, Placed(f, l, cs), LoadOn(work, m, d), Given(cs, slots, m, d), m, d)
    {
      GivenIsPlaced(f, l, cs, slots, m, d);
      PassConserves(f, l, cs, LoadOn(work, m, d), m, d);
    }
    AtMostOneOver(f, l, cs, m);
    GivenIsPlaced(f, l, cs, slots, m, Guests);
    UsedCountsPlacements(f, l, cs, m);
    if UsedOn(l, m) <= LoadOn(work, m, Guests) {
      PassKeepsSlots(f, l, cs, LoadOn(work, m, Guests), m);
    }
    assert ConservedAt(f, Placed(f, l, cs), LoadOn(work, m, Vcpus), Given(cs, slots, m, Vcpus), m, Vcpus);
    assert ConservedAt(f, Placed(f, l, cs), LoadOn(work, m, Memory), Given(cs, slots, m, Memory), m, Memory);
    assert ConservedAt(f, Placed(f, l, cs), LoadOn(work, m, Guests), Given(cs, slots, m, Guests), m, Guests);
  }

  /** An item that asks for at least its host's CPUs has a host of exactly that size to itself. */
  ghost predicate OwnHost(work: seq<Work>, cs: seq<Contract>, slots: seq<Option<MachineId>>, i: nat, m: Machine)
    requires |slots| == |cs| && i < |cs| && slots[i].Some?
  {
    m.cpus.Some? && m.cpus.value <= cs[i].vcpus ==>
      && m.cpus.value == cs[i].vcpus && LoadOn(work, slots[i].value, Vcpus) == 0
      && Given(cs, slots, slots[i].value, Guests) == 1
  }

  lemma PassGivesOwnHost(f: Fleet, l: Ledger, work: seq<Work>, cs: seq<Contract>, slots: seq<Option<MachineId>>, i: nat)
    requires LedgerBalances(f, work, l) && Queued(f, cs) && |slots| == |cs| && i < |cs|
    requires forall k :: 0 <= k < |cs| ==> slots[k] == Slot(f, l, cs, k)
    requires slots[i].Some? && slots[i].value in f.machines
    ensures OwnHost(work, cs, slots, i, f.machines[slots[i].value])
  {
    var m := slots[i].value;
    if f.machines[m].cpus.Some? && f.machines[m].cpus.value <= cs[i].vcpus {
      assert ConservedAt(f, l, LoadOn(work, m, Vcpus), 0, m, Vcpus);
      WholeHost(f, l, cs, LoadOn(work, m, Vcpus), m, i);
      GivenIsPlaced(f, l, cs, slots, m, Guests);
    }
  }

  /** Every candidate for the contract is turned away. */
  ghost predicate NoRoom(f: Fleet, l: Ledger, c: Contract) {
    forall r :: r in Candidates(f, c) ==> !Eligible(f, l, c, r)
  }

  /**
   `tryAssign`: load the rows, queue the unassigned work and place it. `queue` is the work in the order
   it was considered, `slots` where each item goes, `used` the slots to write back; `fleet` and `before`
   are the snapshot the pass started from. An item it leaves out has no room on what it leaves.
   */
  method TryAssign(now: int, machines: map<MachineId, Machine>, profiles: seq<Profile>, work: seq<Work>,
                   readiness: seq<Readiness>)
    returns (queue: seq<Keyed<Work>>, slots: seq<Option<MachineId>>, used: map<MachineId, nat>, ghost fleet: Fleet,
             ghost before: Ledger)
    requires DistinctNames(profiles) && UniqueRows(readiness)
    ensures fleet == Fleet(now, machines, profiles, fleet.ready) && LoadedFrom(fleet, before, work, readiness)
    ensures queue == Queue(fleet, work) && |slots| == |queue| && slots == Slots(fleet, before, Contracts(queue))
    ensures forall i :: 0 <= i < |slots| && slots[i].None? ==>
              NoRoom(fleet, Placed(fleet, before, Contracts(queue)), queue[i].item.contract)
    ensures forall i :: 0 <= i < |slots| && slots[i].Some? ==>
              && slots[i].value in machines
              && Kept(work, Contracts(queue), slots, slots[i].value, machines[slots[i].value])
    ensures forall i :: 0 <= i < |slots| && slots[i].Some? ==>
              OwnHost(work, Contracts(queue), slots, i, machines[slots[i].value])
    ensures forall m :: m in machines ==>
              m in used && used[m] == machines[m].usedSlots + Given(Contracts(queue), slots, m, Guests)
    ensures forall i, j :: 0 <= i < |slots| && 0 <= j < |slots| && Before(queue, i, j) && slots[j].Some? ==>
              slots[i].Some?
  {
    var snapshot := new Snapshot.Load(now, machines, profiles, work, readiness);
    fleet := snapshot.fleet;
    before := snapshot.View();
    ghost var l := before;
    queue := Queue(snapshot.fleet, work);
    QueueIsOldestFirst(fleet, work);
    var cs := Contracts(queue);
    slots := snapshot.PlaceInOrder(cs);
    used := snapshot.used;
    forall i | 0 <= i < |slots| && slots[i].None? ensures NoRoom(fleet, Placed(fleet, l, cs), cs[i]) {
      LeftOutHasNoRoom(fleet, l, cs, i);
    }
    forall i | 0 <= i < |slots| && slots[i].Some?
      ensures slots[i].value in machines && Kept(work, cs, slots, slots[i].value, machines[slots[i].value])
    {
      PassKeeps(fleet, l, work, cs, slots, i);
    }
    forall i | 0 <= i < |slots| && slots[i].Some? ensures OwnHost(work, cs, slots, i, machines[slots[i].value]) {
      PassGivesOwnHost(fleet, l, work, cs, slots, i);
    }
    forall m | m in machines ensures m in used && used[m] == machines[m].usedSlots + Given(cs, slots, m, Guests) {
      UsedIsCounted(fleet, l, cs, slots, m);
    }
    forall i, j | 0 <= i < |slots| && 0 <= j < |slots| && Before(queue, i, j) && slots[j].Some? ensures slots[i].Some?
    {
      OlderFirst(fleet, l, work, i, j);
    }
  }

  lemma UsedIsCounted(f: Fleet, l: Ledger, cs: seq<Contract>, slots: seq<Option<MachineId>>, m: MachineId)
    requires |slots| == |cs| && forall i :: 0 <= i < |cs| ==> slots[i] == Slot(f, l, cs, i)
    requires m in l.used
    ensures m in Placed(f, l, cs).used && Placed(f, l, cs).used[m] == l.used[m] + Given(cs, slots, m, Guests)
  {
    GivenIsPlaced(f, l, cs, slots, m, Guests);
    UsedCountsPlacements(f, l, cs, m);
    UsedStays(f, l, cs, m);
  }

  lemma {:induction false} UsedStays(f: Fleet, l: Ledger, cs: seq<Contract>, m: MachineId)
    requires m in l.used
    ensures m in Placed(f, l, cs).used
  {
    if cs != [] {
      UsedStays(f, l, cs[..|cs| - 1], m);
    }
  }
}
