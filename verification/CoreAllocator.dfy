/**
 The Worker's core allocator and its reconcile pass against the containers Docker runs
 (apps/action-runner-agent/cpuset.ts). The parsed `docker inspect` output is an input.
 */
module CoreAllocator {
  import opened Common
  import opened Cpuset

  /** The source's `attempt:<id>`, `experiment:<id>`, `readiness:<profile>` and `container:<name>`. */
  datatype WorkKey = Attempt(id: string) | Experiment(id: string) | Readiness(profile: string) | Container(name: string)

  datatype Reservation = Reservation(cores: seq<nat>, spec: string, containerName: Option<string>, adopted: bool)

  datatype Cores = Cores(total: nat, free: set<nat>, held: map<WorkKey, Reservation>)

  /** A running container and the cores it is pinned to. */
  datatype Live = Live(name: string, cores: seq<nat>)

  function Elements(cores: seq<nat>): set<nat> {
    set c | c in cores
  }

  // ---------------------------------------------------------------------------------------------
  // The invariant

  ghost predicate Owns(st: Cores, k: WorkKey, c: nat) {
    k in st.held && c in st.held[k].cores
  }

  /** Free cores and reservations are disjoint and together are 0..total-1. */
  ghost predicate Partition(st: Cores) {
    && (forall c :: c in st.free ==> c < st.total)
    && (forall k, c: nat :: Owns(st, k, c) ==> c < st.total && c !in st.free)
    && (forall k, k', c: nat :: Owns(st, k, c) && Owns(st, k', c) ==> k == k')
    && (forall c: nat :: c < st.total && c !in st.free ==> exists k :: Owns(st, k, c))
  }

  /** Exactly the `container:` keys are adopted, each under its container's name. */
  ghost predicate WellKept(st: Cores) {
    forall k :: k in st.held ==>
      && (st.held[k].adopted <==> k.Container?)
      && (k.Container? ==> st.held[k].containerName == Some(k.name))
      && st.held[k].cores != [] && Increasing(st.held[k].cores)
      && st.held[k].spec == Printed(st.held[k].cores)
  }

  ghost predicate Valid(st: Cores) {
    Partition(st) && WellKept(st)
  }

  // ---------------------------------------------------------------------------------------------
  // Operations

  function AllBelow(n: nat): (s: set<nat>)
    ensures forall c: nat :: c in s <==> c < n
  {
    if n == 0 then {} else AllBelow(n - 1) + {n - 1}
  }

  function Fresh(n: nat): Cores {
    Cores(n, AllBelow(n), map[])
  }

  function Record(st: Cores, key: WorkKey, cores: seq<nat>, name: Option<string>, adopted: bool): Cores {
    Cores(st.total, st.free - Elements(cores),
          st.held[key := Reservation(cores, Printed(cores), name, adopted)])
  }

  function Released(st: Cores, key: WorkKey): Cores {
    if key in st.held then Cores(st.total, st.free + Elements(st.held[key].cores), st.held - {key}) else st
  }

  /** The members of `s` from `lo` up to `hi`, ascending. */
  function Ascending(s: set<nat>, lo: nat, hi: nat): seq<nat>
    requires lo <= hi
    decreases hi - lo
  {
    if lo == hi then [] else (if lo in s then [lo] else []) + Ascending(s, lo + 1, hi)
  }

  predicate CanReserve(st: Cores, key: WorkKey, vcpus: int) {
    1 <= vcpus <= |st.free| && key !in st.held
  }

  function Reserved(st: Cores, key: WorkKey, vcpus: int, name: Option<string>): Cores {
    var lowest := Ascending(st.free, 0, st.total);
    if CanReserve(st, key, vcpus) && vcpus <= |lowest| then Record(st, key, lowest[..vcpus], name, false) else st
  }

  predicate CanHold(st: Cores, cores: seq<nat>) {
    cores != [] && forall c :: c in cores ==> c in st.free
  }

  function Held(st: Cores, key: WorkKey, cores: seq<nat>, name: Option<string>): Cores {
    if CanHold(st, cores) && key !in st.held then Record(st, key, cores, name, true) else st
  }

  lemma RecordKeepsPartition(st: Cores, key: WorkKey, cores: seq<nat>, name: Option<string>, adopted: bool)
    requires Partition(st) && key !in st.held && forall c :: c in cores ==> c in st.free
    ensures Partition(Record(st, key, cores, name, adopted))
  {
    var st' := Record(st, key, cores, name, adopted);
    forall k, c: nat | k != key ensures Owns(st', k, c) <==> Owns(st, k, c) {
    }
    forall c: nat | c < st'.total && c !in st'.free ensures exists k :: Owns(st', k, c) {
      if c in cores {
        assert Owns(st', key, c);
      } else {
        var k :| Owns(st, k, c);
        assert Owns(st', k, c);
      }
    }
  }

  lemma ReleaseKeepsPartition(st: Cores, key: WorkKey)
    requires Partition(st)
    ensures Partition(Released(st, key))
  {
    if key in st.held {
      assert Released(st, key) == Without(st, {key}) by {
        assert CoresOf(st, {key}) == Elements(st.held[key].cores);
      }
      WithoutKeepsPartition(st, {key});
    }
  }

  function CoresOf(st: Cores, keys: set<WorkKey>): set<nat> {
    set k, c | k in keys && k in st.held && c in st.held[k].cores :: c
  }

  /** The allocator with the reservations of `keys` given back. */
  function Without(st: Cores, keys: set<WorkKey>): Cores {
    Cores(st.total, st.free + CoresOf(st, keys), st.held - keys)
  }

  lemma WithoutKeepsPartition(st: Cores, keys: set<WorkKey>)
    requires Partition(st)
    ensures Partition(Without(st, keys))
  {
    var st' := Without(st, keys);
    forall k, c: nat ensures Owns(st', k, c) <==> Owns(st, k, c) && k !in keys {
    }
    forall c: nat | c in CoresOf(st, keys) ensures exists k :: k in keys && Owns(st, k, c) {
      var k :| k in keys && k in st.held && c in st.held[k].cores;
      assert Owns(st, k, c);
    }
    forall c: nat | c < st'.total && c !in st'.free ensures exists k :: Owns(st', k, c) {
      var k :| Owns(st, k, c);
      assert Owns(st', k, c);
    }
  }

  /** A release puts back exactly what the reservation took, so a reserve followed by it is nothing. */
  lemma ReleaseUndoesRecord(st: Cores, key: WorkKey, cores: seq<nat>, name: Option<string>, adopted: bool)
    requires key !in st.held && forall c :: c in cores ==> c in st.free
    ensures Released(Record(st, key, cores, name, adopted), key) == st
  {
    assert st.held[key := Reservation(cores, Printed(cores), name, adopted)] - {key} == st.held;
    assert st.free - Elements(cores) + Elements(cores) == st.free;
  }

  // ---------------------------------------------------------------------------------------------
  // Lowest cores first

  lemma {:induction false} AscendingHas(s: set<nat>, lo: nat, hi: nat)
    requires lo <= hi
    ensures forall c: nat :: c in Ascending(s, lo, hi) <==> c in s && lo <= c < hi
    decreases hi - lo
  {
    if lo < hi {
      AscendingHas(s, lo + 1, hi);
    }
  }

  lemma IncreasingCons(x: nat, tail: seq<nat>)
    requires Increasing(tail) && forall c :: c in tail ==> x < c
    ensures Increasing([x] + tail)
  {
    var all := [x] + tail;
    forall i, j | 0 <= i < j < |all| ensures all[i] < all[j] {
      assert all[j] == tail[j - 1];
      assert tail[j - 1] in tail;
    }
  }

  lemma {:induction false} AscendingIsSorted(s: set<nat>, lo: nat, hi: nat)
    requires lo <= hi
    ensures Increasing(Ascending(s, lo, hi))
    ensures forall c: nat :: c in Ascending(s, lo, hi) <==> c in s && lo <= c < hi
    decreases hi - lo
  {
    AscendingHas(s, lo, hi);
    if lo < hi {
      AscendingIsSorted(s, lo + 1, hi);
      IncreasingCons(lo, Ascending(s, lo + 1, hi));
    }
  }

  lemma {:induction false} AscendingCounts(s: set<nat>, lo: nat, hi: nat)
    requires lo <= hi && forall c :: c in s ==> lo <= c < hi
    ensures |Ascending(s, lo, hi)| == |s|
    decreases hi - lo
  {
    if lo == hi {
      assert s == {};
    } else {
      AscendingCounts(s - {lo}, lo + 1, hi);
      SameAbove(s, lo + 1, hi, lo);
    }
  }

  lemma {:induction false} SameAbove(s: set<nat>, lo: nat, hi: nat, x: nat)
    requires lo <= hi && x < lo
    ensures Ascending(s - {x}, lo, hi) == Ascending(s, lo, hi)
    decreases hi - lo
  {
    if lo < hi {
      SameAbove(s, lo + 1, hi, x);
    }
  }

  lemma EnoughFree(st: Cores)
    requires Partition(st)
    ensures |Ascending(st.free, 0, st.total)| == |st.free|
  {
    AscendingCounts(st.free, 0, st.total);
  }

  /** A reservation that asks for more cores than are free, for none, or under a held key takes nothing. */
  lemma ReserveRefuses(st: Cores, key: WorkKey, vcpus: int, name: Option<string>)
    requires vcpus < 1 || vcpus > |st.free| || key in st.held
    ensures Reserved(st, key, vcpus, name) == st
  {
  }

  /** Any other gets `vcpus` free cores, down to the last free one, and no free core below any of them is left. */
  lemma ReserveTakesLowest(st: Cores, key: WorkKey, vcpus: int, name: Option<string>)
    requires Valid(st) && 1 <= vcpus <= |st.free| && key !in st.held
    ensures var st' := Reserved(st, key, vcpus, name);
            && key in st'.held
            && var cores := st'.held[key].cores;
               && |cores| == vcpus && Increasing(cores) && Elements(cores) <= st.free
               && st'.free == st.free - Elements(cores)
               && (forall c, f :: c in cores && f in st'.free ==> c < f)
               && st'.held == st.held[key := Reservation(cores, Printed(cores), name, false)]
  {
    var lowest := Ascending(st.free, 0, st.total);
    EnoughFree(st);
    AscendingIsSorted(st.free, 0, st.total);
    SmallestFirst(lowest, vcpus);
    assert forall f :: f in st.free ==> f in lowest;
  }

  /** Holding takes exactly the named cores if there are any, all are free and the key is new; otherwise nothing. */
  lemma HoldTakesExactly(st: Cores, key: WorkKey, cores: seq<nat>, name: Option<string>)
    ensures var st' := Held(st, key, cores, name);
            if key !in st.held && |cores| > 0 && Elements(cores) <= st.free then
              && st'.free == st.free - Elements(cores) && st'.total == st.total
              && st'.held == st.held[key := Reservation(cores, Printed(cores), name, true)]
            else st' == st
  {
    assert (forall c :: c in cores ==> c in st.free) <==> Elements(cores) <= st.free;
  }

  lemma SmallestFirst(ids: seq<nat>, k: nat)
    requires Increasing(ids) && k <= |ids|
    ensures Increasing(ids[..k])
    ensures forall c, f :: c in ids[..k] && f in ids && f !in ids[..k] ==> c < f
  {
    assert forall j :: 0 <= j < k ==> ids[..k][j] == ids[j] && ids[j] in ids[..k];
    forall c, f | c in ids[..k] && f in ids && f !in ids[..k] ensures c < f {
      var i :| 0 <= i < |ids[..k]| && ids[..k][i] == c;
      var j :| 0 <= j < |ids| && ids[j] == f;
    }
  }

  // ---------------------------------------------------------------------------------------------
  // The reconcile pass

  function LiveNames(live: seq<Live>): set<string> {
    set i | 0 <= i < |live| :: live[i].name
  }

  predicate Dead(r: Reservation, names: set<string>) {
    r.adopted && !(r.containerName.Some? && r.containerName.value in names)
  }

  function DeadKeys(st: Cores, names: set<string>): set<WorkKey> {
    set k | k in st.held && Dead(st.held[k], names)
  }

  function ReleaseDead(st: Cores, names: set<string>): Cores {
    Without(st, DeadKeys(st, names))
  }

  /** The names a pass reports as released. */
  function ReleasedNames(st: Cores, names: set<string>): set<string> {
    set k | k in DeadKeys(st, names) && st.held[k].containerName.Some? :: st.held[k].containerName.value
  }

  function Accounted(st: Cores): set<string> {
    set k | k in st.held && st.held[k].containerName.Some? :: st.held[k].containerName.value
  }

  datatype Adoption = Adoption(st: Cores, adopted: seq<string>, contending: seq<string>)

  /** One turn of the adoption loop. */
  function AdoptOne(a: Adoption, accounted: set<string>, l: Live): Adoption {
    if l.name in accounted then a
    else if CanHold(a.st, l.cores) then
      Adoption(Record(a.st, Container(l.name), l.cores, Some(l.name), true), a.adopted + [l.name], a.contending)
    else Adoption(a.st, a.adopted, a.contending + [l.name])
  }

  function Adopt(st: Cores, accounted: set<string>, live: seq<Live>): Adoption {
    if live == [] then Adoption(st, [], [])
    else AdoptOne(Adopt(st, accounted, live[..|live| - 1]), accounted, live[|live| - 1])
  }

  function Reconcile(st: Cores, live: seq<Live>): Adoption {
    var kept := ReleaseDead(st, LiveNames(live));
    Adopt(kept, Accounted(kept), live)
  }

  /** What the inspect loop yields: one entry a name, each with the sorted ids of its cpuset. */
  ghost predicate Inspected(live: seq<Live>) {
    && (forall i, j :: 0 <= i < j < |live| ==> live[i].name != live[j].name)
    && (forall i :: 0 <= i < |live| ==> live[i].cores != [] && Increasing(live[i].cores))
  }

  lemma ReleaseDeadIsValid(st: Cores, names: set<string>)
    requires Valid(st)
    ensures Valid(ReleaseDead(st, names)) && DeadKeys(ReleaseDead(st, names), names) == {}
  {
    WithoutKeepsPartition(st, DeadKeys(st, names));
  }

  /** An entry is spoken for, adopted with its cores, or reported because a core of it is taken. */
  ghost predicate Decided(a: Adoption, accounted: set<string>, l: Live) {
    || l.name in accounted
    || (Container(l.name) in a.st.held && a.st.held[Container(l.name)].cores == l.cores)
    || (l.name in a.contending && !CanHold(a.st, l.cores))
  }

  /** What adoption keeps. */
  ghost predicate Extends(st: Cores, accounted: set<string>, names: set<string>, st': Cores) {
    && Valid(st') && st'.total == st.total && st'.free <= st.free
    && (forall k :: k in st.held ==> k in st'.held && st'.held[k] == st.held[k])
    && (forall k :: k in st'.held && k !in st.held ==> k.Container? && k.name in names && k.name !in accounted)
  }

  lemma HoldExtends(st: Cores, accounted: set<string>, names: set<string>, st': Cores, l: Live)
    requires Extends(st, accounted, names, st') && l.name !in accounted && l.cores != [] && Increasing(l.cores)
    requires CanHold(st', l.cores) && Container(l.name) !in st'.held
    ensures Extends(st, accounted, names + {l.name}, Record(st', Container(l.name), l.cores, Some(l.name), true))
  {
    RecordKeepsPartition(st', Container(l.name), l.cores, Some(l.name), true);
  }

  lemma ContainersAreAccounted(st: Cores)
    requires WellKept(st)
    ensures forall k :: k in st.held && k.Container? ==> k.name in Accounted(st)
  {
    forall k | k in st.held && k.Container? ensures k.name in Accounted(st) {
      assert st.held[k].containerName == Some(k.name);
    }
  }

  lemma AdoptOneDecides(a: Adoption, accounted: set<string>, l: Live, other: Live)
    requires (Decided(a, accounted, other) && other.name != l.name) || other == l
    ensures Decided(AdoptOne(a, accounted, l), accounted, other)
  {
  }

  lemma NameOnce(live: seq<Live>)
    requires live != [] && Inspected(live)
    ensures var n := |live| - 1;
            Inspected(live[..n]) && LiveNames(live) == LiveNames(live[..n]) + {live[n].name}
            && live[n].name !in LiveNames(live[..n])
  {
  }

  /** Adopting one more container keeps what the earlier ones were given. */
  lemma AdoptOneExtends(st: Cores, accounted: set<string>, names: set<string>, a: Adoption, l: Live)
    requires Valid(st) && accounted == Accounted(st) && Extends(st, accounted, names, a.st)
    requires l.name !in names && l.cores != [] && Increasing(l.cores)
    ensures Extends(st, accounted, names + {l.name}, AdoptOne(a, accounted, l).st)
  {
    ContainersAreAccounted(st);
    if l.name !in accounted && CanHold(a.st, l.cores) {
      HoldExtends(st, accounted, names, a.st, l);
    }
  }

  lemma {:induction false} AdoptExtends(st: Cores, accounted: set<string>, live: seq<Live>)
    requires Valid(st) && Inspected(live) && accounted == Accounted(st)
    ensures Extends(st, accounted, LiveNames(live), Adopt(st, accounted, live).st)
  {
    if live != [] {
      var n := |live| - 1;
      NameOnce(live);
      AdoptExtends(st, accounted, live[..n]);
      AdoptOneExtends(st, accounted, LiveNames(live[..n]), Adopt(st, accounted, live[..n]), live[n]);
    }
  }

  lemma {:induction false} AdoptDecides(st: Cores, accounted: set<string>, live: seq<Live>)
    requires Inspected(live)
    ensures forall i :: 0 <= i < |live| ==> Decided(Adopt(st, accounted, live), accounted, live[i])
  {
    if live != [] {
      var n := |live| - 1;
      var before := Adopt(st, accounted, live[..n]);
      NameOnce(live);
      AdoptDecides(st, accounted, live[..n]);
      forall i | 0 <= i < |live| ensures Decided(AdoptOne(before, accounted, live[n]), accounted, live[i]) {
        if i < n {
          assert Decided(before, accounted, live[..n][i]);
        }
        AdoptOneDecides(before, accounted, live[n], live[i]);
      }
    }
  }

  lemma {:induction false} ContendersAreUnaccounted(st: Cores, accounted: set<string>, live: seq<Live>)
    ensures forall n :: n in Adopt(st, accounted, live).contending ==> n !in accounted
  {
    if live != [] {
      ContendersAreUnaccounted(st, accounted, live[..|live| - 1]);
    }
  }

  /** Some reservation stands for the container. */
  ghost predicate AccountedFor(st: Cores, name: string) {
    exists k :: k in st.held && st.held[k].containerName == Some(name)
  }

  /** A reservation in the container's name holds exactly the cores it is pinned to. */
  ghost predicate Booked(st: Cores, l: Live) {
    exists k :: k in st.held && st.held[k].containerName == Some(l.name) && st.held[k].cores == l.cores
  }

  /** Releasing the dead touches no reservation in a live container's name. */
  lemma LiveReservationsStay(st: Cores, names: set<string>, name: string)
    requires name in names
    ensures var kept := ReleaseDead(st, names);
            && (forall k :: k in kept.held ==> k in st.held && kept.held[k] == st.held[k])
            && (forall k :: k in st.held && st.held[k].containerName == Some(name) ==> k in kept.held)
            && (name in Accounted(kept) <==> AccountedFor(st, name))
  {
    var kept := ReleaseDead(st, names);
    if k :| k in st.held && st.held[k].containerName == Some(name) {
      assert k in kept.held;
    }
  }

  /** What a pass does for one live container, by whether a reservation already has its name. */
  ghost predicate Handled(st: Cores, a: Adoption, l: Live) {
    if AccountedFor(st, l.name) then
      && l.name !in a.contending
      && forall k :: k in st.held && st.held[k].containerName == Some(l.name) ==>
           k in a.st.held && a.st.held[k] == st.held[k]
    else
      || (Container(l.name) in a.st.held && a.st.held[Container(l.name)].cores == l.cores)
      || (l.name in a.contending && exists c :: c in l.cores && c !in a.st.free)
  }

  /**
   A pass leaves the partition intact and the Agent's own reservations alone. Afterwards every adopted
   reservation is of a live container. A live container with a reservation in its name keeps it; any
   other now holds exactly its cores, or was reported because one of them is not free.
   */
  lemma ReconcileAccounts(st: Cores, live: seq<Live>)
    requires Valid(st) && Inspected(live)
    ensures var a := Reconcile(st, live);
            && Valid(a.st) && a.st.total == st.total
            && (forall k: WorkKey :: !k.Container? ==>
                  (k in a.st.held <==> k in st.held) && (k in st.held ==> a.st.held[k] == st.held[k]))
            && (forall k :: k in a.st.held && a.st.held[k].adopted ==> k.Container? && k.name in LiveNames(live))
            && (forall i :: 0 <= i < |live| ==> Handled(st, a, live[i]))
  {
    var names := LiveNames(live);
    var kept := ReleaseDead(st, names);
    ReleaseDeadIsValid(st, names);
    AdoptExtends(kept, Accounted(kept), live);
    AdoptDecides(kept, Accounted(kept), live);
    ContendersAreUnaccounted(kept, Accounted(kept), live);
    var a := Reconcile(st, live);
    forall k | k in a.st.held && a.st.held[k].adopted ensures k.Container? && k.name in names {
      if k in kept.held {
        assert !Dead(kept.held[k], names) by {
          assert k !in DeadKeys(kept, names);
        }
      }
    }
    forall i | 0 <= i < |live| ensures Handled(st, a, live[i]) {
      assert live[i].name in names;
      LiveReservationsStay(st, names, live[i].name);
      assert Decided(a, Accounted(kept), live[i]);
    }
  }

  lemma AdoptOneReports(a: Adoption, accounted: set<string>, l: Live, name: string)
    ensures var a', unknown := AdoptOne(a, accounted, l), name == l.name && name !in accounted;
            && (name in a'.adopted <==> name in a.adopted || (unknown && CanHold(a.st, l.cores)))
            && (name in a'.contending <==> name in a.contending || (unknown && !CanHold(a.st, l.cores)))
            && (Container(name) in a.st.held || (unknown && CanHold(a.st, l.cores)) ==> Container(name) in a'.st.held)
  {
  }

  lemma LiveNamesSnoc(live: seq<Live>, name: string)
    requires live != []
    ensures name in LiveNames(live) <==> name in LiveNames(live[..|live| - 1]) || name == live[|live| - 1].name
  {
    assert live == live[..|live| - 1] + [live[|live| - 1]];
  }

  lemma {:induction false} AdoptReports(st: Cores, accounted: set<string>, live: seq<Live>, name: string)
    requires Inspected(live)
    ensures var a := Adopt(st, accounted, live);
            && (name in a.adopted || name in a.contending <==> name in LiveNames(live) && name !in accounted)
            && !(name in a.adopted && name in a.contending)
            && (name in a.adopted ==> Container(name) in a.st.held)
  {
    if live != [] {
      var n := |live| - 1;
      AdoptReports(st, accounted, live[..n], name);
      AdoptOneReports(Adopt(st, accounted, live[..n]), accounted, live[n], name);
      LiveNamesSnoc(live, name);
      assert live[n].name !in LiveNames(live[..n]);
    }
  }

  /**
   The three reports of a pass are exact: adopted and contending split the live containers without a
   reservation in their name, the adopted ones now hold theirs, and the released names are those of
   adopted reservations whose container is gone.
   */
  lemma ReportsAreExact(st: Cores, live: seq<Live>, name: string)
    requires Inspected(live)
    ensures var a := Reconcile(st, live);
            && (name in a.adopted || name in a.contending <==> name in LiveNames(live) && !AccountedFor(st, name))
            && !(name in a.adopted && name in a.contending)
            && (name in a.adopted ==> Container(name) in a.st.held)
            && (name in ReleasedNames(st, LiveNames(live)) <==>
                  && name !in LiveNames(live)
                  && exists k :: k in st.held && st.held[k].adopted && st.held[k].containerName == Some(name))
  {
    var names := LiveNames(live);
    var kept := ReleaseDead(st, names);
    AdoptReports(kept, Accounted(kept), live, name);
    if name in names {
      LiveReservationsStay(st, names, name);
    }
    if k :| k in st.held && st.held[k].adopted && st.held[k].containerName == Some(name) && name !in names {
      assert k in DeadKeys(st, names);
    }
  }

  lemma NewReservationsAreNew(st: Cores, live: seq<Live>, k: WorkKey, name: string)
    requires Valid(st) && Inspected(live) && name in LiveNames(live) && AccountedFor(st, name)
    requires k in Reconcile(st, live).st.held && Reconcile(st, live).st.held[k].containerName == Some(name)
    ensures k in st.held && st.held[k] == Reconcile(st, live).st.held[k]
  {
    var names := LiveNames(live);
    var kept := ReleaseDead(st, names);
    ReleaseDeadIsValid(st, names);
    LiveReservationsStay(st, names, name);
    AdoptExtends(kept, Accounted(kept), live);
  }

  /**
   Exactly when a live container ends up booked or reported: it has no reservation in its name yet,
   or one that holds exactly its cores. The pass looks only at the name.
   */
  lemma BookedOrReportedIff(st: Cores, live: seq<Live>, i: nat)
    requires Valid(st) && Inspected(live) && i < |live|
    ensures var a := Reconcile(st, live);
            Booked(a.st, live[i]) || live[i].name in a.contending <==>
            !AccountedFor(st, live[i].name) || Booked(st, live[i])
  {
    var a, l := Reconcile(st, live), live[i];
    ReconcileAccounts(st, live);
    assert Handled(st, a, l) && l.name in LiveNames(live);
    if AccountedFor(st, l.name) {
      if k :| k in a.st.held && a.st.held[k].containerName == Some(l.name) && a.st.held[k].cores == l.cores {
        NewReservationsAreNew(st, live, k, l.name);
        assert Booked(st, l);
      }
      if k :| k in st.held && st.held[k].containerName == Some(l.name) && st.held[k].cores == l.cores {
        assert Booked(a.st, l);
      }
    } else if Container(l.name) in a.st.held {
      assert a.st.held[Container(l.name)].containerName == Some(l.name);
    }
  }

  lemma {:induction false} AdoptNothing(st: Cores, accounted: set<string>, live: seq<Live>)
    requires forall i :: 0 <= i < |live| ==> live[i].name in accounted || !CanHold(st, live[i].cores)
    ensures Adopt(st, accounted, live).st == st && Adopt(st, accounted, live).adopted == []
  {
    if live != [] {
      var n := |live| - 1;
      assert forall i :: 0 <= i < n ==> live[..n][i] == live[i];
      AdoptNothing(st, accounted, live[..n]);
    }
  }

  lemma NothingDead(st: Cores, names: set<string>)
    requires DeadKeys(st, names) == {}
    ensures ReleaseDead(st, names) == st
  {
    NothingGivenBack(st);
  }

  lemma AccountedIff(st: Cores, name: string)
    ensures name in Accounted(st) <==> AccountedFor(st, name)
  {
  }

  /** A second pass over the same containers finds nothing to release and nothing to adopt. */
  lemma ReconcileIsIdempotent(st: Cores, live: seq<Live>)
    requires Valid(st) && Inspected(live)
    ensures var st' := Reconcile(st, live).st;
            && DeadKeys(st', LiveNames(live)) == {}
            && Reconcile(st', live).st == st' && Reconcile(st', live).adopted == []
  {
    var st' := Reconcile(st, live).st;
    ReconcileAccounts(st, live);
    NothingDead(st', LiveNames(live));
    forall i | 0 <= i < |live| ensures live[i].name in Accounted(st') || !CanHold(st', live[i].cores) {
      assert Handled(st, Reconcile(st, live), live[i]);
      AccountedIff(st', live[i].name);
    }
    AdoptNothing(st', Accounted(st'), live);
  }

  // ---------------------------------------------------------------------------------------------
  // Every run

  datatype Op =
    | Reserve(key: WorkKey, vcpus: int, name: Option<string>)
    | Release(key: WorkKey)
    | Pass(live: seq<Live>)

  /** The Agent never reserves under a container's key, and a pass sees what inspect printed. */
  ghost predicate Allowed(op: Op) {
    match op
    case Reserve(key, _, _) => !key.Container?
    case Release(_) => true
    case Pass(live) => Inspected(live)
  }

  function Apply(st: Cores, op: Op): Cores {
    match op
    case Reserve(key, vcpus, name) => Reserved(st, key, vcpus, name)
    case Release(key) => Released(st, key)
    case Pass(live) => Reconcile(st, live).st
  }

  function Run(st: Cores, ops: seq<Op>): Cores {
    if ops == [] then st else Apply(Run(st, ops[..|ops| - 1]), ops[|ops| - 1])
  }

  lemma ReserveIsValid(st: Cores, key: WorkKey, vcpus: int, name: Option<string>)
    requires Valid(st) && !key.Container?
    ensures Valid(Reserved(st, key, vcpus, name))
  {
    if CanReserve(st, key, vcpus) {
      ReserveTakesLowest(st, key, vcpus, name);
      var cores := Reserved(st, key, vcpus, name).held[key].cores;
      assert forall c :: c in cores ==> c in Elements(cores);
      RecordKeepsPartition(st, key, cores, name, false);
    }
  }

  /** In every state any run reaches, free cores and reservations partition the Worker's cores. */
  lemma {:induction false} EveryRunPartitions(n: nat, ops: seq<Op>)
    requires forall i :: 0 <= i < |ops| ==> Allowed(ops[i])
    ensures Valid(Run(Fresh(n), ops)) && Run(Fresh(n), ops).total == n
  {
    if ops != [] {
      var m := |ops| - 1;
      EveryRunPartitions(n, ops[..m]);
      var st := Run(Fresh(n), ops[..m]);
      match ops[m] {
        case Reserve(key, vcpus, name) => ReserveIsValid(st, key, vcpus, name);
        case Release(key) => ReleaseKeepsPartition(st, key);
        case Pass(live) => ReconcileAccounts(st, live);
      }
    }
  }

  // ---------------------------------------------------------------------------------------------
  // A container that moved

  /** Four cores: container "c" was adopted on 0 and 1 and now runs on 2 and 3. */
  function Drifted(): Cores {
    Cores(4, {2, 3}, map[Container("c") := Reservation([0, 1], Printed([0, 1]), Some("c"), true)])
  }

  lemma DriftedIsReached()
    ensures Run(Fresh(4), [Pass([Live("c", [0, 1])])]) == Drifted()
  {
    var ops, live := [Pass([Live("c", [0, 1])])], [Live("c", [0, 1])];
    assert ops[..0] == [];
    assert Run(Fresh(4), ops[..0]) == Fresh(4);
    NothingDead(Fresh(4), LiveNames(live));
    assert live[..0] == [];
    assert Adopt(Fresh(4), {}, live[..0]) == Adoption(Fresh(4), [], []);
    assert CanHold(Fresh(4), [0, 1]);
    assert AllBelow(4) - Elements([0, 1]) == {2, 3};
    assert Accounted(Fresh(4)) == {};
  }

  lemma KnownIsLeft(st: Cores, l: Live)
    requires DeadKeys(st, LiveNames([l])) == {} && l.name in Accounted(st)
    ensures Reconcile(st, [l]) == Adoption(st, [], [])
  {
    NothingDead(st, LiveNames([l]));
    assert [l][..0] == [];
    assert Adopt(st, Accounted(st), [l][..0]) == Adoption(st, [], []);
  }

  /** The pass changes nothing, reports nothing and leaves cores in use free. */
  lemma DriftIsMissed()
    ensures Run(Fresh(4), [Pass([Live("c", [0, 1])])]) == Drifted()
    ensures var a := Reconcile(Drifted(), [Live("c", [2, 3])]);
            a == Adoption(Drifted(), [], []) && 2 in a.st.free && 3 in a.st.free
  {
    DriftedIsReached();
    DriftedIsKnown();
    KnownIsLeft(Drifted(), Live("c", [2, 3]));
  }

  lemma DriftedIsKnown()
    ensures DeadKeys(Drifted(), LiveNames([Live("c", [2, 3])])) == {} && "c" in Accounted(Drifted())
  {
    var st, live := Drifted(), [Live("c", [2, 3])];
    assert live[0].name == "c";
    assert "c" in LiveNames(live);
    assert st.held[Container("c")].containerName == Some("c");
  }

  // ---------------------------------------------------------------------------------------------
  // The class

  class Allocator {
    const totalCores: nat
    var free: set<nat>
    var held: map<WorkKey, Reservation>

    function State(): Cores
      reads this
    {
      Cores(totalCores, free, held)
    }

    constructor (n: nat)
      requires 1 <= n
      ensures State() == Fresh(n) && Valid(State())
    {
      totalCores := n;
      free := AllBelow(n);
      held := map[];
      new;
      EveryRunPartitions(n, []);
    }

    method ReserveCores(key: WorkKey, vcpus: int, name: Option<string>) returns (r: Result<Option<Reservation>>)
      requires Valid(State()) && !key.Container?
      modifies this
      ensures Valid(State()) && State() == Reserved(old(State()), key, vcpus, name)
      ensures r.Err? <==> vcpus < 1 || (vcpus <= |old(free)| && key in old(held))
      ensures r.Ok? ==> (r.value.Some? <==> vcpus <= |old(free)|)
      ensures r.Ok? && r.value.Some? ==> key in held && held[key] == r.value.value
    {
      ReserveIsValid(State(), key, vcpus, name);
      EnoughFree(State());
      if vcpus < 1 {
        return Err("not a core count");
      }
      if vcpus > |free| {
        return Ok(None);
      }
      var cores := Ascending(free, 0, totalCores)[..vcpus];
      r := RecordCores(key, cores, name, false);
    }

    method HoldCores(key: WorkKey, cores: seq<nat>, name: Option<string>) returns (r: Result<Option<Reservation>>)
      requires Partition(State())
      modifies this
      ensures Partition(State()) && State() == Held(old(State()), key, cores, name)
      ensures r == Ok(None) <==> !CanHold(old(State()), cores)
      ensures r.Err? <==> CanHold(old(State()), cores) && key in old(held)
    {
      if cores == [] {
        return Ok(None);
      }
      for i := 0 to |cores|
        invariant forall j :: 0 <= j < i ==> cores[j] in free
      {
        if cores[i] !in free {
          return Ok(None);
        }
      }
      if key !in held {
        RecordKeepsPartition(State(), key, cores, name, true);
      }
      r := RecordCores(key, cores, name, true);
    }

    method RecordCores(key: WorkKey, cores: seq<nat>, name: Option<string>, adopted: bool)
      returns (r: Result<Option<Reservation>>)
      modifies this
      ensures key in old(held) ==> r.Err? && State() == old(State())
      ensures key !in old(held) ==>
                && State() == Record(old(State()), key, cores, name, adopted)
                && r == Ok(Some(held[key]))
    {
      if key in held {
        return Err("already holds a core reservation");
      }
      var left := free;
      for i := 0 to |cores|
        invariant left == free - Elements(cores[..i])
      {
        assert Elements(cores[..i + 1]) == Elements(cores[..i]) + {cores[i]};
        left := left - {cores[i]};
      }
      assert cores[..|cores|] == cores;
      free := left;
      var spec := FormatCpuset(cores);
      var reservation := Reservation(cores, spec, name, adopted);
      held := held[key := reservation];
      return Ok(Some(reservation));
    }

    method ReleaseCores(key: WorkKey) returns (was: bool)
      requires Partition(State())
      modifies this
      ensures Partition(State()) && State() == Released(old(State()), key)
      ensures was == (key in old(held))
    {
      ReleaseKeepsPartition(State(), key);
      if key !in held {
        return false;
      }
      free := free + Elements(held[key].cores);
      held := held - {key};
      return true;
    }

    /** The adoption loop over the containers Docker runs. */
    method AdoptLive(live: seq<Live>, accounted: set<string>) returns (adopted: seq<string>, contending: seq<string>)
      requires Valid(State()) && Inspected(live) && accounted == Accounted(State())
      modifies this
      ensures Adoption(State(), adopted, contending) == Adopt(old(State()), accounted, live)
    {
      adopted, contending := [], [];
      for i := 0 to |live|
        invariant Adoption(State(), adopted, contending) == Adopt(old(State()), accounted, live[..i])
        invariant Partition(State())
      {
        assert live[..i + 1][..i] == live[..i];
        if live[i].name in accounted {
          continue;
        }
        KeyIsFresh(old(State()), accounted, live, i);
        var r := HoldCores(Container(live[i].name), live[i].cores, Some(live[i].name));
        if r == Ok(None) {
          contending := contending + [live[i].name];
        } else {
          adopted := adopted + [live[i].name];
        }
      }
      assert live[..|live|] == live;
    }

    method ReconcileLive(live: seq<Live>) returns (adopted: seq<string>, released: set<string>, contending: seq<string>)
      requires Valid(State()) && Inspected(live)
      modifies this
      ensures Valid(State())
      ensures Adoption(State(), adopted, contending) == Reconcile(old(State()), live)
      ensures released == ReleasedNames(old(State()), LiveNames(live))
    {
      ReconcileAccounts(State(), live);
      ReleaseDeadIsValid(State(), LiveNames(live));
      released := ReleaseDeadOnes(LiveNames(live));
      var accounted := Accounted(State());
      adopted, contending := AdoptLive(live, accounted);
    }

    /** Releases each of these keys in turn. */
    method GiveBack(keys: set<WorkKey>)
      requires Partition(State()) && keys <= held.Keys
      modifies this
      ensures State() == Without(old(State()), keys)
    {
      var left := keys;
      ghost var done: set<WorkKey> := {};
      NothingGivenBack(State());
      while left != {}
        invariant done + left == keys && done !! left && Partition(State())
        invariant State() == Without(old(State()), done)
      {
        var k :| k in left;
        OneMoreGivenBack(old(State()), done, k);
        var _ := ReleaseCores(k);
        done := done + {k};
        left := left - {k};
      }
    }

    method ReleaseDeadOnes(names: set<string>) returns (released: set<string>)
      requires Valid(State())
      modifies this
      ensures State() == ReleaseDead(old(State()), names)
      ensures released == ReleasedNames(old(State()), names)
    {
      released := ReleasedNames(State(), names);
      GiveBack(DeadKeys(State(), names));
    }
  }

  lemma NothingGivenBack(st: Cores)
    ensures Without(st, {}) == st
  {
    assert CoresOf(st, {}) == {};
    assert st.held - {} == st.held;
  }

  lemma OneMoreGivenBack(st: Cores, done: set<WorkKey>, k: WorkKey)
    requires k in st.held && k !in done
    ensures Released(Without(st, done), k) == Without(st, done + {k})
  {
    assert CoresOf(st, done + {k}) == CoresOf(st, done) + Elements(st.held[k].cores);
    assert st.held - (done + {k}) == st.held - done - {k};
  }

  /** Holding a container's cores never meets its key already taken. */
  lemma KeyIsFresh(kept: Cores, accounted: set<string>, live: seq<Live>, i: nat)
    requires Valid(kept) && Inspected(live) && accounted == Accounted(kept) && i < |live|
    requires live[i].name !in accounted
    ensures Container(live[i].name) !in Adopt(kept, accounted, live[..i]).st.held
  {
    AdoptExtends(kept, accounted, live[..i]);
    ContainersAreAccounted(kept);
    assert live[i].name !in LiveNames(live[..i]);
  }
}
