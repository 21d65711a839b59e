/**
 What a loaded snapshot says about the rows it was loaded from, counted row by row: which rows are
 candidates, how much live work a machine has, and which warm guests are idle.
 */
module SnapshotRows {
  import opened Common
  import opened Sorting
  import opened Placement
  import opened Capacity
  import opened Scheduler

  // ---------------------------------------------------------------------------------------------
  // Candidates

  lemma SnocCount(rs: seq<Readiness>, r: Readiness)
    requires rs != []
    ensures var n := |rs| - 1; multiset(rs)[r] == multiset(rs[..n])[r] + if rs[n] == r then 1 else 0
  {
    assert rs == rs[..|rs| - 1] + [rs[|rs| - 1]];
  }

  /** The candidates of a Profile are its ready rows, each as often as it was read. */
  lemma {:induction false} ReadyAre(rs: seq<Readiness>, p: ProfileName, r: Readiness)
    ensures multiset(ReadyRows(rs, p))[r] == if r.ready && r.profile == p then multiset(rs)[r] else 0
  {
    if rs != [] {
      var n := |rs| - 1;
      ReadyAre(rs[..n], p, r);
      SnocCount(rs, r);
      assert multiset(ReadyRows(rs[..n], p) + [rs[n]])[r] ==
             multiset(ReadyRows(rs[..n], p))[r] + if rs[n] == r then 1 else 0;
    }
  }

  // ---------------------------------------------------------------------------------------------
  // Live work

  /** The rows of live work on a machine. */
  function RowsOn(ws: seq<Work>, m: MachineId): set<nat> {
    set i: nat | i < |ws| && ws[i].machineId == Some(m)
  }

  function RowsOfOn(ws: seq<Work>, m: MachineId, p: ProfileName): set<nat> {
    set i: nat | i < |ws| && ws[i].machineId == Some(m) && ws[i].contract.profile == p
  }

  lemma RowsOnSnoc(ws: seq<Work>, m: MachineId)
    requires ws != []
    ensures var n := |ws| - 1;
            |RowsOn(ws, m)| == if ws[n].machineId == Some(m) then |RowsOn(ws[..n], m)| + 1 else |RowsOn(ws[..n], m)|
  {
    var n := |ws| - 1;
    if ws[n].machineId == Some(m) {
      assert RowsOn(ws, m) == RowsOn(ws[..n], m) + {n};
    } else {
      assert RowsOn(ws, m) == RowsOn(ws[..n], m);
    }
  }

  lemma RowsOfOnSnoc(ws: seq<Work>, m: MachineId, p: ProfileName)
    requires ws != []
    ensures var n := |ws| - 1;
            |RowsOfOn(ws, m, p)| == if ws[n].machineId == Some(m) && ws[n].contract.profile == p
                                    then |RowsOfOn(ws[..n], m, p)| + 1 else |RowsOfOn(ws[..n], m, p)|
  {
    var n := |ws| - 1;
    if ws[n].machineId == Some(m) && ws[n].contract.profile == p {
      assert RowsOfOn(ws, m, p) == RowsOfOn(ws[..n], m, p) + {n};
    } else {
      assert RowsOfOn(ws, m, p) == RowsOfOn(ws[..n], m, p);
    }
  }

  /** Live guests on a machine are its rows of live work. */
  lemma {:induction false} LiveWorkIsCounted(ws: seq<Work>, m: MachineId)
    ensures LoadOn(ws, m, Guests) == |RowsOn(ws, m)|
  {
    if ws == [] {
      assert RowsOn(ws, m) == {};
    } else {
      LiveWorkIsCounted(ws[..|ws| - 1], m);
      RowsOnSnoc(ws, m);
    }
  }

  lemma {:induction false} ActiveIsCounted(ws: seq<Work>, m: MachineId, p: ProfileName)
    ensures ActiveOn(ws, m, p) == |RowsOfOn(ws, m, p)|
  {
    if ws == [] {
      assert RowsOfOn(ws, m, p) == {};
    } else {
      ActiveIsCounted(ws[..|ws| - 1], m, p);
      RowsOfOnSnoc(ws, m, p);
    }
  }

  // ---------------------------------------------------------------------------------------------
  // Idle warm guests

  /** The row reports a warm pool as its active Profile now asks for it. */
  ghost predicate Describes(f: Fleet, r: Readiness, p: Profile) {
    && p in f.profiles && p.contract.profile == r.profile && r.machineId in f.machines
    && p.contract.executor == r.executor && p.contract.imageRelease == r.imageRelease
    && (r.vcpus == None || r.vcpus == Some(p.contract.vcpus))
    && (r.memoryMiB == None || r.memoryMiB == Some(p.contract.memoryMiB))
    && r.warmPool.Some? && r.warmPool.value.target == p.warmPool
  }

  lemma DescribesIff(f: Fleet, r: Readiness)
    requires DistinctNames(f.profiles)
    ensures IsWarmRow(f, r) <==> exists p :: Describes(f, r, p)
  {
    var found := ActiveProfile(f, r.profile);
    if IsWarmRow(f, r) {
      assert Describes(f, r, found.value);
    }
    if p :| Describes(f, r, p) {
      var i :| 0 <= i < |f.profiles| && f.profiles[i] == p;
      assert found.Some?;
      var j :| 0 <= j < |f.profiles| && f.profiles[j] == found.value;
      assert i == j;
    }
  }

  /** The row reports so many warm guests that live work leaves this many of them idle. */
  predicate LeavesIdle(work: seq<Work>, r: Readiness, idle: nat) {
    r.warmPool.Some? &&
    var guests, busy := r.warmPool.value.parked + r.warmPool.value.claimed, |RowsOfOn(work, r.machineId, r.profile)|;
    if guests <= busy then idle == 0 else idle + busy == guests
  }

  /**
   In a loaded snapshot the idle guests of a Profile on a machine are those its readiness row reports
   beyond the live work of that Profile there, if that row still describes the Profile, and otherwise none.
   */
  lemma IdleIsWhatRowsReport(f: Fleet, l: Ledger, work: seq<Work>, rs: seq<Readiness>, m: MachineId, p: ProfileName)
    requires LoadedFrom(f, l, work, rs)
    ensures forall i :: 0 <= i < |rs| && rs[i].machineId == m && rs[i].profile == p
                        && (exists q :: Describes(f, rs[i], q)) ==>
              LeavesIdle(work, rs[i], IdleOn(l, m, p))
    ensures (forall i :: 0 <= i < |rs| && rs[i].machineId == m && rs[i].profile == p ==>
               !exists q :: Describes(f, rs[i], q)) ==>
              IdleOn(l, m, p) == 0
  {
    ActiveIsCounted(work, m, p);
    forall i | 0 <= i < |rs| ensures IsWarmRow(f, rs[i]) <==> exists q :: Describes(f, rs[i], q) {
      DescribesIff(f, rs[i]);
    }
    forall i | 0 <= i < |rs| && rs[i].machineId == m && rs[i].profile == p && IsWarmRow(f, rs[i])
      ensures LeavesIdle(work, rs[i], IdleOn(l, m, p))
    {
      assert CountIn(l.idle, KeyOf(rs[i])) == IdleGuests(work, rs[i]);
    }
    if WarmKey(m, p) in l.idle {
      var i :| 0 <= i < |rs| && KeyOf(rs[i]) == WarmKey(m, p) && IsWarmRow(f, rs[i]);
      assert rs[i].machineId == m && rs[i].profile == p;
    }
  }
}
