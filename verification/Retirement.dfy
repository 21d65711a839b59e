/**
 Attempt rows and the handlers that change them: creation, placement, claim, job messages,
 scale-down, retirement, executor exit, runner cleanup and the reconciler. Each handler is one
 transaction on the rows; a handler that throws leaves them as they were.
 */
module Retirement {
  import opened Common

  type RunnerName = nat
  type MachineId = nat
  type ProfileName = nat

  const WORKER_OFFLINE_AFTER_MS := 120_000
  const RUNNING_ABANDONED_MS := 600_000
  const ASSIGNMENT_STUCK_MS := 2_700_000
  const QUEUE_EXPIRED_MS := 86_400_000
  const RETIREMENT_UNCONFIRMED_MS := 21_600_000

  datatype State = Pending | Preparing | Ready | Running | Completed | Cancelled | Failed

  datatype Retirement = Retirement(outcome: State, requestedAt: int)

  /** What the controller registered the Runner for, and GitHub's id of it. */
  datatype Contract = Contract(executor: nat, imageRelease: nat, vcpus: int, memoryMiB: int, runnerId: nat)

  /** `secret` says whether the JIT config row is still stored. */
  datatype Attempt = Attempt(
    profile: ProfileName, contract: Contract, state: State, machine: Option<MachineId>, retirement: Option<Retirement>,
    cleanupPending: bool, secret: bool, createdAt: int, claimedAt: Option<int>)

  /** `otherWork` counts the live Jobs and Experiments placed on the machine. */
  datatype Machine = Machine(usedSlots: nat, otherWork: nat, lastSeen: int)

  datatype Db = Db(attempts: map<RunnerName, Attempt>, machines: map<MachineId, Machine>)

  predicate Terminal(s: State) {
    s.Completed? || s.Cancelled? || s.Failed?
  }

  predicate RunnerMayBeOnline(s: State) {
    s.Preparing? || s.Ready? || s.Running?
  }

  predicate IsRetiring(a: Attempt) {
    a.retirement.Some? && RunnerMayBeOnline(a.state)
  }

  // ---------------------------------------------------------------------------------------------
  // One row

  function Retire(a: Attempt, outcome: State, now: int): Attempt {
    if !RunnerMayBeOnline(a.state) || a.retirement.Some? then a
    else a.(secret := false, cleanupPending := true, retirement := Some(Retirement(outcome, now)))
  }

  function Finished(a: Attempt, unconfirmed: bool): Attempt
    requires a.retirement.Some?
  {
    a.(state := a.retirement.value.outcome, secret := false, cleanupPending := unconfirmed, retirement := None)
  }

  function CalledOff(a: Attempt): Attempt {
    if a.retirement.None? then a else a.(retirement := None, cleanupPending := false)
  }

  function KeptForWorker(a: Attempt): Attempt {
    if a.state.Running? then CalledOff(a) else a
  }

  function CancelledUnclaimed(a: Attempt): Attempt {
    a.(state := Cancelled, secret := false, cleanupPending := true)
  }

  function JobRunning(a: Attempt): Attempt {
    (if a.state.Running? then a else CalledOff(a)).(state := Running)
  }

  function JobDone(a: Attempt): Attempt {
    a.(state := Completed, secret := false, cleanupPending := false, retirement := None)
  }

  /** What an executor's exit makes of a live Attempt. `jobless`: its runner took no job, and says so. */
  function Exited(a: Attempt, exitCode: int, jobless: bool): Attempt {
    if a.retirement.Some? && !a.state.Running? then
      a.(state := a.retirement.value.outcome, secret := false, cleanupPending := true, retirement := None)
    else
      a.(state := if exitCode == 0 && !(jobless && !a.state.Running?) then Completed else Failed,
         secret := false,
         cleanupPending := !a.state.Running? || exitCode != 0 || a.retirement.Some?,
         retirement := None)
  }

  // ---------------------------------------------------------------------------------------------
  // Patches

  function Patch(db: Db, r: RunnerName, a: Attempt): Db {
    db.(attempts := db.attempts[r := a])
  }

  function WithSlots(db: Db, m: MachineId, n: nat): Db
    requires m in db.machines
  {
    db.(machines := db.machines[m := db.machines[m].(usedSlots := n)])
  }

  /** `releaseMachineSlot`: one slot back, never below zero. */
  function Release(db: Db, m: Option<MachineId>): Db {
    if m.None? || m.value !in db.machines then db
    else
      var used := db.machines[m.value].usedSlots;
      WithSlots(db, m.value, if used == 0 then 0 else used - 1)
  }

  /** Frees the slot of Attempt `r` and replaces its row. */
  function Settle(db: Db, r: RunnerName, a: Attempt): Db
    requires r in db.attempts
  {
    Patch(Release(db, db.attempts[r].machine), r, a)
  }

  // ---------------------------------------------------------------------------------------------
  // Handlers

  predicate Known(db: Db, r: RunnerName, p: ProfileName) {
    r in db.attempts && db.attempts[r].profile == p
  }

  function Created(p: ProfileName, c: Contract, now: int): Attempt {
    Attempt(p, c, Pending, None, None, false, true, now, None)
  }

  function Create(db: Db, r: RunnerName, p: ProfileName, c: Contract, now: int): Db {
    if r in db.attempts then db else Patch(db, r, Created(p, c, now))
  }

  /** One placement of `tryAssign`: an unassigned pending Attempt gets a machine and its slot. */
  function Assign(db: Db, r: RunnerName, m: MachineId): Db {
    if r in db.attempts && db.attempts[r].state.Pending? && db.attempts[r].machine.None? && m in db.machines then
      Patch(WithSlots(db, m, db.machines[m].usedSlots + 1), r, db.attempts[r].(machine := Some(m)))
    else db
  }

  predicate Claimable(db: Db, r: RunnerName, m: MachineId) {
    r in db.attempts && db.attempts[r].machine == Some(m) && db.attempts[r].state.Pending? && db.attempts[r].secret
  }

  function Claim(db: Db, r: RunnerName, m: MachineId, now: int): Db {
    if !Claimable(db, r, m) then db
    else Patch(db, r, db.attempts[r].(state := Preparing, claimedAt := Some(now), secret := false))
  }

  function MarkReady(db: Db, r: RunnerName, m: MachineId): Db {
    if r in db.attempts && db.attempts[r].machine == Some(m) && db.attempts[r].state.Preparing? then
      Patch(db, r, db.attempts[r].(state := Ready))
    else db
  }

  function JobStarted(db: Db, r: RunnerName, p: ProfileName): Db {
    if !Known(db, r, p) || Terminal(db.attempts[r].state) then db
    else Patch(db, r, JobRunning(db.attempts[r]))
  }

  function JobCompleted(db: Db, r: RunnerName, p: ProfileName): Db {
    if !Known(db, r, p) then db
    else if Terminal(db.attempts[r].state) then Patch(db, r, JobDone(db.attempts[r]))
    else Settle(db, r, JobDone(db.attempts[r]))
  }

  function EndIdle(db: Db, r: RunnerName, now: int): Db
    requires r in db.attempts
  {
    var a := db.attempts[r];
    if a.state.Pending? then Settle(db, r, CancelledUnclaimed(a)) else Patch(db, r, Retire(a, Cancelled, now))
  }

  /** A scale-down. Throws on a running Attempt. */
  function Cancel(db: Db, r: RunnerName, p: ProfileName, now: int): Db {
    if !Known(db, r, p) || Terminal(db.attempts[r].state) || db.attempts[r].state.Running? then db
    else EndIdle(db, r, now)
  }

  predicate KnownRunner(db: Db, r: RunnerName, p: ProfileName, runnerId: nat) {
    Known(db, r, p) && db.attempts[r].contract.runnerId == runnerId
  }

  function CompleteCleanup(db: Db, r: RunnerName, p: ProfileName, runnerId: nat): Db {
    if !KnownRunner(db, r, p, runnerId) || !db.attempts[r].cleanupPending then db
    else if IsRetiring(db.attempts[r]) then Settle(db, r, Finished(db.attempts[r], false))
    else Patch(db, r, db.attempts[r].(cleanupPending := false, retirement := None))
  }

  function Report(db: Db, r: RunnerName, m: MachineId, exitCode: int, jobless: bool): Db {
    if r !in db.attempts || db.attempts[r].machine != Some(m) then db
    else if Terminal(db.attempts[r].state) then Patch(db, r, db.attempts[r].(secret := false))
    else Settle(db, r, Exited(db.attempts[r], exitCode, jobless))
  }

  /** An idle Attempt whose Worker no longer carries its Profile's labels. */
  function OffPin(db: Db, r: RunnerName, now: int): Db {
    if r !in db.attempts || db.attempts[r].machine.None? then db
    else
      var a := db.attempts[r];
      if a.state.Pending? then Settle(db, r, a.(machine := None))
      else if a.state.Preparing? || a.state.Ready? then Patch(db, r, Retire(a, Cancelled, now))
      else db
  }

  predicate WorkerReports(m: Machine, now: int) {
    now - m.lastSeen <= WORKER_OFFLINE_AFTER_MS
  }

  /** The Attempts of a returning Worker, in the order given. */
  function KeepRunning(db: Db, m: MachineId, rs: seq<RunnerName>): Db {
    if rs == [] then db
    else
      var before, r := KeepRunning(db, m, rs[..|rs| - 1]), rs[|rs| - 1];
      if r in before.attempts && before.attempts[r].machine == Some(m) then
        Patch(before, r, KeptForWorker(before.attempts[r]))
      else before
  }

  function Heartbeat(db: Db, m: MachineId, rs: seq<RunnerName>, now: int): Db {
    if m !in db.machines then db
    else
      var kept := if WorkerReports(db.machines[m], now) then db else KeepRunning(db, m, rs);
      kept.(machines := db.machines[m := db.machines[m].(lastSeen := now)])
  }

  // ---------------------------------------------------------------------------------------------
  // The reconciler

  predicate OfflineFor(db: Db, m: MachineId, now: int, limit: int) {
    m !in db.machines || now - db.machines[m].lastSeen > limit
  }

  predicate BackstopDue(db: Db, a: Attempt, now: int, served: set<ProfileName>) {
    && a.retirement.Some? && now - a.retirement.value.requestedAt > RETIREMENT_UNCONFIRMED_MS
    && !(a.state.Running? && a.machine.Some? && !OfflineFor(db, a.machine.value, now, WORKER_OFFLINE_AFTER_MS))
    && a.profile !in served
  }

  predicate Abandoned(db: Db, a: Attempt, m: MachineId, now: int) {
    || ((a.state.Preparing? || a.state.Ready?)
        && (|| OfflineFor(db, m, now, WORKER_OFFLINE_AFTER_MS)
            || now - (if a.claimedAt.Some? then a.claimedAt.value else a.createdAt) > ASSIGNMENT_STUCK_MS))
    || (a.state.Running? && OfflineFor(db, m, now, RUNNING_ABANDONED_MS))
  }

  datatype Verdict = Leave | Expire | Requeue | Keep | EndUnconfirmed | StartRetirement

  /** What the reconciler does with a live Attempt. `served`: Profiles a live controller reports for. */
  function Judge(db: Db, a: Attempt, now: int, served: set<ProfileName>): Verdict {
    if Terminal(a.state) then Leave
    else if a.machine.None? then (if now - a.createdAt > QUEUE_EXPIRED_MS then Expire else Leave)
    else if a.state.Pending? && OfflineFor(db, a.machine.value, now, WORKER_OFFLINE_AFTER_MS) then Requeue
    else if a.retirement.Some? then
      if a.state.Running? && !OfflineFor(db, a.machine.value, now, WORKER_OFFLINE_AFTER_MS) then Keep
      else if BackstopDue(db, a, now, served) then EndUnconfirmed
      else Leave
    else if Abandoned(db, a, a.machine.value, now) then StartRetirement
    else Leave
  }

  function ReconcileOne(db: Db, r: RunnerName, now: int, served: set<ProfileName>): Db {
    if r !in db.attempts then db
    else
      var a := db.attempts[r];
      match Judge(db, a, now, served)
      case Leave => db
      case Expire => Patch(db, r, CancelledUnclaimed(a))
      case Requeue => Patch(db, r, a.(machine := None))
      case Keep => Patch(db, r, CalledOff(a))
      case EndUnconfirmed => Settle(db, r, Finished(a, true))
      case StartRetirement => Patch(db, r, Retire(a, Failed, now))
  }

  function ReconcileEach(db: Db, rs: seq<RunnerName>, now: int, served: set<ProfileName>): Db {
    if rs == [] then db
    else ReconcileOne(ReconcileEach(db, rs[..|rs| - 1], now, served), rs[|rs| - 1], now, served)
  }

  /** The live Attempts that hold a slot on a machine. */
  predicate Holds(a: Attempt, m: MachineId) {
    !Terminal(a.state) && a.machine == Some(m)
  }

  function Holders(attempts: map<RunnerName, Attempt>, m: MachineId): set<RunnerName> {
    set r | r in attempts && Holds(attempts[r], m)
  }

  /** The slot repair that ends the pass; `other` counts live Jobs and Experiments after their recovery. */
  function Repair(db: Db, other: map<MachineId, nat>): Db {
    db.(machines := map m | m in db.machines ::
      var others := if m in other then other[m] else 0;
      db.machines[m].(usedSlots := others + |Holders(db.attempts, m)|, otherWork := others))
  }

  function ReconcileAll(db: Db, rs: seq<RunnerName>, now: int, served: set<ProfileName>,
                        other: map<MachineId, nat>): Db {
    Repair(ReconcileEach(db, rs, now, served), other)
  }

  /** A machine row: new ones have an id no Attempt refers to, and go with Attempts still on them. */
  function Joined(db: Db, m: MachineId, now: int): Db {
    if m in db.machines || exists r :: r in db.attempts && db.attempts[r].machine == Some(m) then db
    else db.(machines := db.machines[m := Machine(0, 0, now)])
  }

  function Left(db: Db, m: MachineId): Db {
    db.(machines := db.machines - {m})
  }

  /** Retention drops settled rows whose Runner is owed no delete. */
  function Sweep(db: Db, r: RunnerName): Db {
    if r in db.attempts && Terminal(db.attempts[r].state) && !db.attempts[r].cleanupPending then
      db.(attempts := db.attempts - {r})
    else db
  }

  // ---------------------------------------------------------------------------------------------
  // The books: work lists row by row, slots machine by machine

  predicate RowOk(a: Attempt) {
    && (a.retirement.Some? ==> Terminal(a.retirement.value.outcome) && RunnerMayBeOnline(a.state) && !a.secret)
    && (a.state.Preparing? || a.state.Ready? || a.retirement.Some? ==> a.machine.Some?)
    && (!Terminal(a.state) ==> (a.cleanupPending <==> a.retirement.Some?))
    && (Terminal(a.state) ==> !a.secret)
  }

  ghost predicate RowsOk(db: Db) {
    forall r :: r in db.attempts ==> RowOk(db.attempts[r])
  }

  ghost predicate SlotsOk(db: Db) {
    forall m :: m in db.machines ==>
      db.machines[m].usedSlots == db.machines[m].otherWork + |Holders(db.attempts, m)|
  }

  /** The handler touched no other row, and no slots but those of this row's machine. */
  ghost predicate OnlyAbout(db: Db, db': Db, r: RunnerName) {
    && (forall q :: q != r ==> (q in db.attempts <==> q in db'.attempts))
    && (forall q :: q != r && q in db.attempts && q in db'.attempts ==> db.attempts[q] == db'.attempts[q])
    && db.machines.Keys == db'.machines.Keys
    && forall m :: m in db.machines && m in db'.machines ==>
         || db.machines[m] == db'.machines[m]
         || (r in db.attempts && db.attempts[r].machine == Some(m)
             && db.machines[m] == db'.machines[m].(usedSlots := db.machines[m].usedSlots))
  }

  lemma HoldersAfter(attempts: map<RunnerName, Attempt>, r: RunnerName, a: Attempt, m: MachineId)
    ensures var n := |Holders(attempts, m)| - (if r in attempts && Holds(attempts[r], m) then 1 else 0);
            |Holders(attempts[r := a], m)| == n + if Holds(a, m) then 1 else 0
  {
    var rest := Holders(attempts, m) - {r};
    if Holds(a, m) {
      assert Holders(attempts[r := a], m) == rest + {r};
    } else {
      assert Holders(attempts[r := a], m) == rest;
    }
  }

  /** A row change that keeps the same slot keeps every count. */
  lemma PatchKeepsSlots(db: Db, r: RunnerName, a: Attempt)
    requires SlotsOk(db)
    requires forall m :: m in db.machines ==> (Holds(a, m) <==> r in db.attempts && Holds(db.attempts[r], m))
    ensures SlotsOk(Patch(db, r, a))
  {
    forall m | m in db.machines ensures |Holders(Patch(db, r, a).attempts, m)| == |Holders(db.attempts, m)| {
      HoldersAfter(db.attempts, r, a, m);
    }
  }

  /** Settling a live Attempt, or taking it off its machine, gives back exactly its slot. */
  lemma SettleKeepsSlots(db: Db, r: RunnerName, a: Attempt)
    requires SlotsOk(db) && r in db.attempts && !Terminal(db.attempts[r].state)
    requires Terminal(a.state) || a.machine.None?
    ensures SlotsOk(Settle(db, r, a))
  {
    var db' := Settle(db, r, a);
    forall m | m in db'.machines
      ensures db'.machines[m].usedSlots == db'.machines[m].otherWork + |Holders(db'.attempts, m)|
    {
      HoldersAfter(db.attempts, r, a, m);
      assert db'.attempts == db.attempts[r := a];
    }
  }

  ghost predicate Books(db: Db) {
    RowsOk(db) && SlotsOk(db)
  }

  lemma PatchKeeps(db: Db, r: RunnerName, a: Attempt)
    requires Books(db) && RowOk(a) && r in db.attempts
    requires a.machine == db.attempts[r].machine && (Terminal(a.state) <==> Terminal(db.attempts[r].state))
    ensures Books(Patch(db, r, a))
  {
    PatchKeepsSlots(db, r, a);
  }

  lemma SettleKeeps(db: Db, r: RunnerName, a: Attempt)
    requires Books(db) && RowOk(a) && r in db.attempts && !Terminal(db.attempts[r].state)
    requires Terminal(a.state) || a.machine.None?
    ensures Books(Settle(db, r, a))
  {
    SettleKeepsSlots(db, r, a);
    var db' := Settle(db, r, a);
    assert db'.attempts == db.attempts[r := a];
  }

  /** A release takes one used slot off the machine, none below zero, and touches nothing else. */
  lemma ReleaseGivesOne(db: Db, m: MachineId, k: MachineId)
    requires m in db.machines && k in db.machines
    ensures var db' := Release(db, Some(m));
            && db'.attempts == db.attempts && db'.machines.Keys == db.machines.Keys
            && (k != m ==> db'.machines[k] == db.machines[k])
            && db'.machines[m] == db.machines[m].(usedSlots := db'.machines[m].usedSlots)
            && (db.machines[m].usedSlots > 0 ==> db'.machines[m].usedSlots + 1 == db.machines[m].usedSlots)
            && (db.machines[m].usedSlots == 0 ==> db'.machines[m].usedSlots == 0)
  {
  }

  /** The clamp in `releaseMachineSlot` never acts on a live Attempt's slot. */
  lemma ClampNeverActs(db: Db, r: RunnerName)
    requires SlotsOk(db) && r in db.attempts && !Terminal(db.attempts[r].state)
    requires db.attempts[r].machine.Some? && db.attempts[r].machine.value in db.machines
    ensures var m := db.attempts[r].machine.value;
            && db.machines[m].usedSlots > 0
            && Release(db, Some(m)).machines[m].usedSlots == db.machines[m].usedSlots - 1
  {
    assert r in Holders(db.attempts, db.attempts[r].machine.value);
  }
}
