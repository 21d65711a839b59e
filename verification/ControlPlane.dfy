/**
 The handlers as they run: rows and slots patched in place, proved against the functions of
 `Retirement`, whose properties over whole runs are in `RunnerProtocol`.
 */
module ControlPlane {
  import opened Common
  import opened Retirement
  import opened RunnerProtocol
  import opened AttemptEndings

  ghost function HoldersAmong(attempts: map<RunnerName, Attempt>, rs: seq<RunnerName>, m: MachineId): set<RunnerName> {
    set r | r in rs && r in attempts && Holds(attempts[r], m)
  }

  function CountOf(counts: map<MachineId, nat>, m: MachineId): nat {
    if m in counts then counts[m] else 0
  }

  predicate RunningOn(a: Attempt, m: MachineId) {
    a.state.Running? && a.machine == Some(m)
  }

  /** The Worker's running Attempts no longer retire; nothing else changed in the rows. */
  ghost predicate KeptRunning(db: Db, db': Db, m: MachineId) {
    && db'.attempts.Keys == db.attempts.Keys
    && forall r :: r in db.attempts && r in db'.attempts ==>
         db'.attempts[r] == if RunningOn(db.attempts[r], m) then CalledOff(db.attempts[r]) else db.attempts[r]
  }

  lemma {:induction false} KeepRunningRow(db: Db, m: MachineId, rs: seq<RunnerName>, r: RunnerName)
    ensures r in KeepRunning(db, m, rs).attempts <==> r in db.attempts
    ensures r in db.attempts ==>
              KeepRunning(db, m, rs).attempts[r] ==
              if r in rs && RunningOn(db.attempts[r], m) then CalledOff(db.attempts[r]) else db.attempts[r]
  {
    if rs != [] {
      KeepRunningRow(db, m, rs[..|rs| - 1], r);
      assert rs == rs[..|rs| - 1] + [rs[|rs| - 1]];
    }
  }

  lemma KeepRunningFrees(db: Db, m: MachineId, rs: seq<RunnerName>)
    requires forall r :: r in db.attempts && RunningOn(db.attempts[r], m) ==> r in rs
    ensures KeptRunning(db, KeepRunning(db, m, rs), m)
  {
    var db' := KeepRunning(db, m, rs);
    forall r
      ensures r in db'.attempts <==> r in db.attempts
      ensures r in db.attempts ==>
                db'.attempts[r] == (if RunningOn(db.attempts[r], m) then CalledOff(db.attempts[r]) else db.attempts[r])
    {
      KeepRunningRow(db, m, rs, r);
    }
  }

  // Each handler is about one row

  lemma PatchIsLocal(db: Db, r: RunnerName, a: Attempt)
    ensures OnlyAbout(db, Patch(db, r, a), r)
  {
  }

  lemma SettleIsLocal(db: Db, r: RunnerName, a: Attempt)
    requires r in db.attempts
    ensures OnlyAbout(db, Settle(db, r, a), r)
  {
  }

  lemma JobIsLocal(db: Db, r: RunnerName, p: ProfileName)
    ensures OnlyAbout(db, JobStarted(db, r, p), r) && OnlyAbout(db, JobCompleted(db, r, p), r)
  {
    if Known(db, r, p) {
      PatchIsLocal(db, r, JobRunning(db.attempts[r]));
      PatchIsLocal(db, r, JobDone(db.attempts[r]));
      SettleIsLocal(db, r, JobDone(db.attempts[r]));
    }
  }

  lemma ReportIsLocal(db: Db, r: RunnerName, m: MachineId, exitCode: int, jobless: bool)
    ensures OnlyAbout(db, Report(db, r, m, exitCode, jobless), r)
  {
    if r in db.attempts {
      PatchIsLocal(db, r, db.attempts[r].(secret := false));
      SettleIsLocal(db, r, Exited(db.attempts[r], exitCode, jobless));
    }
  }

  class Tables {
    var attempts: map<RunnerName, Attempt>
    var machines: map<MachineId, Machine>

    constructor (machines: map<MachineId, Machine>)
      ensures View() == Db(map[], machines)
      ensures (forall m :: m in machines ==> machines[m].usedSlots == machines[m].otherWork) ==> Valid()
    {
      this.attempts := map[];
      this.machines := machines;
      new;
      assert forall m :: Holders(attempts, m) == {};
    }

    ghost function View(): Db
      reads this
    {
      Db(attempts, machines)
    }

    /** Every row is well formed, and every machine's slots are its other work and its live Attempts. */
    ghost predicate Valid()
      reads this
    {
      Books(View())
    }

    method ReleaseMachineSlot(m: Option<MachineId>)
      modifies this`machines
      ensures View() == Release(old(View()), m)
    {
      if m.None? || m.value !in machines {
        return;
      }
      var row := machines[m.value];
      machines := machines[m.value := row.(usedSlots := if row.usedSlots - 1 > 0 then row.usedSlots - 1 else 0)];
    }

    method RetireAttempt(r: RunnerName, outcome: State, now: int) returns (started: Result<bool>)
      requires r in attempts
      modifies this`attempts
      ensures started.Err? <==> !RunnerMayBeOnline(old(attempts[r].state))
      ensures started.Ok? ==> (started.value <==> old(attempts[r].retirement.None?))
      ensures View() == Patch(old(View()), r, Retire(old(attempts[r]), outcome, now))
      ensures OnlyAbout(old(View()), View(), r)
      ensures old(Valid()) && old(attempts[r].machine.Some?) && Terminal(outcome) ==> Valid()
    {
      PatchSame(View(), r);
      if Valid() && attempts[r].machine.Some? && Terminal(outcome) {
        PatchKeeps(View(), r, Retire(attempts[r], outcome, now));
      }
      PatchIsLocal(View(), r, Retire(attempts[r], outcome, now));
      var attempt := attempts[r];
      if !RunnerMayBeOnline(attempt.state) {
        return Err("retireAttempt on a settled or unclaimed Attempt");
      }
      if attempt.retirement.Some? {
        return Ok(false);
      }
      attempts := attempts[r := attempt.(secret := false, cleanupPending := true,
                                         retirement := Some(Retirement(outcome, now)))];
      return Ok(true);
    }

    method FinishRetirement(r: RunnerName, unconfirmed: bool) returns (ended: Result<bool>)
      requires r in attempts
      modifies this
      ensures ended.Err? <==> old(attempts[r].retirement.None?)
      ensures ended.Err? ==> View() == old(View())
      ensures ended.Ok? ==> View() == Settle(old(View()), r, Finished(old(attempts[r]), unconfirmed))
      ensures OnlyAbout(old(View()), View(), r)
      ensures old(Valid()) ==> Valid()
    {
      var attempt := attempts[r];
      if Valid() && attempt.retirement.Some? {
        SettleKeeps(View(), r, Finished(attempt, unconfirmed));
      }
      if attempt.retirement.Some? {
        SettleIsLocal(View(), r, Finished(attempt, unconfirmed));
      }
      if attempt.retirement.None? {
        return Err("finishRetirement on an Attempt not retiring");
      }
      ReleaseMachineSlot(attempt.machine);
      attempts := attempts[r := attempt.(state := attempt.retirement.value.outcome, secret := false,
                                         cleanupPending := unconfirmed, retirement := None)];
      return Ok(true);
    }

    method KeepForReturningWorker(r: RunnerName) returns (kept: bool)
      requires r in attempts
      modifies this`attempts
      ensures kept <==> old(attempts[r].state.Running? && attempts[r].retirement.Some?)
      ensures View() == Patch(old(View()), r, KeptForWorker(old(attempts[r])))
      ensures old(Valid()) ==> Valid()
    {
      PatchSame(View(), r);
      if Valid() {
        PatchKeeps(View(), r, KeptForWorker(attempts[r]));
      }
      var attempt := attempts[r];
      if !attempt.state.Running? || attempt.retirement.None? {
        return false;
      }
      attempts := attempts[r := attempt.(retirement := None, cleanupPending := false)];
      return true;
    }

    /** `rs` is what the query returns: every running Attempt of the Worker. */
    method KeepRunningAttemptsOfReturningWorker(m: MachineId, rs: seq<RunnerName>)
      requires Valid() && forall r :: r in attempts && RunningOn(attempts[r], m) ==> r in rs
      modifies this`attempts
      ensures Valid() && View() == KeepRunning(old(View()), m, rs)
      ensures KeptRunning(old(View()), View(), m)
    {
      KeepRunningKeeps(View(), m, rs);
      KeepRunningFrees(View(), m, rs);
      var i := 0;
      while i < |rs|
        invariant 0 <= i <= |rs|
        invariant View() == KeepRunning(old(View()), m, rs[..i])
      {
        assert rs[..i + 1][..i] == rs[..i];
        if rs[i] in attempts && attempts[rs[i]].machine == Some(m) {
          var kept := KeepForReturningWorker(rs[i]);
        }
        i := i + 1;
      }
      assert rs[..i] == rs;
    }

    method WorkerHeartbeat(m: MachineId, rs: seq<RunnerName>, now: int) returns (known: bool)
      requires Valid() && forall r :: r in attempts && RunningOn(attempts[r], m) ==> r in rs
      modifies this
      ensures Valid() && View() == Heartbeat(old(View()), m, rs, now)
      ensures known <==> m in old(machines)
      ensures known ==> machines == old(machines)[m := old(machines)[m].(lastSeen := now)]
      ensures known && !WorkerReports(old(machines)[m], now) ==> KeptRunning(old(View()), View(), m)
      ensures !known || WorkerReports(old(machines)[m], now) ==> attempts == old(attempts)
    {
      HeartbeatKeeps(View(), m, rs, now);
      if m !in machines {
        return false;
      }
      if !WorkerReports(machines[m], now) {
        KeepRunningAttemptsOfReturningWorker(m, rs);
      }
      machines := machines[m := machines[m].(lastSeen := now)];
      return true;
    }

    method CancelUnclaimedAttempt(r: RunnerName) returns (ended: Result<bool>)
      requires r in attempts
      modifies this
      ensures ended.Err? <==> !old(attempts[r].state.Pending?)
      ensures ended.Err? ==> View() == old(View())
      ensures ended.Ok? ==> View() == Settle(old(View()), r, CancelledUnclaimed(old(attempts[r])))
      ensures OnlyAbout(old(View()), View(), r)
      ensures old(Valid()) ==> Valid()
    {
      if Valid() && attempts[r].state.Pending? {
        SettleKeeps(View(), r, CancelledUnclaimed(attempts[r]));
      }
      SettleIsLocal(View(), r, CancelledUnclaimed(attempts[r]));
      var attempt := attempts[r];
      if !attempt.state.Pending? {
        return Err("cancelUnclaimedAttempt on a claimed Attempt");
      }
      ReleaseMachineSlot(attempt.machine);
      attempts := attempts[r := attempt.(state := Cancelled, secret := false, cleanupPending := true)];
      return Ok(true);
    }

    method EndIdleAttempt(r: RunnerName, now: int) returns (cancelled: bool)
      requires r in attempts && !Terminal(attempts[r].state)
      modifies this
      ensures cancelled <==> old(attempts[r].state.Pending?)
      ensures View() == EndIdle(old(View()), r, now)
      ensures OnlyAbout(old(View()), View(), r)
      ensures old(Valid()) && !old(attempts[r].state.Running?) ==> Valid()
    {
      if attempts[r].state.Pending? {
        var ended := CancelUnclaimedAttempt(r);
        return true;
      }
      var started := RetireAttempt(r, Cancelled, now);
      return false;
    }

    method CancelAttempt(r: RunnerName, p: ProfileName, now: int) returns (done: Result<bool>)
      requires Valid()
      modifies this
      ensures done.Err? <==> old(Known(View(), r, p)) && old(attempts[r].state.Running?)
      ensures View() == Cancel(old(View()), r, p, now)
      ensures Valid() && OnlyAbout(old(View()), View(), r)
    {
      EndKeeps(View(), r, p, now);
      if r !in attempts || attempts[r].profile != p || Terminal(attempts[r].state) {
        return Ok(false);
      }
      if attempts[r].state.Running? {
        return Err("A running Attempt cannot be removed by a scale-down reconciliation");
      }
      var cancelled := EndIdleAttempt(r, now);
      return Ok(cancelled);
    }

    /** `registered`: an active Profile of that name has the contract the caller sends. */
    method CreateAttempt(r: RunnerName, p: ProfileName, c: Contract, registered: bool, now: int)
      returns (done: Result<bool>)
      requires Valid()
      modifies this`attempts
      ensures done.Err? <==>
                !registered || (r in old(attempts) && (old(attempts[r].profile) != p || old(attempts[r].contract) != c))
      ensures View() == if registered then Create(old(View()), r, p, c, now) else old(View())
      ensures Valid() && OnlyAbout(old(View()), View(), r)
    {
      CreateKeeps(View(), r, p, c, now);
      PatchIsLocal(View(), r, Created(p, c, now));
      if !registered {
        return Err("Attempt does not match the registered Profile contract");
      }
      if r in attempts {
        if attempts[r].profile == p && attempts[r].contract == c {
          return Ok(false);
        }
        return Err("Runner name already belongs to another Attempt");
      }
      attempts := attempts[r := Attempt(p, c, Pending, None, None, false, true, now, None)];
      return Ok(true);
    }

    /** The JIT config is handed out at most once: it is deleted with the claim that returns it. */
    method ClaimAttempt(r: RunnerName, m: MachineId, now: int) returns (handedOut: bool)
      requires Valid()
      modifies this`attempts
      ensures handedOut <==> old(Claimable(View(), r, m))
      ensures handedOut ==> r in attempts && !attempts[r].secret
      ensures View() == Claim(old(View()), r, m, now)
      ensures Valid() && OnlyAbout(old(View()), View(), r)
    {
      ClaimKeeps(View(), r, m, now);
      if r !in attempts || attempts[r].machine != Some(m) || !attempts[r].state.Pending? {
        return false;
      }
      if !attempts[r].secret {
        return false;
      }
      attempts := attempts[r := attempts[r].(state := Preparing, claimedAt := Some(now), secret := false)];
      return true;
    }

    method MarkJobStarted(r: RunnerName, p: ProfileName) returns (done: Result<bool>)
      requires Valid()
      modifies this`attempts
      ensures done.Err? <==> !old(Known(View(), r, p))
      ensures View() == JobStarted(old(View()), r, p)
      ensures Valid() && OnlyAbout(old(View()), View(), r)
    {
      JobKeeps(View(), r, p);
      JobIsLocal(View(), r, p);
      if r !in attempts || attempts[r].profile != p {
        return Err("Job started for an unknown Attempt");
      }
      if Terminal(attempts[r].state) {
        return Ok(false);
      }
      if !attempts[r].state.Running? && attempts[r].retirement.Some? {
        attempts := attempts[r := attempts[r].(retirement := None, cleanupPending := false)];
      }
      attempts := attempts[r := attempts[r].(state := Running)];
      return Ok(true);
    }

    method MarkJobCompleted(r: RunnerName, p: ProfileName) returns (done: Result<bool>)
      requires Valid()
      modifies this
      ensures done.Err? <==> !old(Known(View(), r, p))
      ensures View() == JobCompleted(old(View()), r, p)
      ensures r in old(attempts) && Terminal(old(attempts[r].state)) ==> machines == old(machines)
      ensures Valid() && OnlyAbout(old(View()), View(), r)
    {
      JobKeeps(View(), r, p);
      JobIsLocal(View(), r, p);
      if r !in attempts || attempts[r].profile != p {
        return Err("Job completed for an unknown Attempt");
      }
      if !Terminal(attempts[r].state) {
        ReleaseMachineSlot(attempts[r].machine);
      }
      attempts := attempts[r := attempts[r].(state := Completed, secret := false, cleanupPending := false,
                                             retirement := None)];
      return Ok(true);
    }

    method CompleteRunnerCleanup(r: RunnerName, p: ProfileName, runnerId: nat) returns (known: bool)
      requires Valid()
      modifies this
      ensures known <==> old(KnownRunner(View(), r, p, runnerId))
      ensures View() == CompleteCleanup(old(View()), r, p, runnerId)
      ensures Valid() && OnlyAbout(old(View()), View(), r)
    {
      CleanupKeeps(View(), r, p, runnerId);
      if r !in attempts || attempts[r].profile != p || attempts[r].contract.runnerId != runnerId {
        return false;
      }
      if !attempts[r].cleanupPending {
        return true;
      }
      if IsRetiring(attempts[r]) {
        var ended := FinishRetirement(r, false);
        return true;
      }
      attempts := attempts[r := attempts[r].(cleanupPending := false, retirement := None)];
      return true;
    }

    method ReportAttempt(r: RunnerName, m: MachineId, exitCode: int, jobless: bool) returns (known: bool)
      requires Valid()
      modifies this
      ensures known <==> r in old(attempts) && old(attempts[r].machine) == Some(m)
      ensures View() == Report(old(View()), r, m, exitCode, jobless)
      ensures known && !Terminal(old(attempts[r].state)) ==>
                r in attempts && ExitLeaves(old(attempts[r]), attempts[r], exitCode, jobless)
      ensures Valid() && OnlyAbout(old(View()), View(), r)
    {
      ReportDecides(View(), r, m, exitCode, jobless);
      ReportKeeps(View(), r, m, exitCode, jobless);
      ReportIsLocal(View(), r, m, exitCode, jobless);
      if r !in attempts || attempts[r].machine != Some(m) {
        return false;
      }
      var attempt := attempts[r];
      if Terminal(attempt.state) {
        attempts := attempts[r := attempt.(secret := false)];
        return true;
      }
      ReleaseMachineSlot(attempt.machine);
      attempts := attempts[r := attempt.(secret := false)];
      if attempt.retirement.Some? && !attempt.state.Running? {
        attempts := attempts[r := attempts[r].(state := attempt.retirement.value.outcome,
                                               cleanupPending := true, retirement := None)];
        return true;
      }
      var failed := exitCode != 0 || (jobless && !attempt.state.Running?);
      var outlives := !attempt.state.Running? || exitCode != 0 || attempt.retirement.Some?;
      attempts := attempts[r := attempts[r].(state := if failed then Failed else Completed,
                                             cleanupPending := outlives, retirement := None)];
      return true;
    }

    // -------------------------------------------------------------------------------------------
    // The reconciler

    /** Mid-pass a requeued Attempt's slot is still counted, so the slots cover what is held but may exceed it. */
    method ReconcileAttempt(r: RunnerName, now: int, served: set<ProfileName>)
      requires RowsOk(View()) && SlotsCover(View())
      modifies this
      ensures View() == ReconcileOne(old(View()), r, now, served)
      ensures r in old(attempts) ==>
                r in attempts && PassLeaves(old(View()), old(attempts[r]), attempts[r], now, served)
      ensures RowsOk(View()) && SlotsCover(View()) && OnlyAbout(old(View()), View(), r)
    {
      ReconcileOneKeepsRows(View(), r, now, served);
      ReconcileOneCovers(View(), r, now, served);
      if r in attempts {
        OneLeaves(View(), r, now, served);
      }
      if r !in attempts || Terminal(attempts[r].state) {
        return;
      }
      PatchSame(View(), r);
      var attempt := attempts[r];
      if attempt.machine.None? {
        if now - attempt.createdAt > QUEUE_EXPIRED_MS {
          attempts := attempts[r := attempt.(state := Cancelled, secret := false, cleanupPending := true)];
        }
        return;
      }
      var m := attempt.machine.value;
      if attempt.state.Pending? && OfflineFor(Db(attempts, machines), m, now, WORKER_OFFLINE_AFTER_MS) {
        attempts := attempts[r := attempt.(machine := None)];
        return;
      }
      if attempt.retirement.Some? {
        if !OfflineFor(Db(attempts, machines), m, now, WORKER_OFFLINE_AFTER_MS) {
          var kept := KeepForReturningWorker(r);
          if kept {
            return;
          }
        }
        if BackstopDue(Db(attempts, machines), attempt, now, served) {
          var ended := FinishRetirement(r, true);
        }
        return;
      }
      if Abandoned(Db(attempts, machines), attempt, m, now) {
        var started := RetireAttempt(r, Failed, now);
      }
    }

    /** Counts the live work of every machine, as the repair does. */
    method CountHeld(rs: seq<RunnerName>, other: map<MachineId, nat>) returns (expected: map<MachineId, nat>)
      requires Distinct(rs)
      ensures forall m :: CountOf(expected, m) == CountOf(other, m) + |HoldersAmong(attempts, rs, m)|
    {
      expected := other;
      var i := 0;
      assert forall m :: HoldersAmong(attempts, rs[..0], m) == {};
      while i < |rs|
        invariant 0 <= i <= |rs|
        invariant forall m :: CountOf(expected, m) == CountOf(other, m) + |HoldersAmong(attempts, rs[..i], m)|
      {
        OneMoreCounted(attempts, rs, i);
        if rs[i] in attempts && !Terminal(attempts[rs[i]].state) && attempts[rs[i]].machine.Some? {
          var m := attempts[rs[i]].machine.value;
          expected := expected[m := CountOf(expected, m) + 1];
        }
        i := i + 1;
      }
      assert rs[..i] == rs;
    }

    method JudgeAttempts(rs: seq<RunnerName>, now: int, served: set<ProfileName>)
      requires Valid()
      modifies this
      ensures RowsOk(View()) && SlotsCover(View())
      ensures View() == ReconcileEach(old(View()), rs, now, served)
    {
      var i := 0;
      while i < |rs|
        invariant 0 <= i <= |rs| && RowsOk(View()) && SlotsCover(View())
        invariant View() == ReconcileEach(old(View()), rs[..i], now, served)
      {
        assert rs[..i + 1][..i] == rs[..i];
        ReconcileAttempt(rs[i], now, served);
        i := i + 1;
      }
      assert rs[..i] == rs;
    }

    method RepairSlots(rs: seq<RunnerName>, ms: seq<MachineId>, other: map<MachineId, nat>)
      requires Distinct(rs) && forall r :: r in attempts ==> r in rs
      requires forall m :: m in machines <==> m in ms
      modifies this`machines
      ensures View() == Repair(old(View()), other)
    {
      var expected := CountHeld(rs, other);
      var j := 0;
      while j < |ms|
        invariant 0 <= j <= |ms| && RepairedUpTo(old(machines), machines, other, expected, ms[..j])
      {
        var m, row := ms[j], machines[ms[j]];
        RepairsOne(old(machines), machines, other, expected, ms, j);
        if row.usedSlots != CountOf(expected, m) || row.otherWork != CountOf(other, m) {
          machines := machines[m := Repaired(row, CountOf(other, m), CountOf(expected, m))];
        }
        j := j + 1;
      }
      assert ms[..j] == ms;
      RepairedAll(old(View()), machines, other, expected, rs, ms);
    }

    /** One pass: every Attempt judged in turn, then every machine's slots counted afresh. */
    method Reconcile(rs: seq<RunnerName>, ms: seq<MachineId>, now: int, served: set<ProfileName>,
                     other: map<MachineId, nat>)
      requires Valid() && Distinct(rs) && forall r :: r in attempts ==> r in rs
      requires forall m :: m in machines <==> m in ms
      modifies this
      ensures Valid() && View() == ReconcileAll(old(View()), rs, now, served, other)
    {
      ReconcileKeeps(View(), rs, now, served, other);
      JudgeAttempts(rs, now, served);
      forall r ensures r in attempts <==> r in old(attempts) {
        PassRow(old(View()), rs, now, served, r);
      }
      PassRow(old(View()), rs, now, served, 0);
      RepairSlots(rs, ms, other);
    }
  }

  /** The machines in `done` have their counted slots, the others are as they were. */
  ghost predicate RepairedUpTo(base: map<MachineId, Machine>, machines: map<MachineId, Machine>,
                               other: map<MachineId, nat>, expected: map<MachineId, nat>, done: seq<MachineId>) {
    && machines.Keys == base.Keys
    && forall m :: m in base && m in machines ==>
         machines[m] == if m in done then Repaired(base[m], CountOf(other, m), CountOf(expected, m)) else base[m]
  }

  lemma RepairsOne(base: map<MachineId, Machine>, machines: map<MachineId, Machine>, other: map<MachineId, nat>,
                   expected: map<MachineId, nat>, ms: seq<MachineId>, j: nat)
    requires j < |ms| && ms[j] in machines && RepairedUpTo(base, machines, other, expected, ms[..j])
    ensures var row := Repaired(machines[ms[j]], CountOf(other, ms[j]), CountOf(expected, ms[j]));
            RepairedUpTo(base, machines[ms[j] := row], other, expected, ms[..j + 1])
    ensures var row := machines[ms[j]];
            row.usedSlots == CountOf(expected, ms[j]) && row.otherWork == CountOf(other, ms[j]) ==>
              RepairedUpTo(base, machines, other, expected, ms[..j + 1])
  {
    assert ms[..j + 1] == ms[..j] + [ms[j]];
  }

  lemma RepairedAll(db: Db, machines: map<MachineId, Machine>, other: map<MachineId, nat>,
                    expected: map<MachineId, nat>, rs: seq<RunnerName>, ms: seq<MachineId>)
    requires RepairedUpTo(db.machines, machines, other, expected, ms) && forall m :: m in db.machines ==> m in ms
    requires forall r :: r in db.attempts ==> r in rs
    requires forall m :: CountOf(expected, m) == CountOf(other, m) + |HoldersAmong(db.attempts, rs, m)|
    ensures machines == Repair(db, other).machines
  {
    forall m | m in machines ensures machines[m] == Repair(db, other).machines[m] {
      assert HoldersAmong(db.attempts, rs, m) == Holders(db.attempts, m);
    }
  }

  function Repaired(row: Machine, others: nat, expected: nat): Machine {
    row.(usedSlots := expected, otherWork := others)
  }

  lemma OneMoreCounted(attempts: map<RunnerName, Attempt>, rs: seq<RunnerName>, i: nat)
    requires Distinct(rs) && i < |rs|
    ensures forall m :: |HoldersAmong(attempts, rs[..i + 1], m)| == |HoldersAmong(attempts, rs[..i], m)| +
              if rs[i] in attempts && Holds(attempts[rs[i]], m) then 1 else 0
  {
    assert rs[..i + 1] == rs[..i] + [rs[i]];
    forall m
      ensures |HoldersAmong(attempts, rs[..i + 1], m)| == |HoldersAmong(attempts, rs[..i], m)| +
                if rs[i] in attempts && Holds(attempts[rs[i]], m) then 1 else 0
    {
      var before := HoldersAmong(attempts, rs[..i], m);
      assert HoldersAmong(attempts, rs[..i + 1], m) ==
             if rs[i] in attempts && Holds(attempts[rs[i]], m) then before + {rs[i]} else before;
    }
  }
}
