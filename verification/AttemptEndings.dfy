/**
 How Attempts end and why: what an executor's exit makes of one, which rows a reconciler pass retires by
 the clocks, and, over every run, that a settled or retiring Attempt has a step that accounts for it.
 */
module AttemptEndings {
  import opened Common
  import opened Retirement
  import opened RunnerProtocol

  // ---------------------------------------------------------------------------------------------
  // An executor's exit

  /** The state an exit leaves: as a pending retirement asked, or by the exit code and what the runner says. */
  ghost predicate ExitLeaves(a: Attempt, a': Attempt, exitCode: int, jobless: bool) {
    && (a.retirement.Some? && a.state != Running ==> a'.state == a.retirement.value.outcome)
    && (a.retirement.None? || a.state == Running ==>
          && (exitCode == 0 && (a.state == Running || !jobless) ==> a'.state == Completed)
          && (exitCode != 0 || (a.state != Running && jobless) ==> a'.state == Failed))
    && (a'.cleanupPending <==> !(a.state == Running && exitCode == 0 && a.retirement.None?))
    && a' == a.(state := a'.state, secret := false, cleanupPending := a'.cleanupPending, retirement := None)
  }

  /** A report by the Attempt's own Worker ends a live Attempt; any other report ends nothing. */
  lemma ReportDecides(db: Db, r: RunnerName, m: MachineId, exitCode: int, jobless: bool)
    ensures var db' := Report(db, r, m, exitCode, jobless);
            if r in db.attempts && db.attempts[r].machine == Some(m) then
              && r in db'.attempts
              && (db.attempts[r].state in {Completed, Cancelled, Failed} ==>
                    db'.attempts[r] == db.attempts[r].(secret := false))
              && (db.attempts[r].state !in {Completed, Cancelled, Failed} ==>
                    ExitLeaves(db.attempts[r], db'.attempts[r], exitCode, jobless))
            else db' == db
  {
  }

  // ---------------------------------------------------------------------------------------------
  // A reconciler pass, by the clocks

  /** The Worker is gone or has been silent for longer than this many milliseconds. */
  predicate SilentFor(db: Db, m: MachineId, now: int, ms: int) {
    m in db.machines ==> now - db.machines[m].lastSeen > ms
  }

  /** What a pass at `now` makes of an Attempt without a Worker: cancelled after a day in the queue. */
  ghost predicate Waits(a: Attempt, a': Attempt, now: int) {
    if now - a.createdAt > 86_400_000 then a' == a.(state := Cancelled, secret := false, cleanupPending := true)
    else a' == a
  }

  /** Of one not yet claimed: back to the queue after two minutes of silence. */
  ghost predicate WaitsFor(db: Db, a: Attempt, a': Attempt, m: MachineId, now: int) {
    a' == if SilentFor(db, m, now, 120_000) then a.(machine := None) else a
  }

  /**
   Of one that is claimed or running: two minutes of silence or 45 minutes of preparation fail an idle
   one, ten minutes of silence a running one. It is not ended yet: a retirement starts.
   */
  ghost predicate RetiresBy(db: Db, a: Attempt, a': Attempt, m: MachineId, now: int) {
    var since := if a.claimedAt.Some? then a.claimedAt.value else a.createdAt;
    var abandoned := if a.state == Running then SilentFor(db, m, now, 600_000)
                     else SilentFor(db, m, now, 120_000) || now - since > 2_700_000;
    a' == if abandoned then
            a.(secret := false, cleanupPending := true, retirement := Some(Retirement(Failed, now)))
          else a
  }

  /**
   Of one that retires: a running one is kept if its Worker was heard of within two minutes; otherwise,
   six hours after the request and without a live controller for its Profile, it ends as asked.
   */
  ghost predicate EndsBy(db: Db, a: Attempt, a': Attempt, m: MachineId, now: int, served: set<ProfileName>)
    requires a.retirement.Some?
  {
    if a.state == Running && !SilentFor(db, m, now, 120_000) then a' == a.(retirement := None, cleanupPending := false)
    else if now - a.retirement.value.requestedAt > 21_600_000 && a.profile !in served then
      a' == a.(state := a.retirement.value.outcome, secret := false, cleanupPending := true, retirement := None)
    else a' == a
  }

  ghost predicate PassLeaves(db: Db, a: Attempt, a': Attempt, now: int, served: set<ProfileName>) {
    if a.state in {Completed, Cancelled, Failed} then a' == a
    else if a.machine.None? then Waits(a, a', now)
    else if a.state == Pending then WaitsFor(db, a, a', a.machine.value, now)
    else if a.retirement.None? then RetiresBy(db, a, a', a.machine.value, now)
    else EndsBy(db, a, a', a.machine.value, now, served)
  }

  lemma OneLeaves(db: Db, r: RunnerName, now: int, served: set<ProfileName>)
    requires r in db.attempts && RowOk(db.attempts[r])
    ensures PassLeaves(db, db.attempts[r], ReconcileOne(db, r, now, served).attempts[r], now, served)
  {
  }

  /** After a pass a machine's used slots are its listed other work and the Attempts that hold one. */
  lemma PassRecounts(db: Db, rs: seq<RunnerName>, now: int, served: set<ProfileName>, other: map<MachineId, nat>,
                     m: MachineId)
    requires Distinct(rs) && m in db.machines
    ensures var db' := ReconcileAll(db, rs, now, served, other);
            && db'.machines.Keys == db.machines.Keys && db'.machines[m].lastSeen == db.machines[m].lastSeen
            && (m in other ==> db'.machines[m].otherWork == other[m])
            && (m !in other ==> db'.machines[m].otherWork == 0)
            && db'.machines[m].usedSlots ==
               db'.machines[m].otherWork
               + |set r | r in db'.attempts && db'.attempts[r].machine == Some(m)
                          && db'.attempts[r].state !in {Completed, Cancelled, Failed}|
  {
    PassRow(db, rs, now, served, 0);
    var db' := ReconcileAll(db, rs, now, served, other);
    assert Holders(db'.attempts, m) ==
           set r | r in db'.attempts && db'.attempts[r].machine == Some(m)
                   && db'.attempts[r].state !in {Completed, Cancelled, Failed};
  }

  /** A machine under an id nothing refers to joins empty; a known one, or one still referred to, changes nothing. */
  lemma JoinAddsEmpty(db: Db, m: MachineId, now: int)
    ensures var db' := Joined(db, m, now);
            && db'.attempts == db.attempts
            && (if m !in db.machines && forall r :: r in db.attempts ==> db.attempts[r].machine != Some(m)
                then db'.machines == db.machines[m := Machine(0, 0, now)] else db' == db)
  {
  }

  /** Every row a pass reads is left, retired, requeued, kept or ended by its own clocks alone. */
  lemma PassByClocks(db: Db, rs: seq<RunnerName>, now: int, served: set<ProfileName>, other: map<MachineId, nat>,
                     r: RunnerName)
    requires RowsOk(db) && Distinct(rs) && r in db.attempts
    ensures var db' := ReconcileAll(db, rs, now, served, other);
            && r in db'.attempts
            && if r in rs then PassLeaves(db, db.attempts[r], db'.attempts[r], now, served)
               else db'.attempts[r] == db.attempts[r]
  {
    PassRow(db, rs, now, served, r);
    OneLeaves(db, r, now, served);
  }

  // ---------------------------------------------------------------------------------------------
  // Messages about one Attempt

  /** A retirement for cancellation starts, unless one is under way. */
  function CancelAsked(a: Attempt, now: int): Attempt {
    if a.retirement.Some? then a
    else a.(secret := false, cleanupPending := true, retirement := Some(Retirement(Cancelled, now)))
  }

  /** What a message about the Attempt makes of its row. */
  ghost predicate MessageLeaves(db: Db, s: Step, a: Attempt, a': Attempt) {
    match s
    case AssignAttempt(_, m) =>
      a' == if a.state == Pending && a.machine == None && m in db.machines then a.(machine := Some(m)) else a
    case ClaimAttempt(_, m, now) =>
      a' == if a.state == Pending && a.machine == Some(m) && a.secret
            then a.(state := Preparing, claimedAt := Some(now), secret := false) else a
    case ReadyAttempt(_, m) => a' == if a.state == Preparing && a.machine == Some(m) then a.(state := Ready) else a
    case JobStartedMessage(_, p) =>
      if p != a.profile || a.state in {Completed, Cancelled, Failed} then a' == a
      else if a.state == Running then a' == a
      else a' == a.(state := Running, retirement := None,
                    cleanupPending := if a.retirement.Some? then false else a.cleanupPending)
    case JobCompletedMessage(_, p) =>
      a' == if p == a.profile
            then a.(state := Completed, secret := false, cleanupPending := false, retirement := None) else a
    case ScaleDown(_, p, now) =>
      if p != a.profile then a' == a
      else if a.state == Pending then a' == a.(state := Cancelled, secret := false, cleanupPending := true)
      else a' == if a.state in {Preparing, Ready} then CancelAsked(a, now) else a
    case DeleteConfirmed(_, p, runnerId) =>
      if p != a.profile || runnerId != a.contract.runnerId || !a.cleanupPending then a' == a
      else if a.retirement.Some? && a.state in {Preparing, Ready, Running} then
        a' == a.(state := a.retirement.value.outcome, secret := false, cleanupPending := false, retirement := None)
      else a' == a.(cleanupPending := false, retirement := None)
    case LostLabel(_, now) =>
      if a.machine == None then a' == a
      else if a.state == Pending then a' == a.(machine := None)
      else a' == if a.state in {Preparing, Ready} then CancelAsked(a, now) else a
    case _ => true
  }

  /** Steps that are a message about one Attempt, whose row they keep. */
  predicate IsMessage(s: Step) {
    || s.AssignAttempt? || s.ClaimAttempt? || s.ReadyAttempt? || s.JobStartedMessage? || s.JobCompletedMessage?
    || s.ScaleDown? || s.DeleteConfirmed? || s.LostLabel?
  }

  lemma MessageFrame(db: Db, s: Step, q: RunnerName)
    requires IsMessage(s)
    ensures Rows(db, s).attempts.Keys == db.attempts.Keys
    ensures q != s.r && q in db.attempts ==> Rows(db, s).attempts[q] == db.attempts[q]
  {
  }

  lemma PlacementMessageDoes(db: Db, s: Step)
    requires (s.AssignAttempt? || s.ClaimAttempt? || s.ReadyAttempt? || s.LostLabel?) && s.r in db.attempts
    ensures s.r in Rows(db, s).attempts && MessageLeaves(db, s, db.attempts[s.r], Rows(db, s).attempts[s.r])
  {
  }

  lemma ControllerMessageDoes(db: Db, s: Step)
    requires s.JobStartedMessage? || s.JobCompletedMessage? || s.ScaleDown? || s.DeleteConfirmed?
    requires s.r in db.attempts
    ensures s.r in Rows(db, s).attempts && MessageLeaves(db, s, db.attempts[s.r], Rows(db, s).attempts[s.r])
  {
  }

  /** Each message does exactly this to its Attempt, and nothing to a row it does not know or to any other. */
  lemma MessagesDo(db: Db, s: Step, q: RunnerName)
    requires IsMessage(s)
    ensures Rows(db, s).attempts.Keys == db.attempts.Keys
    ensures s.r in db.attempts ==> MessageLeaves(db, s, db.attempts[s.r], Rows(db, s).attempts[s.r])
    ensures q != s.r && q in db.attempts ==> Rows(db, s).attempts[q] == db.attempts[q]
  {
    MessageFrame(db, s, q);
    if s.r in db.attempts {
      if s.AssignAttempt? || s.ClaimAttempt? || s.ReadyAttempt? || s.LostLabel? {
        PlacementMessageDoes(db, s);
      } else {
        ControllerMessageDoes(db, s);
      }
    }
  }

  /** Creation adds a pending Attempt with its secret under a new name; retention drops one that owes nothing. */
  lemma RowsComeAndGo(db: Db, r: RunnerName, p: ProfileName, c: Contract, now: int)
    ensures var made := Create(db, r, p, c, now);
            && made.machines == db.machines
            && (if r in db.attempts then made == db
                else made.attempts == db.attempts[r := Attempt(p, c, Pending, None, None, false, true, now, None)])
    ensures var kept := Sweep(db, r);
            && kept.machines == db.machines
            && (if r in db.attempts && db.attempts[r].state in {Completed, Cancelled, Failed}
                   && !db.attempts[r].cleanupPending
                then kept.attempts == db.attempts - {r} else kept == db)
  {
  }

  lemma {:induction false} KeepRunningDoes(db: Db, m: MachineId, rs: seq<RunnerName>, r: RunnerName)
    requires r in db.attempts
    ensures var db' := KeepRunning(db, m, rs);
            && db'.machines == db.machines && r in db'.attempts
            && db'.attempts[r] == if r in rs && db.attempts[r].state == Running && db.attempts[r].machine == Some(m)
                                     && db.attempts[r].retirement.Some?
                                  then db.attempts[r].(retirement := None, cleanupPending := false)
                                  else db.attempts[r]
  {
    if rs != [] {
      KeepRunningDoes(db, m, rs[..|rs| - 1], r);
      assert rs == rs[..|rs| - 1] + [rs[|rs| - 1]];
    }
  }

  /**
   A heartbeat notes the time. If the Worker had been silent for more than two minutes it also calls off
   the retirement of what it is running, and of nothing else.
   */
  lemma HeartbeatDoes(db: Db, m: MachineId, rs: seq<RunnerName>, now: int, r: RunnerName)
    requires m in db.machines && r in db.attempts
    ensures var db', a := Heartbeat(db, m, rs, now), db.attempts[r];
            && db'.machines == db.machines[m := db.machines[m].(lastSeen := now)] && r in db'.attempts
            && db'.attempts[r] == if now - db.machines[m].lastSeen > 120_000 && r in rs && a.state == Running
                                     && a.machine == Some(m) && a.retirement.Some?
                                  then a.(retirement := None, cleanupPending := false)
                                  else a
  {
    KeepRunningDoes(db, m, rs, r);
  }

  // ---------------------------------------------------------------------------------------------
  // Over runs: every ending has a cause

  /** A retirement of this outcome ends here: its delete is confirmed, its idle executor exits, or the backstop acts. */
  ghost predicate RetirementEnds(db: Db, s: Step, r: RunnerName, outcome: State) {
    && r in db.attempts && db.attempts[r].retirement.Some? && db.attempts[r].retirement.value.outcome == outcome
    && match s
       case DeleteConfirmed(q, p, runnerId) =>
         q == r && db.attempts[r].profile == p && db.attempts[r].contract.runnerId == runnerId
       case ExitReported(q, m, _, _) => q == r && db.attempts[r].machine == Some(m) && db.attempts[r].state != Running
       case ReconcilePass(rs, now, served, _) =>
         r in rs && now - db.attempts[r].retirement.value.requestedAt > 21_600_000 && db.attempts[r].profile !in served
       case _ => false
  }

  /** The step is a reason for the Attempt to be in this final state. */
  ghost predicate Causes(db: Db, s: Step, r: RunnerName, st: State) {
    r in db.attempts &&
    var a := db.attempts[r];
    match st
    case Completed =>
      || (s.JobCompletedMessage? && s.r == r && s.p == a.profile)
      || (s.ExitReported? && s.r == r && a.machine == Some(s.m)
          && s.exitCode == 0 && (a.state == Running || !s.jobless))
    case Failed =>
      || (s.ExitReported? && s.r == r && a.machine == Some(s.m)
          && (s.exitCode != 0 || (a.state != Running && s.jobless)))
      || RetirementEnds(db, s, r, Failed)
    case Cancelled =>
      || (s.ScaleDown? && s.r == r && s.p == a.profile && a.state == Pending)
      || (s.ReconcilePass? && r in s.rs && a.machine.None? && s.now - a.createdAt > 86_400_000)
      || RetirementEnds(db, s, r, Cancelled)
    case _ => false
  }

  /** The step is a reason for the Attempt to retire with this outcome, at this time. */
  ghost predicate Retires(db: Db, s: Step, r: RunnerName, ret: Retirement) {
    r in db.attempts &&
    var a := db.attempts[r];
    match s
    case ScaleDown(q, p, now) => q == r && p == a.profile && ret == Retirement(Cancelled, now) && a.state != Running
    case LostLabel(q, now) => q == r && ret == Retirement(Cancelled, now) && a.state != Running
    case ReconcilePass(rs, now, _, _) => r in rs && ret == Retirement(Failed, now)
    case _ => false
  }

  /** What a handler may do to a row besides ending it: nothing to its state's finality, and no new retirement. */
  ghost predicate Explained(db: Db, s: Step, r: RunnerName, a': Attempt) {
    && (Terminal(a'.state) ==> (r in db.attempts && db.attempts[r].state == a'.state) || Causes(db, s, r, a'.state))
    && (a'.retirement.Some? ==>
          || (r in db.attempts && db.attempts[r].retirement == a'.retirement)
          || Retires(db, s, r, a'.retirement.value))
  }

  /** Retirements only ever ask for a cancellation or a failure. */
  ghost predicate OutcomesOk(db: Db) {
    forall r :: r in db.attempts && db.attempts[r].retirement.Some? ==>
      db.attempts[r].retirement.value.outcome in {Cancelled, Failed}
  }

  lemma SameIsExplained(db: Db, s: Step, r: RunnerName, a': Attempt)
    requires r in db.attempts && db.attempts[r].state == a'.state
    requires a'.retirement.Some? ==> db.attempts[r].retirement == a'.retirement
    ensures Explained(db, s, r, a')
  {
  }

  lemma MessageExplained(db: Db, s: Step, a': Attempt)
    requires RowsOk(db) && OutcomesOk(db) && IsMessage(s) && s.r in db.attempts
    requires MessageLeaves(db, s, db.attempts[s.r], a')
    ensures Explained(db, s, s.r, a')
  {
  }

  lemma ExitExplained(db: Db, s: Step, a': Attempt)
    requires OutcomesOk(db) && s.ExitReported? && s.r in db.attempts && db.attempts[s.r].machine == Some(s.m)
    requires ExitLeaves(db.attempts[s.r], a', s.exitCode, s.jobless)
    ensures Explained(db, s, s.r, a')
  {
  }

  lemma ReportExplained(db: Db, s: Step, r: RunnerName)
    requires OutcomesOk(db) && s.ExitReported? && r in Rows(db, s).attempts
    ensures Explained(db, s, r, Rows(db, s).attempts[r])
  {
    ReportDecides(db, s.r, s.m, s.exitCode, s.jobless);
    var a' := Rows(db, s).attempts[r];
    if r == s.r && db.attempts[r].machine == Some(s.m) && db.attempts[r].state !in {Completed, Cancelled, Failed} {
      ExitExplained(db, s, a');
    } else {
      SameIsExplained(db, s, r, a');
    }
  }

  lemma HandlerExplained(db: Db, s: Step, r: RunnerName)
    requires RowsOk(db) && OutcomesOk(db) && !s.WorkerHeartbeat? && !s.ReconcilePass? && r in Rows(db, s).attempts
    ensures Explained(db, s, r, Rows(db, s).attempts[r])
  {
    if IsMessage(s) {
      MessagesDo(db, s, r);
      if r == s.r {
        MessageExplained(db, s, Rows(db, s).attempts[r]);
      } else {
        SameIsExplained(db, s, r, Rows(db, s).attempts[r]);
      }
    } else if s.ExitReported? {
      ReportExplained(db, s, r);
    }
  }

  lemma {:induction false} KeepRunningExplained(db: Db, m: MachineId, rs: seq<RunnerName>, r: RunnerName)
    ensures r in KeepRunning(db, m, rs).attempts <==> r in db.attempts
    ensures r in db.attempts ==>
              var a, a' := db.attempts[r], KeepRunning(db, m, rs).attempts[r];
              a'.state == a.state && (a'.retirement == a.retirement || a'.retirement.None?)
  {
    if rs != [] {
      KeepRunningExplained(db, m, rs[..|rs| - 1], r);
    }
  }

  lemma StepExplained(db: Db, s: Step, r: RunnerName)
    requires RowsOk(db) && OutcomesOk(db) && (s.ReconcilePass? ==> Distinct(s.rs)) && r in Rows(db, s).attempts
    ensures Explained(db, s, r, Rows(db, s).attempts[r])
  {
    match s
    case WorkerHeartbeat(m, rs, now) => KeepRunningExplained(db, m, rs, r);
    case ReconcilePass(rs, now, served, other) =>
      PassRow(db, rs, now, served, r);
      PassByClocks(db, rs, now, served, other, r);
    case _ => HandlerExplained(db, s, r);
  }

  ghost predicate CausedAt(w: World, steps: seq<Step>, i: nat, r: RunnerName, st: State) {
    i < |steps| && Causes(Run(w, steps[..i]).db, steps[i], r, st)
  }

  ghost predicate RetiredAt(w: World, steps: seq<Step>, i: nat, r: RunnerName, ret: Retirement) {
    i < |steps| && Retires(Run(w, steps[..i]).db, steps[i], r, ret)
  }

  /** The row has a step of the run that accounts for how it ended, and one for its retirement. */
  ghost predicate Accounted(w: World, steps: seq<Step>, r: RunnerName, a: Attempt) {
    && (Terminal(a.state) ==> exists i :: 0 <= i < |steps| && CausedAt(w, steps, i, r, a.state))
    && (a.retirement.Some? ==> exists i :: 0 <= i < |steps| && RetiredAt(w, steps, i, r, a.retirement.value))
  }

  lemma StillAccounted(w: World, steps: seq<Step>, r: RunnerName, a: Attempt, a': Attempt)
    requires steps != [] && Accounted(w, steps[..|steps| - 1], r, a)
    requires Terminal(a'.state) ==> a'.state == a.state || CausedAt(w, steps, |steps| - 1, r, a'.state)
    requires a'.retirement.Some? ==>
               a'.retirement == a.retirement || RetiredAt(w, steps, |steps| - 1, r, a'.retirement.value)
    ensures Accounted(w, steps, r, a')
  {
    var n := |steps| - 1;
    if Terminal(a'.state) && !CausedAt(w, steps, n, r, a'.state) {
      var i :| 0 <= i < n && CausedAt(w, steps[..n], i, r, a.state);
      assert steps[..n][..i] == steps[..i];
      assert CausedAt(w, steps, i, r, a'.state);
    }
    if a'.retirement.Some? && !RetiredAt(w, steps, n, r, a'.retirement.value) {
      var i :| 0 <= i < n && RetiredAt(w, steps[..n], i, r, a.retirement.value);
      assert steps[..n][..i] == steps[..i];
      assert RetiredAt(w, steps, i, r, a'.retirement.value);
    }
  }

  lemma StepOutcomes(db: Db, s: Step)
    requires RowsOk(db) && OutcomesOk(db) && (s.ReconcilePass? ==> Distinct(s.rs))
    ensures OutcomesOk(Rows(db, s))
  {
    forall r | r in Rows(db, s).attempts && Rows(db, s).attempts[r].retirement.Some?
      ensures Rows(db, s).attempts[r].retirement.value.outcome in {Cancelled, Failed}
    {
      StepExplained(db, s, r);
    }
  }

  /**
   In every run: an Attempt is Completed only by its job's completion or a clean exit, Failed only by a
   failing exit or a retirement that asked for it, Cancelled only by a scale-down or expiry while it
   waited or a retirement that asked for it; and a retirement comes from a scale-down, a lost label or
   the reconciler.
   */
  lemma {:induction false} EveryEndingHasACause(w: World, steps: seq<Step>, r: RunnerName)
    requires Start(w) && Allowed(w, steps)
    ensures OutcomesOk(Run(w, steps).db)
    ensures r in Run(w, steps).db.attempts ==> Accounted(w, steps, r, Run(w, steps).db.attempts[r])
  {
    if steps != [] {
      var n := |steps| - 1;
      var db, s := Run(w, steps[..n]).db, steps[n];
      EveryEndingHasACause(w, steps[..n], r);
      BooksBalance(w, steps[..n]);
      StepOutcomes(db, s);
      if r in Rows(db, s).attempts {
        StepExplained(db, s, r);
        var a' := Rows(db, s).attempts[r];
        var a := if r in db.attempts then db.attempts[r] else a'.(state := Pending, retirement := None);
        StillAccounted(w, steps, r, a, a');
      }
    }
  }
}
