/**
 Attempts and their GitHub Runners together. GitHub gives a job only to a Runner that is online,
 refuses to delete a busy one, and the controller acknowledges only deletes GitHub confirmed. Job
 messages, acknowledgements and executor reports may arrive any number of times, at any later time.
 */
module RunnerProtocol {
  import opened Common
  import opened Retirement

  /** Over: the job is over or the executor gone. Deleted: GitHub has removed the registration. */
  datatype Phase = Registered | Configured | Idle | Busy | Over | Deleted

  datatype Runner = Runner(phase: Phase, tookJob: bool)

  datatype World = World(db: Db, runners: map<RunnerName, Runner>)

  /** The Runner has its JIT config and may have, or still get, a job. */
  predicate Online(p: Phase) {
    p.Configured? || p.Idle? || p.Busy?
  }

  datatype Step =
    | Register(r: RunnerName)
    | ComeOnline(r: RunnerName)
    | TakeJob(r: RunnerName)
    | RunnerEnds(r: RunnerName)
    | DeleteRunner(r: RunnerName)
    | CreateAttempt(r: RunnerName, p: ProfileName, c: Contract, now: int)
    | AssignAttempt(r: RunnerName, m: MachineId)
    | ClaimAttempt(r: RunnerName, m: MachineId, now: int)
    | ReadyAttempt(r: RunnerName, m: MachineId)
    | JobStartedMessage(r: RunnerName, p: ProfileName)
    | JobCompletedMessage(r: RunnerName, p: ProfileName)
    | ScaleDown(r: RunnerName, p: ProfileName, now: int)
    | DeleteConfirmed(r: RunnerName, p: ProfileName, runnerId: nat)
    | ExitReported(r: RunnerName, m: MachineId, exitCode: int, jobless: bool)
    | LostLabel(r: RunnerName, now: int)
    | WorkerHeartbeat(m: MachineId, rs: seq<RunnerName>, now: int)
    | ReconcilePass(rs: seq<RunnerName>, now: int, served: set<ProfileName>, other: map<MachineId, nat>)
    | OtherWork(m: MachineId, starts: bool)
    | Retention(r: RunnerName)
    | MachineJoins(m: MachineId, now: int)
    | MachineLeaves(m: MachineId)

  predicate PhaseIn(w: World, r: RunnerName, ps: set<Phase>) {
    r in w.runners && w.runners[r].phase in ps
  }

  /** What GitHub, the controller and the Workers may do. The reconciler's backstop is not limited here. */
  ghost predicate Enabled(w: World, s: Step) {
    match s
    case Register(r) => r !in w.runners
    case ComeOnline(r) => PhaseIn(w, r, {Configured})
    case TakeJob(r) => PhaseIn(w, r, {Idle})
    case RunnerEnds(r) => PhaseIn(w, r, {Configured, Idle, Busy})
    case DeleteRunner(r) => PhaseIn(w, r, {Registered, Configured, Idle, Over, Deleted})
    case CreateAttempt(r, _, _, _) => r in w.runners
    case JobStartedMessage(r, _) => r in w.runners && w.runners[r].tookJob
    case JobCompletedMessage(r, _) => PhaseIn(w, r, {Over, Deleted}) && w.runners[r].tookJob
    case DeleteConfirmed(r, _, _) => PhaseIn(w, r, {Deleted})
    case ExitReported(r, _, _, _) => PhaseIn(w, r, {Over, Deleted})
    case ReconcilePass(rs, _, _, _) => Distinct(rs)
    case OtherWork(m, starts) => m in w.db.machines && (starts || w.db.machines[m].otherWork > 0)
    case _ => true
  }

  function Enter(w: World, r: RunnerName, p: Phase): World
    requires r in w.runners
  {
    w.(runners := w.runners[r := w.runners[r].(phase := p)])
  }

  function WithOther(db: Db, m: MachineId, starts: bool): Db
    requires m in db.machines
  {
    var row := db.machines[m];
    if starts then
      db.(machines := db.machines[m := row.(usedSlots := row.usedSlots + 1, otherWork := row.otherWork + 1)])
    else if row.otherWork == 0 || row.usedSlots == 0 then db
    else db.(machines := db.machines[m := row.(usedSlots := row.usedSlots - 1, otherWork := row.otherWork - 1)])
  }

  function Rows(db: Db, s: Step): Db {
    match s
    case CreateAttempt(r, p, c, now) => Create(db, r, p, c, now)
    case AssignAttempt(r, m) => Assign(db, r, m)
    case ClaimAttempt(r, m, now) => Claim(db, r, m, now)
    case ReadyAttempt(r, m) => MarkReady(db, r, m)
    case JobStartedMessage(r, p) => JobStarted(db, r, p)
    case JobCompletedMessage(r, p) => JobCompleted(db, r, p)
    case ScaleDown(r, p, now) => Cancel(db, r, p, now)
    case DeleteConfirmed(r, p, runnerId) => CompleteCleanup(db, r, p, runnerId)
    case ExitReported(r, m, exitCode, jobless) => Report(db, r, m, exitCode, jobless)
    case LostLabel(r, now) => OffPin(db, r, now)
    case WorkerHeartbeat(m, rs, now) => Heartbeat(db, m, rs, now)
    case ReconcilePass(rs, now, served, other) => ReconcileAll(db, rs, now, served, other)
    case OtherWork(m, starts) => if m in db.machines then WithOther(db, m, starts) else db
    case Retention(r) => Sweep(db, r)
    case MachineJoins(m, now) => Joined(db, m, now)
    case MachineLeaves(m) => Left(db, m)
    case _ => db
  }

  function Runners(w: World, s: Step): map<RunnerName, Runner> {
    match s
    case Register(r) => w.runners[r := Runner(Registered, false)]
    case ComeOnline(r) => if r in w.runners then Enter(w, r, Idle).runners else w.runners
    case TakeJob(r) => w.runners[r := Runner(Busy, true)]
    case RunnerEnds(r) => if r in w.runners then Enter(w, r, Over).runners else w.runners
    case DeleteRunner(r) => if r in w.runners then Enter(w, r, Deleted).runners else w.runners
    case ClaimAttempt(r, m, _) =>
      if Claimable(w.db, r, m) && PhaseIn(w, r, {Registered}) then Enter(w, r, Configured).runners else w.runners
    case _ => w.runners
  }

  function Next(w: World, s: Step): World {
    World(Rows(w.db, s), Runners(w, s))
  }

  function Run(w: World, steps: seq<Step>): World {
    if steps == [] then w else Next(Run(w, steps[..|steps| - 1]), steps[|steps| - 1])
  }

  ghost predicate Allowed(w: World, steps: seq<Step>) {
    steps != [] ==>
      var n := |steps| - 1;
      Allowed(w, steps[..n]) && Enabled(Run(w, steps[..n]), steps[n])
  }

  /** No Attempt yet, and every used slot belongs to a Job or an Experiment. */
  ghost predicate Start(w: World) {
    && w.db.attempts == map[] && w.runners == map[]
    && forall m :: m in w.db.machines ==> w.db.machines[m].usedSlots == w.db.machines[m].otherWork
  }

  // ---------------------------------------------------------------------------------------------
  // The books balance after every step

  lemma CreateKeeps(db: Db, r: RunnerName, p: ProfileName, c: Contract, now: int)
    requires Books(db)
    ensures Books(Create(db, r, p, c, now))
  {
    if r !in db.attempts {
      PatchKeepsSlots(db, r, Created(p, c, now));
    }
  }

  lemma AssignKeeps(db: Db, r: RunnerName, m: MachineId)
    requires Books(db)
    ensures Books(Assign(db, r, m))
  {
    var db' := Assign(db, r, m);
    if db' != db {
      var a := db.attempts[r].(machine := Some(m));
      assert db'.attempts == db.attempts[r := a];
      forall k | k in db'.machines
        ensures db'.machines[k].usedSlots == db'.machines[k].otherWork + |Holders(db'.attempts, k)|
      {
        HoldersAfter(db.attempts, r, a, k);
      }
    }
  }

  lemma ClaimKeeps(db: Db, r: RunnerName, m: MachineId, now: int)
    requires Books(db)
    ensures Books(Claim(db, r, m, now)) && Books(MarkReady(db, r, m))
  {
    if r in db.attempts {
      var a := db.attempts[r];
      if Claimable(db, r, m) {
        PatchKeeps(db, r, a.(state := Preparing, claimedAt := Some(now), secret := false));
      }
      if a.machine == Some(m) && a.state.Preparing? {
        PatchKeeps(db, r, a.(state := Ready));
      }
    }
  }

  lemma JobKeeps(db: Db, r: RunnerName, p: ProfileName)
    requires Books(db)
    ensures Books(JobStarted(db, r, p)) && Books(JobCompleted(db, r, p))
  {
    if Known(db, r, p) {
      var a := db.attempts[r];
      if Terminal(a.state) {
        PatchKeeps(db, r, JobDone(a));
      } else {
        PatchKeeps(db, r, JobRunning(a));
        SettleKeeps(db, r, JobDone(a));
      }
    }
  }

  lemma EndKeeps(db: Db, r: RunnerName, p: ProfileName, now: int)
    requires Books(db)
    ensures Books(Cancel(db, r, p, now)) && Books(OffPin(db, r, now))
  {
    if r in db.attempts {
      var a := db.attempts[r];
      if a.state.Pending? {
        SettleKeeps(db, r, CancelledUnclaimed(a));
        SettleKeeps(db, r, a.(machine := None));
      } else if a.state.Preparing? || a.state.Ready? {
        PatchKeeps(db, r, Retire(a, Cancelled, now));
      }
    }
  }

  lemma CleanupKeeps(db: Db, r: RunnerName, p: ProfileName, runnerId: nat)
    requires Books(db)
    ensures Books(CompleteCleanup(db, r, p, runnerId))
  {
    if KnownRunner(db, r, p, runnerId) && db.attempts[r].cleanupPending {
      var a := db.attempts[r];
      if IsRetiring(a) {
        SettleKeeps(db, r, Finished(a, false));
      } else {
        PatchKeeps(db, r, a.(cleanupPending := false, retirement := None));
      }
    }
  }

  lemma ReportKeeps(db: Db, r: RunnerName, m: MachineId, exitCode: int, jobless: bool)
    requires Books(db)
    ensures Books(Report(db, r, m, exitCode, jobless))
  {
    if r in db.attempts && db.attempts[r].machine == Some(m) {
      var a := db.attempts[r];
      if Terminal(a.state) {
        PatchKeeps(db, r, a.(secret := false));
      } else {
        SettleKeeps(db, r, Exited(a, exitCode, jobless));
      }
    }
  }

  lemma {:induction false} KeepRunningKeeps(db: Db, m: MachineId, rs: seq<RunnerName>)
    requires Books(db)
    ensures Books(KeepRunning(db, m, rs))
    ensures KeepRunning(db, m, rs).machines == db.machines
  {
    if rs != [] {
      var n := |rs| - 1;
      KeepRunningKeeps(db, m, rs[..n]);
      var before := KeepRunning(db, m, rs[..n]);
      if rs[n] in before.attempts && before.attempts[rs[n]].machine == Some(m) {
        PatchKeeps(before, rs[n], KeptForWorker(before.attempts[rs[n]]));
      }
    }
  }

  lemma HeartbeatKeeps(db: Db, m: MachineId, rs: seq<RunnerName>, now: int)
    requires Books(db)
    ensures Books(Heartbeat(db, m, rs, now))
  {
    KeepRunningKeeps(db, m, rs);
  }

  lemma ReconcileOneKeepsRows(db: Db, r: RunnerName, now: int, served: set<ProfileName>)
    requires RowsOk(db)
    ensures RowsOk(ReconcileOne(db, r, now, served))
  {
  }

  lemma {:induction false} ReconcileKeeps(db: Db, rs: seq<RunnerName>, now: int, served: set<ProfileName>,
                                          other: map<MachineId, nat>)
    requires RowsOk(db)
    ensures RowsOk(ReconcileEach(db, rs, now, served))
    ensures Books(ReconcileAll(db, rs, now, served, other))
  {
    if rs != [] {
      ReconcileKeeps(db, rs[..|rs| - 1], now, served, other);
      ReconcileOneKeepsRows(ReconcileEach(db, rs[..|rs| - 1], now, served), rs[|rs| - 1], now, served);
    }
  }

  lemma SweepKeeps(db: Db, r: RunnerName)
    requires Books(db)
    ensures Books(Sweep(db, r))
  {
    var db' := Sweep(db, r);
    if db' != db {
      forall m | m in db.machines ensures Holders(db'.attempts, m) == Holders(db.attempts, m) {
      }
    }
  }

  lemma JoinKeeps(db: Db, m: MachineId, now: int)
    requires Books(db)
    ensures Books(Joined(db, m, now))
  {
    if Joined(db, m, now) != db {
      assert Holders(db.attempts, m) == {};
    }
  }

  lemma LeaveKeeps(db: Db, m: MachineId)
    requires Books(db)
    ensures Books(Left(db, m))
  {
  }

  lemma StepKeepsBooks(db: Db, s: Step)
    requires Books(db)
    ensures Books(Rows(db, s))
  {
    match s
    case CreateAttempt(r, p, c, now) => CreateKeeps(db, r, p, c, now);
    case AssignAttempt(r, m) => AssignKeeps(db, r, m);
    case ClaimAttempt(r, m, now) => ClaimKeeps(db, r, m, now);
    case ReadyAttempt(r, m) => ClaimKeeps(db, r, m, 0);
    case JobStartedMessage(r, p) => JobKeeps(db, r, p);
    case JobCompletedMessage(r, p) => JobKeeps(db, r, p);
    case ScaleDown(r, p, now) => EndKeeps(db, r, p, now);
    case DeleteConfirmed(r, p, runnerId) => CleanupKeeps(db, r, p, runnerId);
    case ExitReported(r, m, exitCode, jobless) => ReportKeeps(db, r, m, exitCode, jobless);
    case LostLabel(r, now) => EndKeeps(db, r, 0, now);
    case WorkerHeartbeat(m, rs, now) => HeartbeatKeeps(db, m, rs, now);
    case ReconcilePass(rs, now, served, other) => ReconcileKeeps(db, rs, now, served, other);
    case Retention(r) => SweepKeeps(db, r);
    case MachineJoins(m, now) => JoinKeeps(db, m, now);
    case MachineLeaves(m) => LeaveKeeps(db, m);
    case _ =>
  }

  /**
   In every run, backstop included: each machine's used slots are its other work plus its
   unsettled Attempts, and every row is well kept.
   */
  lemma {:induction false} BooksBalance(w: World, steps: seq<Step>)
    requires Start(w)
    ensures Books(Run(w, steps).db)
  {
    if steps == [] {
      assert forall m :: Holders(w.db.attempts, m) == {};
    } else {
      BooksBalance(w, steps[..|steps| - 1]);
      StepKeepsBooks(Run(w, steps[..|steps| - 1]).db, steps[|steps| - 1]);
    }
  }

  // ---------------------------------------------------------------------------------------------
  // The reconciler's pass, row by row

  ghost predicate SameClocks(db: Db, db': Db) {
    && db.machines.Keys == db'.machines.Keys
    && forall m :: m in db.machines ==> db.machines[m].lastSeen == db'.machines[m].lastSeen
  }

  /** The verdict on a row depends on that row and the clocks, and its effect on no other row. */
  lemma ReconcileOneIsLocal(db: Db, db': Db, q: RunnerName, now: int, served: set<ProfileName>)
    requires SameClocks(db, db')
    ensures SameClocks(db, ReconcileOne(db', q, now, served))
    ensures ReconcileOne(db', q, now, served).attempts.Keys == db'.attempts.Keys
    ensures forall r :: r in db'.attempts && r != q ==>
              ReconcileOne(db', q, now, served).attempts[r] == db'.attempts[r]
    ensures q in db.attempts && q in db'.attempts && db.attempts[q] == db'.attempts[q] ==>
              ReconcileOne(db', q, now, served).attempts[q] == ReconcileOne(db, q, now, served).attempts[q]
  {
    if q in db.attempts && q in db'.attempts && db.attempts[q] == db'.attempts[q] {
      assert Judge(db, db.attempts[q], now, served) == Judge(db', db.attempts[q], now, served);
    }
  }

  /** Every row ends as if the pass had handled it alone: the order of the pass does not matter. */
  lemma {:induction false} PassRow(db: Db, rs: seq<RunnerName>, now: int, served: set<ProfileName>, r: RunnerName)
    requires Distinct(rs)
    ensures var db' := ReconcileEach(db, rs, now, served);
            && SameClocks(db, db') && (r in db'.attempts <==> r in db.attempts)
            && (r in db.attempts ==>
                  db'.attempts[r] == if r in rs then ReconcileOne(db, r, now, served).attempts[r] else db.attempts[r])
  {
    if rs != [] {
      var n := |rs| - 1;
      PassRow(db, rs[..n], now, served, r);
      ReconcileOneIsLocal(db, ReconcileEach(db, rs[..n], now, served), rs[n], now, served);
      assert rs == rs[..n] + [rs[n]];
      assert rs[n] !in rs[..n];
    }
  }

  /** Mid-pass, no machine's used slots fall below what its work holds, so no release is clamped. */
  ghost predicate SlotsCover(db: Db) {
    forall m :: m in db.machines ==>
      db.machines[m].usedSlots >= db.machines[m].otherWork + |Holders(db.attempts, m)|
  }

  lemma SettleCovers(db: Db, r: RunnerName, a: Attempt)
    requires SlotsCover(db) && r in db.attempts && !Terminal(db.attempts[r].state) && Terminal(a.state)
    ensures SlotsCover(Settle(db, r, a))
  {
    forall m | m in db.machines
      ensures |Holders(Settle(db, r, a).attempts, m)| ==
              |Holders(db.attempts, m)| - if Holds(db.attempts[r], m) then 1 else 0
    {
      HoldersAfter(db.attempts, r, a, m);
    }
  }

  lemma ReconcileOneCovers(db: Db, r: RunnerName, now: int, served: set<ProfileName>)
    requires SlotsCover(db) && RowsOk(db)
    ensures SlotsCover(ReconcileOne(db, r, now, served))
  {
    var db' := ReconcileOne(db, r, now, served);
    if r in db.attempts && Judge(db, db.attempts[r], now, served).EndUnconfirmed? {
      SettleCovers(db, r, Finished(db.attempts[r], true));
    } else if r in db.attempts {
      assert db' == Patch(db, r, db'.attempts[r]);
      forall m | m in db.machines ensures |Holders(db'.attempts, m)| <= |Holders(db.attempts, m)| {
        HoldersAfter(db.attempts, r, db'.attempts[r], m);
      }
    }
  }

  lemma {:induction false} PassNeverClamps(db: Db, rs: seq<RunnerName>, now: int, served: set<ProfileName>,
                                           r: RunnerName, m: MachineId)
    requires Books(db)
    ensures var mid := ReconcileEach(db, rs, now, served);
            && RowsOk(mid) && SlotsCover(mid)
            && (r in mid.attempts && Holds(mid.attempts[r], m) && m in mid.machines ==> mid.machines[m].usedSlots > 0)
  {
    if rs != [] {
      var n := |rs| - 1;
      PassNeverClamps(db, rs[..n], now, served, r, m);
      ReconcileOneKeepsRows(ReconcileEach(db, rs[..n], now, served), rs[n], now, served);
      ReconcileOneCovers(ReconcileEach(db, rs[..n], now, served), rs[n], now, served);
    }
    var mid := ReconcileEach(db, rs, now, served);
    if r in mid.attempts && Holds(mid.attempts[r], m) && m in mid.machines {
      assert r in Holders(mid.attempts, m);
    }
  }

  // ---------------------------------------------------------------------------------------------
  // Job safety

  predicate OnlineIn(w: World, r: RunnerName) {
    r in w.runners && Online(w.runners[r].phase)
  }

  predicate LiveIn(db: Db, r: RunnerName) {
    r in db.attempts && RunnerMayBeOnline(db.attempts[r].state) && db.attempts[r].machine.Some?
  }

  /** Every Runner that has, or may get, a job is backed by a live Attempt on a Worker. */
  ghost predicate Sheltered(w: World) {
    forall r :: OnlineIn(w, r) ==> LiveIn(w.db, r)
  }

  /** The pass's backstop ends no Attempt whose Runner is online. */
  ghost predicate SparesOnline(w: World, rs: seq<RunnerName>, now: int, served: set<ProfileName>) {
    forall r :: r in rs && r in w.db.attempts && Judge(w.db, w.db.attempts[r], now, served).EndUnconfirmed? ==>
      !OnlineIn(w, r)
  }

  lemma ReconcileOneLives(db: Db, r: RunnerName, now: int, served: set<ProfileName>)
    requires RowsOk(db) && LiveIn(db, r)
    ensures LiveIn(ReconcileOne(db, r, now, served), r) <==> !Judge(db, db.attempts[r], now, served).EndUnconfirmed?
  {
  }

  lemma PassLives(db: Db, rs: seq<RunnerName>, now: int, served: set<ProfileName>, r: RunnerName)
    requires RowsOk(db) && LiveIn(db, r) && Distinct(rs)
    ensures LiveIn(ReconcileEach(db, rs, now, served), r)
            <==> !(r in rs && Judge(db, db.attempts[r], now, served).EndUnconfirmed?)
  {
    PassRow(db, rs, now, served, r);
    ReconcileOneLives(db, r, now, served);
  }

  lemma PassSheltersIff(w: World, rs: seq<RunnerName>, now: int, served: set<ProfileName>, other: map<MachineId, nat>)
    requires RowsOk(w.db) && Sheltered(w) && Distinct(rs)
    ensures Sheltered(Next(w, ReconcilePass(rs, now, served, other))) <==> SparesOnline(w, rs, now, served)
  {
    var w' := Next(w, ReconcilePass(rs, now, served, other));
    forall r | OnlineIn(w, r)
      ensures LiveIn(w'.db, r) <==> !(r in rs && Judge(w.db, w.db.attempts[r], now, served).EndUnconfirmed?)
    {
      PassLives(w.db, rs, now, served, r);
    }
    assert forall r :: OnlineIn(w', r) <==> OnlineIn(w, r);
  }

  /** No row of the pass is past its six hours, unserved, and not running on a Worker that reports. */
  ghost predicate NoneDue(db: Db, rs: seq<RunnerName>, now: int, served: set<ProfileName>) {
    forall r :: r in rs && r in db.attempts ==> !BackstopDue(db, db.attempts[r], now, served)
  }

  lemma DueIsEnded(db: Db, a: Attempt, now: int, served: set<ProfileName>)
    requires RowOk(a)
    ensures Judge(db, a, now, served).EndUnconfirmed? <==> BackstopDue(db, a, now, served)
    ensures BackstopDue(db, a, now, served) ==> RunnerMayBeOnline(a.state) && a.machine.Some?
  {
  }

  /** One Runner is busy, and those of all other Attempts are deleted. */
  function OneBusy(db: Db, r: RunnerName): map<RunnerName, Runner> {
    map q | q in db.attempts :: if q == r then Runner(Busy, true) else Runner(Deleted, true)
  }

  /** One due Attempt, and its Runner busy. */
  lemma DueRowLosesJob(db: Db, rs: seq<RunnerName>, now: int, served: set<ProfileName>, other: map<MachineId, nat>,
                       r: RunnerName)
    requires RowsOk(db) && Distinct(rs) && r in rs && r in db.attempts && BackstopDue(db, db.attempts[r], now, served)
    ensures var w := World(db, OneBusy(db, r));
            Sheltered(w) && !Sheltered(Next(w, ReconcilePass(rs, now, served, other)))
  {
    var w := World(db, OneBusy(db, r));
    DueIsEnded(db, db.attempts[r], now, served);
    assert OnlineIn(w, r);
    PassSheltersIff(w, rs, now, served, other);
  }

  /**
   Exactly when a reconciler pass is safe, by the rows it reads: whatever its Runners are doing at
   GitHub, it leaves a live Attempt behind each online one if and only if no row is due for the backstop.
   */
  lemma BackstopSafeIff(db: Db, rs: seq<RunnerName>, now: int, served: set<ProfileName>, other: map<MachineId, nat>)
    requires RowsOk(db) && Distinct(rs)
    ensures (forall runners :: Sheltered(World(db, runners)) ==>
               Sheltered(Next(World(db, runners), ReconcilePass(rs, now, served, other))))
            <==> NoneDue(db, rs, now, served)
  {
    if NoneDue(db, rs, now, served) {
      forall runners | Sheltered(World(db, runners))
        ensures Sheltered(Next(World(db, runners), ReconcilePass(rs, now, served, other)))
      {
        NoneDueSpares(World(db, runners), rs, now, served);
        PassSheltersIff(World(db, runners), rs, now, served, other);
      }
    } else {
      var r :| r in rs && r in db.attempts && BackstopDue(db, db.attempts[r], now, served);
      DueRowLosesJob(db, rs, now, served, other, r);
    }
  }

  lemma NoneDueSpares(w: World, rs: seq<RunnerName>, now: int, served: set<ProfileName>)
    requires RowsOk(w.db) && NoneDue(w.db, rs, now, served)
    ensures SparesOnline(w, rs, now, served)
  {
    forall r | r in rs && r in w.db.attempts ensures !Judge(w.db, w.db.attempts[r], now, served).EndUnconfirmed? {
      DueIsEnded(w.db, w.db.attempts[r], now, served);
    }
  }

  lemma {:induction false} KeepRunningLives(db: Db, m: MachineId, rs: seq<RunnerName>, r: RunnerName)
    requires LiveIn(db, r)
    ensures LiveIn(KeepRunning(db, m, rs), r)
  {
    if rs != [] {
      KeepRunningLives(db, m, rs[..|rs| - 1], r);
    }
  }

  /** A row stays live through every handler but the ones GitHub or the executor has cleared. */
  lemma RowsStayLive(w: World, s: Step, r: RunnerName)
    requires RowsOk(w.db) && LiveIn(w.db, r) && OnlineIn(w, r) && Enabled(w, s)
    requires !s.WorkerHeartbeat? && !s.ReconcilePass?
    ensures LiveIn(Rows(w.db, s), r)
  {
  }

  lemma StepKeepsShelter(w: World, s: Step)
    requires RowsOk(w.db) && Sheltered(w) && Enabled(w, s)
    requires s.ReconcilePass? ==> SparesOnline(w, s.rs, s.now, s.served)
    ensures Sheltered(Next(w, s))
  {
    var w' := Next(w, s);
    forall r | OnlineIn(w', r) ensures LiveIn(w'.db, r) {
      if OnlineIn(w, r) {
        match s
        case WorkerHeartbeat(m, rs, now) => KeepRunningLives(w.db, m, rs, r);
        case ReconcilePass(rs, now, served, other) => PassLives(w.db, rs, now, served, r);
        case _ => RowsStayLive(w, s, r);
      } else {
        assert s.ClaimAttempt? && s.r == r && Claimable(w.db, r, s.m);
      }
    }
  }

  ghost predicate BackstopSpares(w: World, steps: seq<Step>) {
    forall i :: 0 <= i < |steps| && steps[i].ReconcilePass? ==>
      SparesOnline(Run(w, steps[..i]), steps[i].rs, steps[i].now, steps[i].served)
  }

  /** Whatever the backstop ends, as long as it ends nothing behind an online Runner. */
  lemma {:induction false} JobSafetyWhileSpared(w: World, steps: seq<Step>)
    requires Start(w) && Allowed(w, steps) && BackstopSpares(w, steps)
    ensures Sheltered(Run(w, steps))
  {
    if steps != [] {
      var n := |steps| - 1;
      forall i | 0 <= i < n && steps[..n][i].ReconcilePass?
        ensures SparesOnline(Run(w, steps[..n][..i]), steps[..n][i].rs, steps[..n][i].now, steps[..n][i].served)
      {
        assert steps[..n][..i] == steps[..i];
      }
      JobSafetyWhileSpared(w, steps[..n]);
      BooksBalance(w, steps[..n]);
      StepKeepsShelter(Run(w, steps[..n]), steps[n]);
    }
  }

  /** In the run, no reconciler pass finds a row due for the backstop. */
  ghost predicate NeverDue(w: World, steps: seq<Step>) {
    forall i :: 0 <= i < |steps| && steps[i].ReconcilePass? ==>
      NoneDue(Run(w, steps[..i]).db, steps[i].rs, steps[i].now, steps[i].served)
  }

  /**
   Job safety. Whatever the order, delay or repetition of job messages, scale-downs, lost labels,
   worker returns, reports, acknowledgements and reconciler passes, a Runner with a job has its
   Attempt in `preparing`, `ready` or `running`, on a Worker, as long as no pass finds a retirement
   older than six hours that no controller serves and no reporting Worker runs.
   */
  lemma JobSafety(w: World, steps: seq<Step>)
    requires Start(w) && Allowed(w, steps) && NeverDue(w, steps)
    ensures Sheltered(Run(w, steps))
  {
    forall i | 0 <= i < |steps| && steps[i].ReconcilePass?
      ensures SparesOnline(Run(w, steps[..i]), steps[i].rs, steps[i].now, steps[i].served)
    {
      BooksBalance(w, steps[..i]);
      NoneDueSpares(Run(w, steps[..i]), steps[i].rs, steps[i].now, steps[i].served);
    }
    JobSafetyWhileSpared(w, steps);
  }

  // ---------------------------------------------------------------------------------------------
  // No registration is forgotten

  /** GitHub drops a Runner's registration itself only once it took a job; otherwise it is owed a delete. */
  predicate Owed(a: Attempt, runner: Runner) {
    && (a.state.Running? ==> runner.tookJob)
    && (Terminal(a.state) && !a.cleanupPending ==> runner.tookJob || runner.phase.Deleted?)
  }

  predicate OwedAt(w: World, r: RunnerName) {
    r in w.db.attempts ==> r in w.runners && Owed(w.db.attempts[r], w.runners[r])
  }

  lemma ReconcileOneOwes(db: Db, r: RunnerName, now: int, served: set<ProfileName>, runner: Runner)
    requires r in db.attempts && RowOk(db.attempts[r]) && Owed(db.attempts[r], runner)
    ensures Owed(ReconcileOne(db, r, now, served).attempts[r], runner)
  {
  }

  lemma PassOwes(db: Db, rs: seq<RunnerName>, now: int, served: set<ProfileName>, r: RunnerName, runner: Runner)
    requires Distinct(rs) && r in db.attempts && RowOk(db.attempts[r]) && Owed(db.attempts[r], runner)
    ensures var db' := ReconcileEach(db, rs, now, served); r in db'.attempts && Owed(db'.attempts[r], runner)
  {
    PassRow(db, rs, now, served, r);
    ReconcileOneOwes(db, r, now, served, runner);
  }

  lemma {:induction false} KeepRunningOwes(db: Db, m: MachineId, rs: seq<RunnerName>, r: RunnerName, runner: Runner)
    requires r in db.attempts ==> Owed(db.attempts[r], runner)
    ensures r in KeepRunning(db, m, rs).attempts <==> r in db.attempts
    ensures r in db.attempts ==> Owed(KeepRunning(db, m, rs).attempts[r], runner)
  {
    if rs != [] {
      KeepRunningOwes(db, m, rs[..|rs| - 1], r, runner);
    }
  }

  lemma StepOwes(w: World, s: Step, r: RunnerName)
    requires RowsOk(w.db) && OwedAt(w, r) && Enabled(w, s) && !s.WorkerHeartbeat? && !s.ReconcilePass?
    ensures OwedAt(Next(w, s), r)
  {
  }

  lemma PassOwesAt(w: World, rs: seq<RunnerName>, now: int, served: set<ProfileName>, other: map<MachineId, nat>,
                   r: RunnerName)
    requires RowsOk(w.db) && OwedAt(w, r) && Distinct(rs)
    ensures OwedAt(Next(w, ReconcilePass(rs, now, served, other)), r)
  {
    PassRow(w.db, rs, now, served, r);
    if r in w.db.attempts {
      PassOwes(w.db, rs, now, served, r, w.runners[r]);
    }
  }

  /**
   In every run, backstop included: a settled Attempt that is not on the cleanup list has a Runner
   that took a job or is deleted, so retention drops no row whose Runner is owed a delete.
   */
  lemma {:induction false} NothingForgotten(w: World, steps: seq<Step>, r: RunnerName)
    requires Start(w) && Allowed(w, steps)
    ensures OwedAt(Run(w, steps), r)
  {
    if steps != [] {
      var before, s := Run(w, steps[..|steps| - 1]), steps[|steps| - 1];
      NothingForgotten(w, steps[..|steps| - 1], r);
      BooksBalance(w, steps[..|steps| - 1]);
      match s
      case WorkerHeartbeat(m, rs, now) =>
        var runner := if r in before.runners then before.runners[r] else Runner(Registered, false);
        KeepRunningOwes(before.db, m, rs, r, runner);
      case ReconcilePass(rs, now, served, other) => PassOwesAt(before, rs, now, served, other, r);
      case _ => StepOwes(before, s, r);
    }
  }

  // ---------------------------------------------------------------------------------------------
  // The backstop can end an Attempt mid-job

  const HOUR := 3_600_000
  const CONTRACT := Contract(0, 0, 1, 1, 1)

  function Idle7(): World {
    World(Db(map[], map[7 := Machine(0, 0, 0)]), map[])
  }

  /** Retired by a scale-down, given a job before the delete, then left without a controller. */
  function LostJob(): seq<Step> {
    [Register(1), CreateAttempt(1, 2, CONTRACT, 0), AssignAttempt(1, 7), ClaimAttempt(1, 7, 0), ComeOnline(1),
     ScaleDown(1, 2, 0), TakeJob(1), ReconcilePass([1], 7 * HOUR, {}, map[])]
  }

  /** The world after the first `n` steps of the run above, written out. */
  function Story(n: nat): World {
    var a := Created(2, CONTRACT, 0);
    var placed := a.(machine := Some(7));
    var claimed := placed.(state := Preparing, claimedAt := Some(0), secret := false);
    var retiring := claimed.(cleanupPending := true, retirement := Some(Retirement(Cancelled, 0)));
    var held := map[7 := Machine(1, 0, 0)];
    if n == 0 then Idle7()
    else if n == 1 then World(Idle7().db, map[1 := Runner(Registered, false)])
    else if n == 2 then World(Db(map[1 := a], map[7 := Machine(0, 0, 0)]), map[1 := Runner(Registered, false)])
    else if n == 3 then World(Db(map[1 := placed], held), map[1 := Runner(Registered, false)])
    else if n == 4 then World(Db(map[1 := claimed], held), map[1 := Runner(Configured, false)])
    else if n == 5 then World(Db(map[1 := claimed], held), map[1 := Runner(Phase.Idle, false)])
    else if n == 6 then World(Db(map[1 := retiring], held), map[1 := Runner(Phase.Idle, false)])
    else World(Db(map[1 := retiring], held), map[1 := Runner(Busy, true)])
  }

  lemma StoryStep(n: nat)
    requires n < 7
    ensures Next(Story(n), LostJob()[n]) == Story(n + 1) && Enabled(Story(n), LostJob()[n])
  {
    var w, w' := Next(Story(n), LostJob()[n]), Story(n + 1);
    assert w.db.attempts == w'.db.attempts;
    assert w.db.machines == w'.db.machines;
    assert w.runners == w'.runners;
  }

  lemma {:induction false} StoryRuns(n: nat)
    requires n <= 7
    ensures Run(Idle7(), LostJob()[..n]) == Story(n) && Allowed(Idle7(), LostJob()[..n])
  {
    if n > 0 {
      StoryRuns(n - 1);
      assert LostJob()[..n][..n - 1] == LostJob()[..n - 1];
      StoryStep(n - 1);
    }
  }

  /** A run in which only the backstop is to blame: the Runner has a job and its Attempt is cancelled. */
  lemma BackstopLosesJob()
    ensures Start(Idle7()) && Allowed(Idle7(), LostJob())
    ensures var w := Run(Idle7(), LostJob());
            w.runners[1].phase.Busy? && 1 in w.db.attempts && w.db.attempts[1].state.Cancelled?
  {
    StoryRuns(7);
    assert LostJob()[..8] == LostJob();
    var w := Story(7);
    assert Judge(w.db, w.db.attempts[1], 7 * HOUR, {}).EndUnconfirmed?;
    var rs: seq<RunnerName> := [1];
    assert rs[..0] == [];
    assert ReconcileEach(w.db, rs, 7 * HOUR, {}) == ReconcileOne(w.db, 1, 7 * HOUR, {});
  }

  // ---------------------------------------------------------------------------------------------
  // Work lists and repeated messages

  predicate IsActive(a: Attempt) {
    !Terminal(a.state) && !IsRetiring(a)
  }

  /** `listActiveAttempts`. */
  function ActiveList(db: Db, p: ProfileName): set<RunnerName> {
    set r | r in db.attempts && db.attempts[r].profile == p && IsActive(db.attempts[r])
  }

  /** `listRunnerCleanups`. */
  function CleanupList(db: Db, p: ProfileName): set<RunnerName> {
    set r | r in db.attempts && db.attempts[r].profile == p && db.attempts[r].cleanupPending
  }

  /** In every run: an unsettled Attempt is in exactly one list, a retiring one in the second, without a secret. */
  lemma ListsPartition(w: World, steps: seq<Step>, r: RunnerName)
    requires Start(w) && r in Run(w, steps).db.attempts && !Terminal(Run(w, steps).db.attempts[r].state)
    ensures var db := Run(w, steps).db;
            var a := db.attempts[r];
            && (r in ActiveList(db, a.profile) <==> r !in CleanupList(db, a.profile))
            && (IsRetiring(a) ==> r in CleanupList(db, a.profile) && !a.secret)
            && forall p :: p != a.profile ==> r !in ActiveList(db, p) && r !in CleanupList(db, p)
  {
    BooksBalance(w, steps);
  }

  /** A confirmed delete ends a retiring Attempt as its retirement asked: out of both lists, its slot free. */
  lemma ConfirmedDeleteEnds(db: Db, r: RunnerName, p: ProfileName)
    requires Books(db) && Known(db, r, p) && IsRetiring(db.attempts[r])
    ensures var db' := CompleteCleanup(db, r, p, db.attempts[r].contract.runnerId);
            && r in db'.attempts && db'.attempts[r].state == db.attempts[r].retirement.value.outcome
            && r !in ActiveList(db', p) && r !in CleanupList(db', p)
            && forall m :: m in db.machines ==>
                 m in db'.machines
                 && db'.machines[m].usedSlots ==
                    db.machines[m].usedSlots - if db.attempts[r].machine == Some(m) then 1 else 0
  {
    if db.attempts[r].machine.Some? && db.attempts[r].machine.value in db.machines {
      ClampNeverActs(db, r);
    }
  }

  /** A job that reaches an idle retiring Attempt wins: it is active again, its Runner not to be deleted. */
  lemma JobCallsOffRetirement(db: Db, r: RunnerName, p: ProfileName)
    requires Books(db) && Known(db, r, p) && IsRetiring(db.attempts[r]) && !db.attempts[r].state.Running?
    ensures var db' := JobStarted(db, r, p);
            && r in ActiveList(db', p) && r !in CleanupList(db', p) && db'.attempts[r].state.Running?
            && db'.machines == db.machines
            && forall runnerId :: CompleteCleanup(db', r, p, runnerId) == db'
  {
  }

  lemma PatchSame(db: Db, r: RunnerName)
    requires r in db.attempts
    ensures Patch(db, r, db.attempts[r]) == db
  {
    assert db.attempts[r := db.attempts[r]] == db.attempts;
  }

  /** A job message that comes again, with nothing in between, changes nothing. */
  lemma JobMessagesRepeat(db: Db, r: RunnerName, p: ProfileName)
    requires RowsOk(db)
    ensures JobStarted(JobStarted(db, r, p), r, p) == JobStarted(db, r, p)
    ensures JobCompleted(JobCompleted(db, r, p), r, p) == JobCompleted(db, r, p)
  {
    if Known(db, r, p) {
      PatchSame(JobStarted(db, r, p), r);
      PatchSame(JobCompleted(db, r, p), r);
    }
  }

  /** So does a scale-down, an acknowledged delete and an executor's report. */
  lemma EndingsRepeat(db: Db, r: RunnerName, p: ProfileName, runnerId: nat, now: int, m: MachineId, exitCode: int,
                      jobless: bool)
    requires RowsOk(db)
    ensures Cancel(Cancel(db, r, p, now), r, p, now) == Cancel(db, r, p, now)
    ensures CompleteCleanup(CompleteCleanup(db, r, p, runnerId), r, p, runnerId) == CompleteCleanup(db, r, p, runnerId)
    ensures Report(Report(db, r, m, exitCode, jobless), r, m, exitCode, jobless) == Report(db, r, m, exitCode, jobless)
  {
    if r in db.attempts {
      PatchSame(Cancel(db, r, p, now), r);
      PatchSame(Report(db, r, m, exitCode, jobless), r);
    }
  }

  /** Once settled, an Attempt stays settled and no message about it moves a slot. */
  lemma SettledIsFinal(db: Db, s: Step, r: RunnerName)
    requires RowsOk(db) && r in db.attempts && Terminal(db.attempts[r].state)
    requires !s.WorkerHeartbeat? && !s.ReconcilePass? && !s.OtherWork? && !s.MachineJoins? && !s.MachineLeaves?
    requires s.r == r
    ensures Rows(db, s).machines == db.machines
    ensures r in Rows(db, s).attempts ==> Terminal(Rows(db, s).attempts[r].state)
  {
  }
}
