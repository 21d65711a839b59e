/**
 The Worker Agent's queue and the gate in front of it. Work is admitted only when orphan recovery
 has completed for the current revision; every change of the live sets starts a new revision. The
 event loop runs one handler at a time, so each handler is one step; an orphan recovery in flight
 ends in a later step.
 */
module RecoveryGate {
  import opened Common

  type Id = nat

  datatype Kind = Command | Attempt | Experiment

  datatype Key = Key(kind: Kind, id: Id)

  /** A recovery in flight: the revision it is for and the live ids it was given. */
  datatype Pass = Pass(target: nat, ids: set<Id>)

  /** What was known when a work item was admitted. */
  datatype Admission = Admission(key: Key, recovered: Option<set<Id>>, live: set<Id>)

  /**
   The process starts by reading the live sets, then recovers orphans for them, and accepts work and
   subscribes only after that recovery has succeeded. A startup recovery that fails ends the process.
   */
  datatype Stage = Loading | Recovering | Recovered | Accepting | Crashed

  /** `recovered`: the ids given to the last recovery that succeeded. `admitted`: every admission so far. */
  datatype Agent = Agent(
    queue: seq<Key>, queuedIds: set<Key>, running: set<Key>, active: nat, maxSlots: nat, freeCores: nat,
    shuttingDown: bool, stage: Stage, liveAttempts: set<Id>, liveExperiments: set<Id>,
    revision: nat, completed: nat, inFlight: Option<Pass>, retryTimer: bool,
    recovered: Option<set<Id>>, admitted: seq<Admission>)

  function LiveIds(a: Agent): set<Id> {
    a.liveAttempts + a.liveExperiments
  }

  // ---------------------------------------------------------------------------------------------
  // Handlers

  predicate Open(a: Agent) {
    !a.shuttingDown && a.stage.Accepting? && a.inFlight.None? && a.completed >= a.revision
  }

  function AdmitOne(a: Agent): Agent
    requires a.queue != []
  {
    a.(queue := a.queue[1..], active := a.active + 1,
       admitted := a.admitted + [Admission(a.queue[0], a.recovered, LiveIds(a))])
  }

  function AdmitWhileRoom(a: Agent): Agent
    decreases |a.queue|
  {
    if a.active < a.maxSlots && a.freeCores > 0 && a.queue != [] then AdmitWhileRoom(AdmitOne(a)) else a
  }

  function Pump(a: Agent): Agent {
    if Open(a) then AdmitWhileRoom(a) else a
  }

  /** How many queued items may start now: as many as fit, through an open gate, while a core is free. */
  function Admits(a: Agent): nat {
    if a.shuttingDown || a.stage != Accepting || a.inFlight.Some? || a.completed < a.revision then 0
    else if a.freeCores == 0 || a.maxSlots <= a.active then 0
    else if |a.queue| <= a.maxSlots - a.active then |a.queue|
    else a.maxSlots - a.active
  }

  /** `a'` is `a` with the first `n` queued items admitted, in order, each noting what was live. */
  ghost predicate AdmitsFirst(a: Agent, a': Agent, n: nat) {
    && n <= |a.queue| && |a'.admitted| == |a.admitted| + n
    && a' == a.(queue := a.queue[n..], active := a.active + n, admitted := a'.admitted)
    && (forall i :: 0 <= i < |a.admitted| ==> a'.admitted[i] == a.admitted[i])
    && forall i :: 0 <= i < n ==>
         a'.admitted[|a.admitted| + i] == Admission(a.queue[i], a.recovered, a.liveAttempts + a.liveExperiments)
  }

  lemma AdmitsOneMore(a: Agent, a': Agent, n: nat)
    requires a.queue != [] && AdmitsFirst(AdmitOne(a), a', n)
    ensures AdmitsFirst(a, a', n + 1)
  {
    var a1 := AdmitOne(a);
    assert a1.queue[n..] == a.queue[n + 1..];
    forall i | 0 <= i < |a.admitted| ensures a'.admitted[i] == a.admitted[i] {
      assert a'.admitted[i] == a1.admitted[i];
    }
    forall i | 0 <= i < n + 1
      ensures a'.admitted[|a.admitted| + i] == Admission(a.queue[i], a.recovered, a.liveAttempts + a.liveExperiments)
    {
      if i == 0 {
        assert a'.admitted[|a.admitted|] == a1.admitted[|a.admitted|];
      } else {
        assert a'.admitted[|a1.admitted| + (i - 1)] ==
               Admission(a1.queue[i - 1], a1.recovered, a1.liveAttempts + a1.liveExperiments);
      }
    }
  }

  /**
   A pump admits exactly the items that may start, in queue order, and changes nothing else. So it
   takes `active` to `maxSlots` at most, and leaves nothing waiting that could start.
   */
  lemma {:induction false} PumpAdmits(a: Agent)
    ensures AdmitsFirst(a, Pump(a), Admits(a))
    ensures Pump(a).active <= a.maxSlots || Pump(a).active == a.active
    ensures Admits(Pump(a)) == 0
    decreases |a.queue|
  {
    if Admits(a) > 0 {
      PumpAdmits(AdmitOne(a));
      AdmitsOneMore(a, Pump(a), Admits(AdmitOne(a)));
    } else {
      assert a.queue[0..] == a.queue;
    }
  }

  /** The drain loop from its head: start a pass for the present revision, or finish. */
  function DrainOn(a: Agent): Agent {
    if a.completed < a.revision && !a.shuttingDown then a.(inFlight := Some(Pass(a.revision, LiveIds(a))))
    else Pump(a.(inFlight := None))
  }

  function Drain(a: Agent): Agent {
    if a.shuttingDown || a.inFlight.Some? then a else DrainOn(a.(retryTimer := false))
  }

  function RecoveryEnds(a: Agent, ok: bool): Agent {
    if a.inFlight.None? then a
    else if ok then DrainOn(a.(completed := a.inFlight.value.target, recovered := Some(a.inFlight.value.ids)))
    else Pump(a.(inFlight := None, retryTimer := true))
  }

  predicate Stays(k: Key, kind: Kind, live: set<Id>) {
    k.kind != kind || k.id in live
  }

  function Kept(queue: seq<Key>, kind: Kind, live: set<Id>): seq<Key> {
    if queue == [] then []
    else
      var rest := Kept(queue[1..], kind, live);
      if Stays(queue[0], kind, live) then [queue[0]] + rest else rest
  }

  /** Drops queued and remembered work of this kind that the server no longer lists. */
  function Reconciled(a: Agent, kind: Kind, live: set<Id>): Agent {
    a.(queue := Kept(a.queue, kind, live),
       queuedIds := set k | k in a.queuedIds && (Stays(k, kind, live) || k in a.running))
  }

  function Enqueued(a: Agent, k: Key): Agent {
    if k in a.queuedIds then a else a.(queuedIds := a.queuedIds + {k}, queue := a.queue + [k])
  }

  function EnqueuedAll(a: Agent, kind: Kind, ids: seq<Id>): Agent {
    if ids == [] then a
    else Enqueued(EnqueuedAll(a, kind, ids[..|ids| - 1]), Key(kind, ids[|ids| - 1]))
  }

  function WithLive(a: Agent, kind: Kind, live: set<Id>): Agent {
    match kind
    case Command => a
    case Attempt => a.(liveAttempts := live)
    case Experiment => a.(liveExperiments := live)
  }

  function LiveOf(a: Agent, kind: Kind): set<Id> {
    match kind
    case Command => {}
    case Attempt => a.liveAttempts
    case Experiment => a.liveExperiments
  }

  /** The new live set, the queue without what it drops, then what the server offers. */
  function Listed(a: Agent, kind: Kind, live: set<Id>, pending: seq<Id>, maxSlots: nat): Agent {
    EnqueuedAll(Reconciled(WithLive(a.(maxSlots := maxSlots), kind, live), kind, live), kind, pending)
  }

  /** An Attempt or Experiment subscription update. */
  function Updated(a: Agent, kind: Kind, live: set<Id>, pending: seq<Id>, maxSlots: nat): Agent {
    var a' := Listed(a, kind, live, pending, maxSlots);
    if live != LiveOf(a, kind) then Drain(a'.(revision := a'.revision + 1)) else Pump(a')
  }

  /** A legacy command update; older servers send no live list. */
  function CommandsUpdated(a: Agent, live: Option<set<Id>>, pending: seq<Id>, maxSlots: nat): Agent {
    var a' := a.(maxSlots := maxSlots);
    Pump(EnqueuedAll(if live.Some? then Reconciled(a', Command, live.value) else a', Command, pending))
  }

  function Resized(a: Agent, active: nat, maxSlots: nat, freeCores: nat): Agent {
    a.(active := active, maxSlots := maxSlots, freeCores := freeCores)
  }

  function Loaded(a: Agent, attempts: set<Id>, experiments: set<Id>): Agent {
    if a.stage.Loading? then a.(stage := Recovering, liveAttempts := attempts, liveExperiments := experiments) else a
  }

  function StartupRecovered(a: Agent, ok: bool): Agent {
    if !a.stage.Recovering? then a
    else if ok then a.(stage := Recovered, recovered := Some(LiveIds(a)))
    else a.(stage := Crashed)
  }

  datatype Event =
    | Load(attempts: set<Id>, experiments: set<Id>)
    | StartupRecovery(ok: bool)
    | AttemptUpdate(live: set<Id>, pending: seq<Id>, maxSlots: nat)
    | ExperimentUpdate(live: set<Id>, pending: seq<Id>, maxSlots: nat)
    | CommandUpdate(known: Option<set<Id>>, pending: seq<Id>, maxSlots: nat)
    | RecoveryDone(ok: bool)
    | RetryFires
    | WorkEnds(freeCores: nat)
    | CoresChange(freeCores: nat)
    | Spawned(key: Key)
    | Exited(key: Key)
    | Capacity(maxSlots: nat)
    | Begin
    | Shutdown

  /** Subscriptions start with accepting work, so no update arrives before. */
  function Step(a: Agent, e: Event): Agent {
    match e
    case Load(attempts, experiments) => Loaded(a, attempts, experiments)
    case StartupRecovery(ok) => StartupRecovered(a, ok)
    case AttemptUpdate(live, pending, maxSlots) =>
      if a.stage.Accepting? then Updated(a, Attempt, live, pending, maxSlots) else a
    case ExperimentUpdate(live, pending, maxSlots) =>
      if a.stage.Accepting? then Updated(a, Experiment, live, pending, maxSlots) else a
    case CommandUpdate(live, pending, maxSlots) =>
      if a.stage.Accepting? then CommandsUpdated(a, live, pending, maxSlots) else a
    case RecoveryDone(ok) => RecoveryEnds(a, ok)
    case RetryFires => if a.retryTimer then Drain(a.(retryTimer := false)) else a
    case WorkEnds(freeCores) => Pump(Resized(a, if a.active == 0 then 0 else a.active - 1, a.maxSlots, freeCores))
    case CoresChange(freeCores) => Pump(Resized(a, a.active, a.maxSlots, freeCores))
    case Spawned(key) => a.(running := a.running + {key})
    case Exited(key) => a.(running := a.running - {key})
    case Capacity(maxSlots) => Pump(Resized(a, a.active, maxSlots, a.freeCores))
    case Begin => if a.stage.Recovered? then a.(stage := Accepting) else a
    case Shutdown => a.(shuttingDown := true, retryTimer := false)
  }

  function Run(a: Agent, es: seq<Event>): Agent {
    if es == [] then a else Step(Run(a, es[..|es| - 1]), es[|es| - 1])
  }

  function Fresh(maxSlots: nat, freeCores: nat): Agent {
    Agent([], {}, {}, 0, maxSlots, freeCores, false, Loading, {}, {}, 0, 0, None, false, None, [])
  }

  /** The server lists as live everything it offers. */
  ghost predicate Honest(e: Event) {
    match e
    case AttemptUpdate(live, pending, _) => forall i :: 0 <= i < |pending| ==> pending[i] in live
    case ExperimentUpdate(live, pending, _) => forall i :: 0 <= i < |pending| ==> pending[i] in live
    case _ => true
  }

  // ---------------------------------------------------------------------------------------------
  // Invariants

  ghost predicate QueueOk(a: Agent) {
    Distinct(a.queue) && forall i :: 0 <= i < |a.queue| ==> a.queue[i] in a.queuedIds
  }

  /** The live sets hold Attempts and Experiments; commands have none (see `ListedCommands`). */
  predicate StillLive(a: Agent, k: Key) {
    match k.kind
    case Command => true
    case Attempt => k.id in a.liveAttempts
    case Experiment => k.id in a.liveExperiments
  }

  ghost predicate QueueLive(a: Agent) {
    forall i :: 0 <= i < |a.queue| ==> StillLive(a, a.queue[i])
  }

  /** Once started, a gate that is not waiting has recovered for the present live sets. */
  ghost predicate GateOk(a: Agent) {
    && a.completed <= a.revision
    && (a.stage.Recovered? || a.stage.Accepting? ==> a.completed == a.revision ==> a.recovered == Some(LiveIds(a)))
    && (!a.stage.Accepting? ==> a.queue == [] && a.inFlight.None? && !a.retryTimer)
    && (a.inFlight.Some? ==>
          && a.completed < a.inFlight.value.target <= a.revision
          && (a.inFlight.value.target == a.revision ==> a.inFlight.value.ids == LiveIds(a)))
  }

  predicate AdmissionOk(ad: Admission) {
    ad.recovered == Some(ad.live) && (ad.key.kind != Command ==> ad.key.id in ad.live)
  }

  ghost predicate LogOk(a: Agent) {
    forall i :: 0 <= i < |a.admitted| ==> AdmissionOk(a.admitted[i])
  }

  ghost predicate Inv(a: Agent) {
    QueueOk(a) && QueueLive(a) && GateOk(a) && LogOk(a)
  }

  lemma {:induction false} AdmitKeeps(a: Agent)
    requires Inv(a) && Open(a)
    ensures Inv(AdmitWhileRoom(a))
    decreases |a.queue|
  {
    if a.active < a.maxSlots && a.freeCores > 0 && a.queue != [] {
      AdmitKeeps(AdmitOne(a));
    }
  }

  lemma PumpKeeps(a: Agent)
    requires Inv(a)
    ensures Inv(Pump(a))
  {
    if Open(a) {
      AdmitKeeps(a);
    }
  }

  lemma DrainOnKeeps(a: Agent)
    requires QueueOk(a) && QueueLive(a) && LogOk(a) && GateOk(a.(inFlight := None)) && a.stage.Accepting?
    ensures Inv(DrainOn(a))
  {
    PumpKeeps(a.(inFlight := None));
  }

  lemma RecoveryKeeps(a: Agent, ok: bool)
    requires Inv(a)
    ensures Inv(RecoveryEnds(a, ok))
  {
    if a.inFlight.Some? {
      if ok {
        DrainOnKeeps(a.(completed := a.inFlight.value.target, recovered := Some(a.inFlight.value.ids)));
      } else {
        PumpKeeps(a.(inFlight := None, retryTimer := true));
      }
    }
  }

  /** A shorter queue of the same items, in the same order. */
  lemma {:induction false} KeptIsWithin(queue: seq<Key>, kind: Kind, live: set<Id>)
    requires Distinct(queue)
    ensures Distinct(Kept(queue, kind, live))
    ensures forall k :: k in Kept(queue, kind, live) <==> k in queue && Stays(k, kind, live)
  {
    if queue != [] {
      KeptIsWithin(queue[1..], kind, live);
    }
  }

  lemma ReconcileKeeps(a: Agent, kind: Kind, live: set<Id>)
    requires QueueOk(a)
    requires forall i :: 0 <= i < |a.queue| && a.queue[i].kind != kind ==> StillLive(a, a.queue[i])
    requires kind == Command || live == LiveOf(a, kind)
    ensures QueueOk(Reconciled(a, kind, live)) && QueueLive(Reconciled(a, kind, live))
  {
    KeptIsWithin(a.queue, kind, live);
    var kept := Kept(a.queue, kind, live);
    forall i | 0 <= i < |kept| ensures kept[i] in Reconciled(a, kind, live).queuedIds && StillLive(a, kept[i]) {
      assert kept[i] in kept;
    }
  }

  lemma EnqueueOneKeeps(a: Agent, k: Key)
    requires QueueOk(a) && QueueLive(a) && StillLive(a, k)
    ensures QueueOk(Enqueued(a, k)) && QueueLive(Enqueued(a, k))
    ensures Enqueued(a, k) == a.(queue := Enqueued(a, k).queue, queuedIds := Enqueued(a, k).queuedIds)
  {
  }

  lemma {:induction false} EnqueueKeeps(a: Agent, kind: Kind, ids: seq<Id>)
    requires QueueOk(a) && QueueLive(a)
    requires forall i :: 0 <= i < |ids| ==> StillLive(a, Key(kind, ids[i]))
    ensures var a' := EnqueuedAll(a, kind, ids);
            && QueueOk(a') && QueueLive(a')
            && a' == a.(queue := a'.queue, queuedIds := a'.queuedIds)
  {
    if ids != [] {
      EnqueueKeeps(a, kind, ids[..|ids| - 1]);
      EnqueueOneKeeps(EnqueuedAll(a, kind, ids[..|ids| - 1]), Key(kind, ids[|ids| - 1]));
    }
  }

  lemma ListedKeeps(a: Agent, kind: Kind, live: set<Id>, pending: seq<Id>, maxSlots: nat)
    requires QueueOk(a) && QueueLive(a) && kind != Command && forall i :: 0 <= i < |pending| ==> pending[i] in live
    ensures var a' := Listed(a, kind, live, pending, maxSlots);
            && QueueOk(a') && QueueLive(a')
            && a' == WithLive(a, kind, live).(maxSlots := maxSlots, queue := a'.queue, queuedIds := a'.queuedIds)
  {
    var a1 := WithLive(a.(maxSlots := maxSlots), kind, live);
    ReconcileKeeps(a1, kind, live);
    EnqueueKeeps(Reconciled(a1, kind, live), kind, pending);
  }

  /** Whatever the live sets now are, a new revision closes the gate until a pass has seen them. */
  lemma NewRevisionKeeps(a: Agent, a': Agent)
    requires GateOk(a) && QueueOk(a') && QueueLive(a') && LogOk(a') && a'.stage.Accepting?
    requires a'.revision == a.revision + 1 && a'.completed == a.completed && a'.inFlight == a.inFlight
    ensures Inv(Drain(a'))
  {
    assert GateOk(a');
    if a'.inFlight.None? && !a'.shuttingDown {
      DrainOnKeeps(a'.(retryTimer := false));
    }
  }

  lemma SameRevisionKeeps(a: Agent, a': Agent)
    requires GateOk(a) && QueueOk(a') && QueueLive(a') && LogOk(a') && a.stage.Accepting? && a'.stage.Accepting?
    requires a'.revision == a.revision && a'.completed == a.completed && a'.inFlight == a.inFlight
    requires a'.recovered == a.recovered && a'.liveAttempts == a.liveAttempts && a'.liveExperiments == a.liveExperiments
    ensures Inv(Pump(a'))
  {
    PumpKeeps(a');
  }

  lemma ChangedUpdateKeeps(a: Agent, kind: Kind, live: set<Id>, pending: seq<Id>, maxSlots: nat)
    requires Inv(a) && a.stage.Accepting? && kind != Command && forall i :: 0 <= i < |pending| ==> pending[i] in live
    ensures var a' := Listed(a, kind, live, pending, maxSlots); Inv(Drain(a'.(revision := a'.revision + 1)))
  {
    ListedKeeps(a, kind, live, pending, maxSlots);
    var a' := Listed(a, kind, live, pending, maxSlots);
    NewRevisionKeeps(a, a'.(revision := a'.revision + 1));
  }

  lemma UnchangedUpdateKeeps(a: Agent, kind: Kind, pending: seq<Id>, maxSlots: nat)
    requires Inv(a) && a.stage.Accepting? && kind != Command
    requires forall i :: 0 <= i < |pending| ==> pending[i] in LiveOf(a, kind)
    ensures Inv(Pump(Listed(a, kind, LiveOf(a, kind), pending, maxSlots)))
  {
    ListedKeeps(a, kind, LiveOf(a, kind), pending, maxSlots);
    SameRevisionKeeps(a, Listed(a, kind, LiveOf(a, kind), pending, maxSlots));
  }

  lemma UpdateKeeps(a: Agent, kind: Kind, live: set<Id>, pending: seq<Id>, maxSlots: nat)
    requires Inv(a) && a.stage.Accepting? && kind != Command && forall i :: 0 <= i < |pending| ==> pending[i] in live
    ensures Inv(Updated(a, kind, live, pending, maxSlots))
  {
    if live != LiveOf(a, kind) {
      ChangedUpdateKeeps(a, kind, live, pending, maxSlots);
    } else {
      UnchangedUpdateKeeps(a, kind, pending, maxSlots);
    }
  }

  lemma ResizedKeeps(a: Agent, active: nat, maxSlots: nat, freeCores: nat)
    requires Inv(a)
    ensures Inv(Pump(Resized(a, active, maxSlots, freeCores)))
  {
    PumpKeeps(Resized(a, active, maxSlots, freeCores));
  }

  lemma RetryKeeps(a: Agent)
    requires Inv(a) && a.stage.Accepting?
    ensures Inv(Drain(a.(retryTimer := false)))
  {
    if a.inFlight.None? && !a.shuttingDown {
      DrainOnKeeps(a.(retryTimer := false));
    }
  }

  lemma CommandKeeps(a: Agent, live: Option<set<Id>>, pending: seq<Id>, maxSlots: nat)
    requires Inv(a) && a.stage.Accepting?
    ensures Inv(CommandsUpdated(a, live, pending, maxSlots))
  {
    var a1 := a.(maxSlots := maxSlots);
    if live.Some? {
      ReconcileKeeps(a1, Command, live.value);
    }
    var a2 := if live.Some? then Reconciled(a1, Command, live.value) else a1;
    EnqueueKeeps(a2, Command, pending);
    PumpKeeps(EnqueuedAll(a2, Command, pending));
  }

  lemma StepKeeps(a: Agent, e: Event)
    requires Inv(a) && Honest(e)
    ensures Inv(Step(a, e))
  {
    match e
    case AttemptUpdate(live, pending, maxSlots) =>
      if a.stage.Accepting? {
        UpdateKeeps(a, Attempt, live, pending, maxSlots);
      }
    case ExperimentUpdate(live, pending, maxSlots) =>
      if a.stage.Accepting? {
        UpdateKeeps(a, Experiment, live, pending, maxSlots);
      }
    case CommandUpdate(live, pending, maxSlots) =>
      if a.stage.Accepting? {
        CommandKeeps(a, live, pending, maxSlots);
      }
    case RecoveryDone(ok) => RecoveryKeeps(a, ok);
    case RetryFires =>
      if a.retryTimer {
        RetryKeeps(a);
      }
    case WorkEnds(freeCores) => ResizedKeeps(a, if a.active == 0 then 0 else a.active - 1, a.maxSlots, freeCores);
    case CoresChange(freeCores) => ResizedKeeps(a, a.active, a.maxSlots, freeCores);
    case Capacity(maxSlots) => ResizedKeeps(a, a.active, maxSlots, a.freeCores);
    case _ =>
  }

  lemma {:induction false} RunKeeps(a: Agent, es: seq<Event>)
    requires Inv(a) && forall i :: 0 <= i < |es| ==> Honest(es[i])
    ensures Inv(Run(a, es))
  {
    if es != [] {
      RunKeeps(a, es[..|es| - 1]);
      StepKeeps(Run(a, es[..|es| - 1]), es[|es| - 1]);
    }
  }

  /**
   The recovery gate, over every run of a Worker, whatever it finds live when it starts: any item is
   admitted only when the ids given to the last successful recovery are exactly the live ids of that
   moment, and an Attempt or Experiment is one of them.
   */
  lemma GateHolds(maxSlots: nat, freeCores: nat, es: seq<Event>, i: nat)
    requires forall j :: 0 <= j < |es| ==> Honest(es[j])
    requires i < |Run(Fresh(maxSlots, freeCores), es).admitted|
    ensures var ad := Run(Fresh(maxSlots, freeCores), es).admitted[i];
            ad.recovered == Some(ad.live) && (ad.key.kind != Command ==> ad.key.id in ad.live)
  {
    RunKeeps(Fresh(maxSlots, freeCores), es);
    assert AdmissionOk(Run(Fresh(maxSlots, freeCores), es).admitted[i]);
  }

  // ---------------------------------------------------------------------------------------------
  // Where queued keys come from

  /** Commands on the server's last live list, or offered since; older servers send no list. */
  function ListedCommands(es: seq<Event>): set<Id> {
    if es == [] then {}
    else
      var before, e := ListedCommands(es[..|es| - 1]), es[|es| - 1];
      if e.CommandUpdate? then (if e.known.Some? then e.known.value else before) + (set i | i in e.pending) else before
  }

  predicate CommandsWithin(queue: seq<Key>, ids: set<Id>) {
    forall i :: 0 <= i < |queue| && queue[i].kind == Command ==> queue[i].id in ids
  }

  lemma {:induction false} AdmitWithin(a: Agent, ids: set<Id>)
    requires CommandsWithin(a.queue, ids)
    ensures CommandsWithin(AdmitWhileRoom(a).queue, ids)
    decreases |a.queue|
  {
    if a.active < a.maxSlots && a.freeCores > 0 && a.queue != [] {
      AdmitWithin(AdmitOne(a), ids);
    }
  }

  lemma DrainWithin(a: Agent, ids: set<Id>)
    requires CommandsWithin(a.queue, ids)
    ensures CommandsWithin(Pump(a).queue, ids) && CommandsWithin(Drain(a).queue, ids)
    ensures CommandsWithin(DrainOn(a).queue, ids)
  {
    AdmitWithin(a, ids);
    AdmitWithin(a.(inFlight := None), ids);
    AdmitWithin(a.(inFlight := None, retryTimer := false), ids);
  }

  lemma {:induction false} KeptWithin(queue: seq<Key>, kind: Kind, live: set<Id>, ids: set<Id>)
    requires CommandsWithin(queue, ids) || kind == Command
    ensures CommandsWithin(Kept(queue, kind, live), if kind == Command then live else ids)
  {
    if queue != [] {
      KeptWithin(queue[1..], kind, live, ids);
    }
  }

  lemma {:induction false} EnqueuedWithin(a: Agent, kind: Kind, pending: seq<Id>, ids: set<Id>)
    requires CommandsWithin(a.queue, ids) && (kind == Command ==> forall i :: 0 <= i < |pending| ==> pending[i] in ids)
    ensures CommandsWithin(EnqueuedAll(a, kind, pending).queue, ids)
  {
    if pending != [] {
      EnqueuedWithin(a, kind, pending[..|pending| - 1], ids);
    }
  }

  lemma UpdateWithin(a: Agent, kind: Kind, live: set<Id>, pending: seq<Id>, maxSlots: nat, ids: set<Id>)
    requires kind != Command && CommandsWithin(a.queue, ids)
    ensures CommandsWithin(Updated(a, kind, live, pending, maxSlots).queue, ids)
  {
    var a1 := WithLive(a.(maxSlots := maxSlots), kind, live);
    KeptWithin(a1.queue, kind, live, ids);
    EnqueuedWithin(Reconciled(a1, kind, live), kind, pending, ids);
    var a2 := Listed(a, kind, live, pending, maxSlots);
    DrainWithin(a2, ids);
    DrainWithin(a2.(revision := a2.revision + 1), ids);
  }

  lemma CommandsUpdatedWithin(a: Agent, known: Option<set<Id>>, pending: seq<Id>, maxSlots: nat, ids: set<Id>)
    requires CommandsWithin(a.queue, ids)
    ensures CommandsWithin(CommandsUpdated(a, known, pending, maxSlots).queue,
                           (if known.Some? then known.value else ids) + (set i | i in pending))
  {
    var a1 := a.(maxSlots := maxSlots);
    var ids' := (if known.Some? then known.value else ids) + (set i | i in pending);
    if known.Some? {
      KeptWithin(a1.queue, Command, known.value, ids);
    }
    var a2 := if known.Some? then Reconciled(a1, Command, known.value) else a1;
    EnqueuedWithin(a2, Command, pending, ids');
    DrainWithin(EnqueuedAll(a2, Command, pending), ids');
  }

  lemma RecoveryWithin(a: Agent, ok: bool, ids: set<Id>)
    requires CommandsWithin(a.queue, ids)
    ensures CommandsWithin(RecoveryEnds(a, ok).queue, ids)
  {
    if a.inFlight.Some? {
      DrainWithin(a.(completed := a.inFlight.value.target, recovered := Some(a.inFlight.value.ids)), ids);
      DrainWithin(a.(inFlight := None, retryTimer := true), ids);
    }
  }

  lemma StepWithin(a: Agent, e: Event, ids: set<Id>)
    requires CommandsWithin(a.queue, ids) && !e.CommandUpdate?
    ensures CommandsWithin(Step(a, e).queue, ids)
  {
    match e
    case AttemptUpdate(live, pending, maxSlots) => UpdateWithin(a, Attempt, live, pending, maxSlots, ids);
    case ExperimentUpdate(live, pending, maxSlots) => UpdateWithin(a, Experiment, live, pending, maxSlots, ids);
    case RecoveryDone(ok) => RecoveryWithin(a, ok, ids);
    case RetryFires => DrainWithin(a.(retryTimer := false), ids);
    case WorkEnds(freeCores) =>
      DrainWithin(Resized(a, if a.active == 0 then 0 else a.active - 1, a.maxSlots, freeCores), ids);
    case CoresChange(freeCores) => DrainWithin(Resized(a, a.active, a.maxSlots, freeCores), ids);
    case Capacity(maxSlots) => DrainWithin(Resized(a, a.active, maxSlots, a.freeCores), ids);
    case _ =>
  }

  lemma {:induction false} CommandsAreListed(maxSlots: nat, freeCores: nat, es: seq<Event>)
    requires forall j :: 0 <= j < |es| ==> Honest(es[j])
    ensures CommandsWithin(Run(Fresh(maxSlots, freeCores), es).queue, ListedCommands(es))
  {
    if es != [] {
      var before, e := es[..|es| - 1], es[|es| - 1];
      var a := Run(Fresh(maxSlots, freeCores), before);
      CommandsAreListed(maxSlots, freeCores, before);
      if e.CommandUpdate? {
        RunKeeps(Fresh(maxSlots, freeCores), before);
        CommandsUpdatedWithin(a, e.known, e.pending, e.maxSlots, ListedCommands(before));
      } else {
        StepWithin(a, e, ListedCommands(before));
      }
    }
  }

  /**
   Queued keys are distinct and remembered. Queued Attempts and Experiments are live at the server,
   queued commands were on its last list of live commands or offered since.
   */
  lemma QueueHolds(maxSlots: nat, freeCores: nat, es: seq<Event>)
    requires forall j :: 0 <= j < |es| ==> Honest(es[j])
    ensures var a := Run(Fresh(maxSlots, freeCores), es);
            && Distinct(a.queue) && CommandsWithin(a.queue, ListedCommands(es))
            && forall i :: 0 <= i < |a.queue| ==> a.queue[i] in a.queuedIds && StillLive(a, a.queue[i])
  {
    RunKeeps(Fresh(maxSlots, freeCores), es);
    CommandsAreListed(maxSlots, freeCores, es);
  }

  // ---------------------------------------------------------------------------------------------
  // The gate never closes for good

  lemma {:induction false} AdmitFrame(a: Agent)
    ensures AdmitWhileRoom(a).revision == a.revision && AdmitWhileRoom(a).completed == a.completed
    ensures AdmitWhileRoom(a).inFlight == a.inFlight && AdmitWhileRoom(a).retryTimer == a.retryTimer
    ensures AdmitWhileRoom(a).shuttingDown == a.shuttingDown
    decreases |a.queue|
  {
    if a.active < a.maxSlots && a.freeCores > 0 && a.queue != [] {
      AdmitFrame(AdmitOne(a));
    }
  }

  /** While the gate is closed, a pass is in flight or its retry is due, unless the Agent is stopping. */
  predicate Awake(a: Agent) {
    a.completed < a.revision && !a.shuttingDown ==> a.inFlight.Some? || a.retryTimer
  }

  lemma {:induction false} EnqueueFrame(a: Agent, kind: Kind, ids: seq<Id>)
    ensures var a' := EnqueuedAll(a, kind, ids); a' == a.(queue := a'.queue, queuedIds := a'.queuedIds)
  {
    if ids != [] {
      EnqueueFrame(a, kind, ids[..|ids| - 1]);
    }
  }

  lemma UpdateStaysAwake(a: Agent, kind: Kind, live: set<Id>, pending: seq<Id>, maxSlots: nat)
    requires Awake(a)
    ensures Awake(Updated(a, kind, live, pending, maxSlots))
  {
    var a1 := Reconciled(WithLive(a.(maxSlots := maxSlots), kind, live), kind, live);
    EnqueueFrame(a1, kind, pending);
    var a2 := EnqueuedAll(a1, kind, pending);
    AdmitFrame(a2);
    AdmitFrame(a2.(revision := a2.revision + 1, inFlight := None, retryTimer := false));
  }

  lemma CommandStaysAwake(a: Agent, live: Option<set<Id>>, pending: seq<Id>, maxSlots: nat)
    requires Awake(a)
    ensures Awake(CommandsUpdated(a, live, pending, maxSlots))
  {
    var a1 := a.(maxSlots := maxSlots);
    var a2 := if live.Some? then Reconciled(a1, Command, live.value) else a1;
    EnqueueFrame(a2, Command, pending);
    AdmitFrame(EnqueuedAll(a2, Command, pending));
  }

  lemma ResizedStaysAwake(a: Agent, active: nat, maxSlots: nat, freeCores: nat)
    requires Awake(a)
    ensures Awake(Pump(Resized(a, active, maxSlots, freeCores)))
  {
    AdmitFrame(Resized(a, active, maxSlots, freeCores));
  }

  lemma RecoveryStaysAwake(a: Agent, ok: bool)
    requires Awake(a)
    ensures Awake(RecoveryEnds(a, ok)) && (a.inFlight.None? ==> Awake(Drain(a.(retryTimer := false))))
  {
    if a.inFlight.Some? {
      AdmitFrame(a.(completed := a.inFlight.value.target, recovered := Some(a.inFlight.value.ids), inFlight := None));
      AdmitFrame(a.(inFlight := None, retryTimer := true));
    } else {
      AdmitFrame(a.(retryTimer := false, inFlight := None));
    }
  }

  lemma StepStaysAwake(a: Agent, e: Event)
    requires Awake(a)
    ensures Awake(Step(a, e))
  {
    match e
    case AttemptUpdate(live, pending, maxSlots) => UpdateStaysAwake(a, Attempt, live, pending, maxSlots);
    case ExperimentUpdate(live, pending, maxSlots) => UpdateStaysAwake(a, Experiment, live, pending, maxSlots);
    case CommandUpdate(live, pending, maxSlots) => CommandStaysAwake(a, live, pending, maxSlots);
    case RecoveryDone(ok) => RecoveryStaysAwake(a, ok);
    case RetryFires => RecoveryStaysAwake(a, true);
    case WorkEnds(freeCores) => ResizedStaysAwake(a, if a.active == 0 then 0 else a.active - 1, a.maxSlots, freeCores);
    case CoresChange(freeCores) => ResizedStaysAwake(a, a.active, a.maxSlots, freeCores);
    case Capacity(maxSlots) => ResizedStaysAwake(a, a.active, maxSlots, a.freeCores);
    case _ =>
  }

  /** Through every run from every start, failures included, a closed gate still has a pass or a retry coming. */
  lemma {:induction false} NeverStuck(maxSlots: nat, freeCores: nat, es: seq<Event>)
    ensures Awake(Run(Fresh(maxSlots, freeCores), es))
  {
    if es != [] {
      NeverStuck(maxSlots, freeCores, es[..|es| - 1]);
      StepStaysAwake(Run(Fresh(maxSlots, freeCores), es[..|es| - 1]), es[|es| - 1]);
    }
  }

  // ---------------------------------------------------------------------------------------------
  // The handlers, in place

  class Worker {
    var queue: seq<Key>
    var queuedIds: set<Key>
    var running: set<Key>
    var active: nat
    var maxSlots: nat
    var freeCores: nat
    var shuttingDown: bool
    var stage: Stage
    var liveAttempts: set<Id>
    var liveExperiments: set<Id>
    var revision: nat
    var completed: nat
    var inFlight: Option<Pass>
    var retryTimer: bool
    ghost var recovered: Option<set<Id>>
    ghost var admitted: seq<Admission>

    constructor (slots: nat, cores: nat)
      ensures View() == Fresh(slots, cores)
    {
      queue, queuedIds, running, active, maxSlots, freeCores := [], {}, {}, 0, slots, cores;
      shuttingDown, stage, liveAttempts, liveExperiments := false, Loading, {}, {};
      revision, completed, inFlight, retryTimer, recovered, admitted := 0, 0, None, false, None, [];
    }

    ghost function View(): Agent
      reads this
    {
      Agent(queue, queuedIds, running, active, maxSlots, freeCores, shuttingDown, stage, liveAttempts,
            liveExperiments, revision, completed, inFlight, retryTimer, recovered, admitted)
    }

    /** The top of the process: read the live sets, recover for them, then accept work. */
    method Startup(attempts: set<Id>, experiments: set<Id>, recovers: bool)
      requires stage.Loading?
      modifies this`stage, this`liveAttempts, this`liveExperiments, this`recovered
      ensures var a := StartupRecovered(Loaded(old(View()), attempts, experiments), recovers);
              View() == if recovers then a.(stage := Accepting) else a
      ensures stage.Accepting? <==> recovers
      ensures stage.Accepting? ==> recovered == Some(attempts + experiments)
    {
      liveAttempts, liveExperiments := attempts, experiments;
      stage := Recovering;
      if recovers {
        recovered := Some(liveAttempts + liveExperiments);
        stage := Recovered;
      } else {
        stage := Crashed;
        return;
      }
      stage := Accepting;
    }

    method PumpQueue()
      modifies this`queue, this`active, this`admitted
      ensures View() == Pump(old(View()))
      ensures AdmitsFirst(old(View()), View(), Admits(old(View())))
    {
      PumpAdmits(View());
      if shuttingDown || !stage.Accepting? || inFlight.Some? || completed < revision {
        return;
      }
      while active < maxSlots && freeCores > 0 && |queue| > 0
        invariant AdmitWhileRoom(View()) == AdmitWhileRoom(old(View()))
        decreases |queue|
      {
        admitted := admitted + [Admission(queue[0], recovered, liveAttempts + liveExperiments)];
        queue := queue[1..];
        active := active + 1;
      }
    }

    /** The drain loop up to its next await. */
    method ContinueDrain()
      modifies this`inFlight, this`queue, this`active, this`admitted
      ensures View() == DrainOn(old(View()))
    {
      if completed < revision && !shuttingDown {
        inFlight := Some(Pass(revision, liveAttempts + liveExperiments));
      } else {
        inFlight := None;
        PumpQueue();
      }
    }

    method DrainRuntimeRecovery()
      modifies this`inFlight, this`queue, this`active, this`admitted, this`retryTimer
      ensures View() == Drain(old(View()))
    {
      if shuttingDown || inFlight.Some? {
        return;
      }
      retryTimer := false;
      ContinueDrain();
    }

    /** The drain loop after its await. */
    method RecoveryReturned(ok: bool)
      requires inFlight.Some?
      modifies this`inFlight, this`queue, this`active, this`admitted, this`retryTimer, this`completed, this`recovered
      ensures View() == RecoveryEnds(old(View()), ok)
    {
      if ok {
        completed := inFlight.value.target;
        recovered := Some(inFlight.value.ids);
        ContinueDrain();
      } else {
        retryTimer := true;
        inFlight := None;
        PumpQueue();
      }
    }

    method Enqueue(k: Key)
      modifies this`queue, this`queuedIds
      ensures View() == Enqueued(old(View()), k)
    {
      if k in queuedIds {
        return;
      }
      queuedIds := queuedIds + {k};
      queue := queue + [k];
    }

    method EnqueueEach(kind: Kind, ids: seq<Id>)
      modifies this`queue, this`queuedIds
      ensures View() == EnqueuedAll(old(View()), kind, ids)
    {
      var i := 0;
      while i < |ids|
        invariant 0 <= i <= |ids|
        invariant View() == EnqueuedAll(old(View()), kind, ids[..i])
      {
        assert ids[..i + 1][..i] == ids[..i];
        Enqueue(Key(kind, ids[i]));
        i := i + 1;
      }
      assert ids[..i] == ids;
    }

    /** Splices the queue from its end. */
    method SpliceQueue(kind: Kind, live: set<Id>)
      modifies this`queue
      ensures queue == Kept(old(queue), kind, live)
    {
      var i := |queue|;
      while i > 0
        invariant 0 <= i <= |old(queue)| && i <= |queue|
        invariant queue == old(queue)[..i] + Kept(old(queue)[i..], kind, live)
      {
        i := i - 1;
        assert old(queue)[i..][1..] == old(queue)[i + 1..];
        if !Stays(queue[i], kind, live) {
          queue := queue[..i] + queue[i + 1..];
        }
      }
      assert old(queue)[0..] == old(queue);
    }

    /** Forgets keys of this kind that are neither live nor running. */
    method ForgetKeys(kind: Kind, live: set<Id>)
      modifies this`queuedIds
      ensures queuedIds == set k | k in old(queuedIds) && (Stays(k, kind, live) || k in running)
    {
      var left := queuedIds;
      while left != {}
        invariant left <= queuedIds <= old(queuedIds)
        invariant forall k :: k in old(queuedIds) && k !in left ==>
                  (k in queuedIds <==> Stays(k, kind, live) || k in running)
        decreases |left|
      {
        var k :| k in left;
        if !Stays(k, kind, live) && k !in running {
          queuedIds := queuedIds - {k};
        }
        left := left - {k};
      }
    }

    /** The executors to stop: work of this kind that runs but is no longer live. */
    method StopVanished(kind: Kind, live: set<Id>) returns (stopped: set<Key>)
      ensures stopped == set k | k in running && !Stays(k, kind, live)
    {
      stopped := {};
      var left := running;
      while left != {}
        invariant left <= running && stopped <= running - left
        invariant forall k :: k in running - left ==> (k in stopped <==> !Stays(k, kind, live))
        decreases |left|
      {
        var k :| k in left;
        if !Stays(k, kind, live) {
          stopped := stopped + {k};
        }
        left := left - {k};
      }
    }

    method ReconcileWithServer(kind: Kind, live: set<Id>) returns (stopped: set<Key>)
      modifies this`queue, this`queuedIds
      ensures View() == Reconciled(old(View()), kind, live)
      ensures stopped == set k | k in running && !Stays(k, kind, live)
    {
      stopped := StopVanished(kind, live);
      SpliceQueue(kind, live);
      ForgetKeys(kind, live);
    }

    method SetLive(kind: Kind, live: set<Id>) returns (changed: bool)
      modifies this`liveAttempts, this`liveExperiments
      ensures View() == WithLive(old(View()), kind, live)
      ensures kind != Command ==> (changed <==> live != LiveOf(old(View()), kind))
    {
      match kind
      case Command =>
        changed := false;
      case Attempt =>
        changed := live != liveAttempts;
        liveAttempts := live;
      case Experiment =>
        changed := live != liveExperiments;
        liveExperiments := live;
    }

    method TakeList(kind: Kind, live: set<Id>, pending: seq<Id>, slots: nat) returns (changed: bool)
      requires kind != Command
      modifies this`maxSlots, this`liveAttempts, this`liveExperiments, this`queue, this`queuedIds
      ensures View() == Listed(old(View()), kind, live, pending, slots)
      ensures changed <==> live != LiveOf(old(View()), kind)
    {
      maxSlots := slots;
      changed := SetLive(kind, live);
      var _ := ReconcileWithServer(kind, live);
      EnqueueEach(kind, pending);
    }

    method RequestRuntimeRecovery()
      modifies this`revision, this`inFlight, this`queue, this`active, this`admitted, this`retryTimer
      ensures View() == Drain(old(View()).(revision := old(revision) + 1))
    {
      revision := revision + 1;
      DrainRuntimeRecovery();
    }

    /** An Attempt or Experiment subscription update, start to finish. */
    method OnLiveUpdate(kind: Kind, live: set<Id>, pending: seq<Id>, slots: nat)
      requires kind != Command
      modifies this
      ensures View() == Updated(old(View()), kind, live, pending, slots)
    {
      var changed := TakeList(kind, live, pending, slots);
      if changed {
        RequestRuntimeRecovery();
      } else {
        PumpQueue();
      }
    }

    /** A command update, which leaves the gate and the live sets alone. */
    method OnCommands(live: Option<set<Id>>, pending: seq<Id>, slots: nat)
      modifies this`maxSlots, this`queue, this`queuedIds, this`active, this`admitted
      ensures View() == CommandsUpdated(old(View()), live, pending, slots)
      ensures unchanged(`revision, `completed, `inFlight, `retryTimer, `recovered, `liveAttempts, `liveExperiments)
    {
      maxSlots := slots;
      if live.Some? {
        var _ := ReconcileWithServer(Command, live.value);
      }
      EnqueueEach(Command, pending);
      PumpQueue();
    }
  }
}
