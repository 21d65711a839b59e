/**
 What becomes of offered work on a Worker, over whole runs: it is queued once, leaves the queue only by
 being admitted or by vanishing from the server's list, and never waits while it could start.
 */
module WorkQueue {
  import opened Common
  import opened RecoveryGate

  // ---------------------------------------------------------------------------------------------
  // Every event readies the Worker and then admits what may start

  /** A drain up to its pump: the retry is off, and a pass is in flight if a revision is still open. */
  function ReadyToDrain(a: Agent): Agent {
    if a.shuttingDown || a.inFlight.Some? then a
    else if a.completed < a.revision then
      a.(retryTimer := false, inFlight := Some(Pass(a.revision, a.liveAttempts + a.liveExperiments)))
    else a.(retryTimer := false)
  }

  function ReadyToReturn(a: Agent, ok: bool): Agent {
    if a.inFlight.None? then a
    else if !ok then a.(inFlight := None, retryTimer := true)
    else
      var pass := a.inFlight.value;
      var open := pass.target < a.revision && !a.shuttingDown;
      a.(completed := pass.target, recovered := Some(pass.ids),
         inFlight := if open then Some(Pass(a.revision, a.liveAttempts + a.liveExperiments)) else None)
  }

  function ReadyToList(a: Agent, kind: Kind, live: set<Id>, pending: seq<Id>, maxSlots: nat): Agent {
    if a.stage != Accepting then a
    else
      var a' := Listed(a, kind, live, pending, maxSlots);
      if live != (if kind == Attempt then a.liveAttempts else a.liveExperiments)
      then ReadyToDrain(a'.(revision := a'.revision + 1)) else a'
  }

  function ReadyToCommand(a: Agent, known: Option<set<Id>>, pending: seq<Id>, maxSlots: nat): Agent {
    if a.stage != Accepting then a
    else
      var a' := a.(maxSlots := maxSlots);
      EnqueuedAll(if known.Some? then Reconciled(a', Command, known.value) else a', Command, pending)
  }

  /** The Worker after the event, before it admits anything. */
  function Readied(a: Agent, e: Event): Agent {
    match e
    case AttemptUpdate(live, pending, maxSlots) => ReadyToList(a, Attempt, live, pending, maxSlots)
    case ExperimentUpdate(live, pending, maxSlots) => ReadyToList(a, Experiment, live, pending, maxSlots)
    case CommandUpdate(known, pending, maxSlots) => ReadyToCommand(a, known, pending, maxSlots)
    case RecoveryDone(ok) => ReadyToReturn(a, ok)
    case RetryFires => if a.retryTimer then ReadyToDrain(a.(retryTimer := false)) else a
    case WorkEnds(freeCores) => a.(active := if a.active == 0 then 0 else a.active - 1, freeCores := freeCores)
    case CoresChange(freeCores) => a.(freeCores := freeCores)
    case Capacity(maxSlots) => a.(maxSlots := maxSlots)
    case _ => Step(a, e)
  }

  lemma Idles(a: Agent)
    ensures AdmitsFirst(a, a, 0)
  {
    assert a.queue[0..] == a.queue;
  }

  lemma DrainAdmits(a: Agent)
    ensures AdmitsFirst(ReadyToDrain(a), Drain(a), Admits(ReadyToDrain(a)))
  {
    PumpAdmits(a.(retryTimer := false, inFlight := None));
    Idles(Drain(a));
  }

  lemma ReturnAdmits(a: Agent, ok: bool)
    requires a.inFlight.Some?
    ensures AdmitsFirst(ReadyToReturn(a, ok), RecoveryEnds(a, ok), Admits(ReadyToReturn(a, ok)))
  {
    PumpAdmits(ReadyToReturn(a, ok));
    Idles(RecoveryEnds(a, ok));
  }

  lemma ListAdmits(a: Agent, kind: Kind, live: set<Id>, pending: seq<Id>, maxSlots: nat, b: Agent, after: Agent)
    requires kind != Command && a.stage == Accepting
    requires b == ReadyToList(a, kind, live, pending, maxSlots) && after == Updated(a, kind, live, pending, maxSlots)
    ensures AdmitsFirst(b, after, Admits(b))
  {
    var a' := Listed(a, kind, live, pending, maxSlots);
    if live != LiveOf(a, kind) {
      assert b == ReadyToDrain(a'.(revision := a'.revision + 1));
      DrainAdmits(a'.(revision := a'.revision + 1));
    } else {
      assert b == a' && after == Pump(a');
      PumpAdmits(a');
    }
  }

  /** Events that only set fields admit nothing. */
  predicate Quiet(e: Event) {
    e.Load? || e.StartupRecovery? || e.Begin? || e.Spawned? || e.Exited? || e.Shutdown?
  }

  /** What an event admits: as much as may start once it is applied, unless it is not one that pumps. */
  function AdmittedBy(a: Agent, e: Event): nat {
    if Quiet(e) || (e.RecoveryDone? && a.inFlight.None?) || (e.RetryFires? && !a.retryTimer) then 0
    else if (e.AttemptUpdate? || e.ExperimentUpdate? || e.CommandUpdate?) && a.stage != Accepting then 0
    else Admits(Readied(a, e))
  }

  lemma ListStepAdmits(a: Agent, e: Event)
    requires e.AttemptUpdate? || e.ExperimentUpdate?
    ensures AdmitsFirst(Readied(a, e), Step(a, e), AdmittedBy(a, e))
  {
    if a.stage != Accepting {
      Idles(a);
    } else {
      var kind := if e.AttemptUpdate? then Attempt else Experiment;
      ListAdmits(a, kind, e.live, e.pending, e.maxSlots, Readied(a, e), Step(a, e));
    }
  }

  lemma CommandStepAdmits(a: Agent, e: Event)
    requires e.CommandUpdate?
    ensures AdmitsFirst(Readied(a, e), Step(a, e), AdmittedBy(a, e))
  {
    if a.stage != Accepting {
      Idles(a);
    } else {
      PumpAdmits(Readied(a, e));
    }
  }

  lemma GateStepAdmits(a: Agent, e: Event)
    requires e.RecoveryDone? || e.RetryFires?
    ensures AdmitsFirst(Readied(a, e), Step(a, e), AdmittedBy(a, e))
  {
    if e.RecoveryDone? && a.inFlight.Some? {
      ReturnAdmits(a, e.ok);
    } else if e.RetryFires? && a.retryTimer {
      DrainAdmits(a.(retryTimer := false));
    } else {
      Idles(a);
    }
  }

  lemma ResizeStepAdmits(a: Agent, e: Event)
    requires e.WorkEnds? || e.CoresChange? || e.Capacity?
    ensures AdmitsFirst(Readied(a, e), Step(a, e), AdmittedBy(a, e))
  {
    PumpAdmits(Readied(a, e));
  }

  /** Every event admits exactly what may start once it is applied. */
  lemma StepAdmits(a: Agent, e: Event)
    ensures AdmitsFirst(Readied(a, e), Step(a, e), AdmittedBy(a, e))
  {
    if e.AttemptUpdate? || e.ExperimentUpdate? {
      ListStepAdmits(a, e);
    } else if e.CommandUpdate? {
      CommandStepAdmits(a, e);
    } else if e.RecoveryDone? || e.RetryFires? {
      GateStepAdmits(a, e);
    } else if e.WorkEnds? || e.CoresChange? || e.Capacity? {
      ResizeStepAdmits(a, e);
    } else {
      Idles(Step(a, e));
    }
  }

  lemma {:induction false} EnqueuedFrame(a: Agent, kind: Kind, ids: seq<Id>)
    ensures var a' := EnqueuedAll(a, kind, ids); a' == a.(queue := a'.queue, queuedIds := a'.queuedIds)
  {
    if ids != [] {
      EnqueuedFrame(a, kind, ids[..|ids| - 1]);
    }
  }

  /** What a list update does besides the gate and the queue. */
  lemma ListFrame(a: Agent, kind: Kind, live: set<Id>, pending: seq<Id>, maxSlots: nat)
    requires kind != Command && a.stage == Accepting
    ensures var b := ReadyToList(a, kind, live, pending, maxSlots);
            && (a.shuttingDown ==> b.inFlight == a.inFlight)
            && b == a.(maxSlots := maxSlots, queue := b.queue, queuedIds := b.queuedIds, revision := b.revision,
                       inFlight := b.inFlight, retryTimer := b.retryTimer,
                       liveAttempts := if kind == Attempt then live else a.liveAttempts,
                       liveExperiments := if kind == Experiment then live else a.liveExperiments)
  {
    EnqueuedFrame(Reconciled(WithLive(a.(maxSlots := maxSlots), kind, live), kind, live), kind, pending);
  }

  // ---------------------------------------------------------------------------------------------
  // Nothing that could start is waiting

  /** Nothing queued could start, and before the Worker accepts work nothing is queued. */
  predicate Settled(a: Agent) {
    Admits(a) == 0 && (a.stage != Accepting ==> a.queue == [])
  }

  lemma ReadiedStage(a: Agent, e: Event)
    requires !Quiet(e)
    ensures Readied(a, e).stage == a.stage && (a.stage != Accepting ==> Readied(a, e).queue == a.queue)
    ensures Readied(a, e).shuttingDown == a.shuttingDown && Readied(a, e).admitted == a.admitted
    ensures a.shuttingDown ==> Readied(a, e).inFlight == if e.RecoveryDone? then None else a.inFlight
  {
    if a.stage == Accepting {
      match e
      case AttemptUpdate(live, pending, maxSlots) => ListFrame(a, Attempt, live, pending, maxSlots);
      case ExperimentUpdate(live, pending, maxSlots) => ListFrame(a, Experiment, live, pending, maxSlots);
      case CommandUpdate(known, pending, maxSlots) =>
        var a' := a.(maxSlots := maxSlots);
        EnqueuedFrame(if known.Some? then Reconciled(a', Command, known.value) else a', Command, pending);
      case _ =>
    }
  }

  lemma StepSettles(a: Agent, e: Event)
    requires Settled(a)
    ensures Settled(Step(a, e))
  {
    StepAdmits(a, e);
    if !Quiet(e) {
      ReadiedStage(a, e);
    }
  }

  /** After every event of every run, no queued item could start: the gate is closed, or slots or cores are out. */
  lemma {:induction false} NothingWaits(maxSlots: nat, freeCores: nat, es: seq<Event>)
    ensures Settled(Run(Fresh(maxSlots, freeCores), es))
  {
    if es != [] {
      NothingWaits(maxSlots, freeCores, es[..|es| - 1]);
      StepSettles(Run(Fresh(maxSlots, freeCores), es[..|es| - 1]), es[|es| - 1]);
    }
  }

  // ---------------------------------------------------------------------------------------------
  // Slots and cores

  /** The limit an event announces. */
  function LimitIn(e: Event, before: nat): nat {
    match e
    case AttemptUpdate(_, _, maxSlots) => maxSlots
    case ExperimentUpdate(_, _, maxSlots) => maxSlots
    case CommandUpdate(_, _, maxSlots) => maxSlots
    case Capacity(maxSlots) => maxSlots
    case _ => before
  }

  function CoresIn(e: Event, before: nat): nat {
    match e
    case WorkEnds(freeCores) => freeCores
    case CoresChange(freeCores) => freeCores
    case _ => before
  }

  /** An executor of this key runs after the events. */
  predicate RunsAfter(es: seq<Event>, k: Key) {
    es != [] &&
      var e := es[|es| - 1];
      if e == Spawned(k) then true else if e == Exited(k) then false else RunsAfter(es[..|es| - 1], k)
  }

  /** Updates arrive only once the Worker has subscribed. */
  predicate Subscribed(a: Agent, e: Event) {
    e.AttemptUpdate? || e.ExperimentUpdate? || e.CommandUpdate? ==> a.stage == Accepting
  }

  /** What an event leaves of the limits, the executors and the count of running items. */
  lemma ReadiedFrame(a: Agent, e: Event)
    requires Subscribed(a, e)
    ensures var b := Readied(a, e);
            && b.maxSlots == LimitIn(e, a.maxSlots) && b.freeCores == CoresIn(e, a.freeCores)
            && b.active == (if e.WorkEnds? && a.active > 0 then a.active - 1 else a.active)
            && b.admitted == a.admitted && b.shuttingDown == (a.shuttingDown || e.Shutdown?)
            && forall k :: k in b.running <==> e == Spawned(k) || (k in a.running && e != Exited(k))
  {
    match e
    case AttemptUpdate(live, pending, maxSlots) => ListFrame(a, Attempt, live, pending, maxSlots);
    case ExperimentUpdate(live, pending, maxSlots) => ListFrame(a, Experiment, live, pending, maxSlots);
    case CommandUpdate(known, pending, maxSlots) =>
      var a' := a.(maxSlots := maxSlots);
      EnqueuedFrame(if known.Some? then Reconciled(a', Command, known.value) else a', Command, pending);
    case _ =>
  }

  /** Updates come after the subscription, and executors end only after they were admitted. */
  ghost predicate Regular(a: Agent, es: seq<Event>) {
    es != [] ==>
      var before, e := Run(a, es[..|es| - 1]), es[|es| - 1];
      && Regular(a, es[..|es| - 1]) && Subscribed(before, e)
      && (e.WorkEnds? ==> before.active > 0)
      && (e.Spawned? ==> WasAdmitted(before, e.key))
  }

  predicate WasAdmitted(a: Agent, k: Key) {
    exists i :: 0 <= i < |a.admitted| && a.admitted[i].key == k
  }

  function LimitAfter(maxSlots: nat, es: seq<Event>): nat {
    if es == [] then maxSlots else LimitIn(es[|es| - 1], LimitAfter(maxSlots, es[..|es| - 1]))
  }

  /** The largest limit announced so far. */
  function MostSlots(maxSlots: nat, es: seq<Event>): nat {
    if es == [] then maxSlots
    else
      var most, now := MostSlots(maxSlots, es[..|es| - 1]), LimitAfter(maxSlots, es);
      if now > most then now else most
  }

  function CoresAfter(freeCores: nat, es: seq<Event>): nat {
    if es == [] then freeCores else CoresIn(es[|es| - 1], CoresAfter(freeCores, es[..|es| - 1]))
  }

  function Endings(es: seq<Event>): nat {
    if es == [] then 0 else Endings(es[..|es| - 1]) + if es[|es| - 1].WorkEnds? then 1 else 0
  }

  /**
   In every run the Worker goes by the last limit and the last count of free cores it was told, knows
   its executors, has admitted exactly what runs or has ended, and never ran more at once than the
   largest limit it was told.
   */
  lemma {:induction false} SlotsAreCounted(maxSlots: nat, freeCores: nat, es: seq<Event>)
    requires Regular(Fresh(maxSlots, freeCores), es)
    ensures var a := Run(Fresh(maxSlots, freeCores), es);
            && a.maxSlots == LimitAfter(maxSlots, es) && a.freeCores == CoresAfter(freeCores, es)
            && (forall k :: k in a.running <==> RunsAfter(es, k))
            && |a.admitted| == a.active + Endings(es) && a.active <= MostSlots(maxSlots, es)
            && a.maxSlots <= MostSlots(maxSlots, es)
  {
    if es != [] {
      var a, e := Run(Fresh(maxSlots, freeCores), es[..|es| - 1]), es[|es| - 1];
      SlotsAreCounted(maxSlots, freeCores, es[..|es| - 1]);
      StepAdmits(a, e);
      ReadiedFrame(a, e);
    }
  }

  /** Once shutting down, a Worker admits nothing more and starts no recovery. */
  lemma ShutdownStops(a: Agent, e: Event)
    requires a.shuttingDown
    ensures var a' := Step(a, e);
            && a'.shuttingDown && a'.admitted == a.admitted
            && (a'.inFlight == a.inFlight || a'.inFlight.None?)
  {
    StepAdmits(a, e);
    if !Quiet(e) {
      ReadiedStage(a, e);
    }
  }

  // ---------------------------------------------------------------------------------------------
  // Nothing offered is lost

  /** The update lists the live work of the key's kind, and the key is not on it. */
  predicate Vanishes(e: Event, k: Key) {
    match e
    case AttemptUpdate(live, _, _) => k.kind == Attempt && k.id !in live
    case ExperimentUpdate(live, _, _) => k.kind == Experiment && k.id !in live
    case CommandUpdate(known, _, _) => k.kind == Command && known.Some? && k.id !in known.value
    case _ => false
  }

  predicate Offers(e: Event, k: Key) {
    match e
    case AttemptUpdate(_, pending, _) => k.kind == Attempt && k.id in pending
    case ExperimentUpdate(_, pending, _) => k.kind == Experiment && k.id in pending
    case CommandUpdate(_, pending, _) => k.kind == Command && k.id in pending
    case _ => false
  }

  lemma {:induction false} KeptExactly(queue: seq<Key>, kind: Kind, live: set<Id>)
    ensures forall k :: k in Kept(queue, kind, live) <==> k in queue && !(k.kind == kind && k.id !in live)
  {
    if queue != [] {
      KeptExactly(queue[1..], kind, live);
      assert queue == [queue[0]] + queue[1..];
    }
  }

  lemma {:induction false} EnqueuedExactly(a: Agent, kind: Kind, ids: seq<Id>)
    ensures var a' := EnqueuedAll(a, kind, ids);
            && a.queue <= a'.queue
            && (forall k :: k in a'.queuedIds <==> k in a.queuedIds || (k.kind == kind && k.id in ids))
            && forall k :: k in a'.queue <==> k in a.queue || (k.kind == kind && k.id in ids && k !in a.queuedIds)
  {
    if ids != [] {
      var n := |ids| - 1;
      EnqueuedExactly(a, kind, ids[..n]);
      assert ids == ids[..n] + [ids[n]];
    }
  }

  /** What an event makes of the queue and of the keys the Worker remembers. */
  ghost predicate Requeued(a: Agent, b: Agent, e: Event) {
    && (forall k :: k in b.queuedIds <==> Offers(e, k) || (k in a.queuedIds && (!Vanishes(e, k) || k in a.running)))
    && (forall k :: k in a.queue && !Vanishes(e, k) ==> k in b.queue)
    && (forall k :: k in b.queue ==> (k in a.queue && !Vanishes(e, k)) || Offers(e, k))
    && (forall k :: Offers(e, k) && (k !in a.queuedIds || (Vanishes(e, k) && k !in a.running)) ==> k in b.queue)
  }

  /** A list of live work of one kind, then what is offered of it. */
  ghost predicate Relisted(a: Agent, b: Agent, kind: Kind, live: set<Id>, pending: seq<Id>) {
    && (forall k :: k in b.queuedIds <==>
          (k.kind == kind && k.id in pending)
          || (k in a.queuedIds && (!(k.kind == kind && k.id !in live) || k in a.running)))
    && (forall k :: k in a.queue && !(k.kind == kind && k.id !in live) ==> k in b.queue)
    && (forall k :: k in b.queue ==>
          (k in a.queue && !(k.kind == kind && k.id !in live)) || (k.kind == kind && k.id in pending))
    && (forall k: Key | k.kind == kind && k.id in pending ::
          (k in a.queuedIds && (k.id in live || k in a.running)) || k in b.queue)
  }

  lemma ListedQueue(a: Agent, kind: Kind, live: set<Id>, pending: seq<Id>)
    ensures Relisted(a, EnqueuedAll(Reconciled(a, kind, live), kind, pending), kind, live, pending)
  {
    KeptExactly(a.queue, kind, live);
    EnqueuedExactly(Reconciled(a, kind, live), kind, pending);
  }

  lemma RelistedIsRequeued(a: Agent, b: Agent, e: Event, kind: Kind, live: set<Id>, pending: seq<Id>)
    requires Relisted(a, b, kind, live, pending)
    requires forall k :: Offers(e, k) <==> k.kind == kind && k.id in pending
    requires forall k :: Vanishes(e, k) <==> k.kind == kind && k.id !in live
    ensures Requeued(a, b, e)
  {
  }

  lemma ListEventQueue(a: Agent, e: Event, kind: Kind, live: set<Id>, pending: seq<Id>, maxSlots: nat)
    requires a.stage == Accepting
    requires || (e == AttemptUpdate(live, pending, maxSlots) && kind == Attempt)
             || (e == ExperimentUpdate(live, pending, maxSlots) && kind == Experiment)
    ensures Requeued(a, ReadyToList(a, kind, live, pending, maxSlots), e)
  {
    ListedQueue(WithLive(a.(maxSlots := maxSlots), kind, live), kind, live, pending);
    RelistedIsRequeued(a, ReadyToList(a, kind, live, pending, maxSlots), e, kind, live, pending);
  }

  lemma CommandEventQueue(a: Agent, known: Option<set<Id>>, pending: seq<Id>, maxSlots: nat)
    requires a.stage == Accepting
    ensures Requeued(a, ReadyToCommand(a, known, pending, maxSlots), CommandUpdate(known, pending, maxSlots))
  {
    var a' := a.(maxSlots := maxSlots);
    if known.Some? {
      ListedQueue(a', Command, known.value, pending);
      RelistedIsRequeued(a, ReadyToCommand(a, known, pending, maxSlots), CommandUpdate(known, pending, maxSlots),
                         Command, known.value, pending);
    } else {
      EnqueuedExactly(a', Command, pending);
    }
  }

  lemma OtherEventQueue(a: Agent, b: Agent, e: Event)
    requires !e.AttemptUpdate? && !e.ExperimentUpdate? && !e.CommandUpdate?
    requires b.queue == a.queue && b.queuedIds == a.queuedIds
    ensures Requeued(a, b, e)
  {
  }

  lemma OtherEventsKeep(a: Agent, e: Event)
    requires !e.AttemptUpdate? && !e.ExperimentUpdate? && !e.CommandUpdate?
    ensures Readied(a, e).queue == a.queue && Readied(a, e).queuedIds == a.queuedIds
  {
  }

  lemma ReadiedQueue(a: Agent, e: Event)
    requires Subscribed(a, e)
    ensures Requeued(a, Readied(a, e), e)
  {
    if e.AttemptUpdate? {
      ListEventQueue(a, e, Attempt, e.live, e.pending, e.maxSlots);
    } else if e.ExperimentUpdate? {
      ListEventQueue(a, e, Experiment, e.live, e.pending, e.maxSlots);
    } else if e.CommandUpdate? {
      CommandEventQueue(a, e.known, e.pending, e.maxSlots);
    } else {
      OtherEventsKeep(a, e);
      OtherEventQueue(a, Readied(a, e), e);
    }
  }

  lemma AdmittedOrQueued(b: Agent, a': Agent, n: nat, k: Key)
    requires AdmitsFirst(b, a', n) && (k in b.queue || WasAdmitted(b, k))
    ensures k in a'.queue || WasAdmitted(a', k)
  {
    if i :| 0 <= i < |b.admitted| && b.admitted[i].key == k {
      assert a'.admitted[i].key == k;
    } else {
      var i :| 0 <= i < |b.queue| && b.queue[i] == k;
      if i < n {
        assert a'.admitted[|b.admitted| + i].key == k;
      } else {
        assert a'.queue[i - n] == k;
      }
    }
  }

  /** A queued item stays queued or is admitted, unless an update of its kind no longer lists it. */
  lemma QueuedStays(a: Agent, e: Event, k: Key)
    requires Subscribed(a, e) && k in a.queue && !Vanishes(e, k)
    ensures k in Step(a, e).queue || WasAdmitted(Step(a, e), k)
  {
    ReadiedQueue(a, e);
    StepAdmits(a, e);
    AdmittedOrQueued(Readied(a, e), Step(a, e), AdmittedBy(a, e), k);
  }

  /** Every remembered key is queued or was admitted, and so was every key an executor runs. */
  ghost predicate Handled(a: Agent) {
    && (forall k :: k in a.queuedIds ==> k in a.queue || WasAdmitted(a, k))
    && (forall k :: k in a.running ==> WasAdmitted(a, k))
  }

  lemma AdmittedStays(b: Agent, a': Agent, n: nat, k: Key)
    requires AdmitsFirst(b, a', n) && WasAdmitted(b, k)
    ensures WasAdmitted(a', k)
  {
    var i :| 0 <= i < |b.admitted| && b.admitted[i].key == k;
    assert a'.admitted[i].key == k;
  }

  lemma StepHandles(a: Agent, e: Event)
    requires Handled(a) && Subscribed(a, e) && (e.Spawned? ==> WasAdmitted(a, e.key))
    ensures Handled(Step(a, e))
  {
    var b, a', n := Readied(a, e), Step(a, e), AdmittedBy(a, e);
    StepAdmits(a, e);
    ReadiedFrame(a, e);
    ReadiedQueue(a, e);
    assert forall k :: WasAdmitted(a, k) <==> WasAdmitted(b, k);
    forall k | k in a'.queuedIds ensures k in a'.queue || WasAdmitted(a', k) {
      AdmittedOrQueued(b, a', n, k);
    }
    forall k | k in a'.running ensures WasAdmitted(a', k) {
      AdmittedStays(b, a', n, k);
    }
  }

  lemma {:induction false} RunHandles(maxSlots: nat, freeCores: nat, es: seq<Event>)
    requires Regular(Fresh(maxSlots, freeCores), es)
    ensures Handled(Run(Fresh(maxSlots, freeCores), es))
  {
    if es != [] {
      RunHandles(maxSlots, freeCores, es[..|es| - 1]);
      StepHandles(Run(Fresh(maxSlots, freeCores), es[..|es| - 1]), es[|es| - 1]);
    }
  }

  /** In every run, whatever the last update offered is now queued or was admitted. */
  lemma NothingOfferedIsLost(maxSlots: nat, freeCores: nat, es: seq<Event>, k: Key)
    requires Regular(Fresh(maxSlots, freeCores), es) && es != [] && Offers(es[|es| - 1], k)
    ensures var a := Run(Fresh(maxSlots, freeCores), es); k in a.queue || WasAdmitted(a, k)
  {
    RunHandles(maxSlots, freeCores, es);
    var a, e := Run(Fresh(maxSlots, freeCores), es[..|es| - 1]), es[|es| - 1];
    ReadiedQueue(a, e);
    StepAdmits(a, e);
  }

  // ---------------------------------------------------------------------------------------------
  // The gate can always open

  /** The Worker has started, is not stopping, and its gate is closed. */
  predicate Closed(a: Agent) {
    a.stage == Accepting && !a.shuttingDown && (a.inFlight.Some? || a.completed < a.revision)
  }

  /** What reopens the gate: the retry, if one is due, and successful recoveries. */
  function Reopening(a: Agent): seq<Event> {
    if a.inFlight.None? then [RetryFires, RecoveryDone(true)]
    else if a.inFlight.value.target == a.revision then [RecoveryDone(true)]
    else [RecoveryDone(true), RecoveryDone(true)]
  }

  lemma RunOne(a: Agent, e: Event)
    ensures Run(a, [e]) == Step(a, e)
  {
    assert [e][..0] == [];
  }

  lemma RunTwo(a: Agent, e: Event, e': Event)
    ensures Run(a, [e, e']) == Step(Step(a, e), e')
  {
    assert [e, e'][..1] == [e];
    RunOne(a, e);
  }

  lemma PassReturns(a: Agent)
    requires Closed(a) && a.inFlight.Some?
    ensures var a', pass := Step(a, RecoveryDone(true)), a.inFlight.value;
            && a'.completed == pass.target && a'.recovered == Some(pass.ids) && a'.revision == a.revision
            && a'.stage == Accepting && !a'.shuttingDown
            && a'.inFlight == (if pass.target < a.revision
                               then Some(Pass(a.revision, a.liveAttempts + a.liveExperiments)) else None)
  {
    StepAdmits(a, RecoveryDone(true));
  }

  lemma RetryStarts(a: Agent)
    requires Closed(a) && a.inFlight.None? && a.retryTimer
    ensures var a' := Step(a, RetryFires);
            && a'.inFlight == Some(Pass(a.revision, a.liveAttempts + a.liveExperiments)) && !a'.retryTimer
            && a'.revision == a.revision && a'.stage == Accepting && !a'.shuttingDown
  {
    StepAdmits(a, RetryFires);
  }

  /** From every reached state with a closed gate, at most two events open it: recovery can always catch up. */
  lemma GateCanReopen(maxSlots: nat, freeCores: nat, es: seq<Event>)
    requires forall j :: 0 <= j < |es| ==> Honest(es[j])
    requires Closed(Run(Fresh(maxSlots, freeCores), es))
    ensures var a := Run(Fresh(maxSlots, freeCores), es);
            !Closed(Run(a, Reopening(a))) && Run(a, Reopening(a)).stage == Accepting
  {
    var a := Run(Fresh(maxSlots, freeCores), es);
    RunKeeps(Fresh(maxSlots, freeCores), es);
    NeverStuck(maxSlots, freeCores, es);
    if a.inFlight.None? {
      RetryStarts(a);
      PassReturns(Step(a, RetryFires));
      RunTwo(a, RetryFires, RecoveryDone(true));
    } else {
      PassReturns(a);
      RunOne(a, RecoveryDone(true));
      if a.inFlight.value.target < a.revision {
        PassReturns(Step(a, RecoveryDone(true)));
        RunTwo(a, RecoveryDone(true), RecoveryDone(true));
      }
    }
  }

  /** A failed recovery leaves the gate closed, admits nothing and sets the retry. */
  lemma FailedPassWaits(a: Agent)
    requires Closed(a) && a.inFlight.Some? && a.completed < a.revision
    ensures Step(a, RecoveryDone(false)) == a.(inFlight := None, retryTimer := true)
  {
    StepAdmits(a, RecoveryDone(false));
  }

  /** A started Worker is open for the sets it loaded; one whose startup recovery fails never admits anything. */
  lemma StartupOpens(maxSlots: nat, freeCores: nat, attempts: set<Id>, experiments: set<Id>, ok: bool)
    ensures var a := Run(Fresh(maxSlots, freeCores), [Load(attempts, experiments), StartupRecovery(ok), Begin]);
            && a.liveAttempts == attempts && a.liveExperiments == experiments
            && a.stage == (if ok then Accepting else Crashed) && !Closed(a)
            && a.recovered == if ok then Some(attempts + experiments) else None
  {
    var es := [Load(attempts, experiments), StartupRecovery(ok), Begin];
    assert es[..2] == [Load(attempts, experiments), StartupRecovery(ok)];
    RunTwo(Fresh(maxSlots, freeCores), Load(attempts, experiments), StartupRecovery(ok));
  }

  lemma CrashedStays(a: Agent, e: Event)
    requires a.stage == Crashed && a.queue == []
    ensures Step(a, e).stage == Crashed && Step(a, e).queue == [] && Step(a, e).admitted == a.admitted
  {
    StepAdmits(a, e);
    if !Quiet(e) {
      ReadiedStage(a, e);
    }
  }

  /** A Worker whose startup recovery failed admits nothing, whatever happens. */
  lemma {:induction false} CrashedAdmitsNothing(a: Agent, es: seq<Event>)
    requires a.stage == Crashed && a.queue == []
    ensures var a' := Run(a, es); a'.stage == Crashed && a'.queue == [] && a'.admitted == a.admitted
  {
    if es != [] {
      CrashedAdmitsNothing(a, es[..|es| - 1]);
      CrashedStays(Run(a, es[..|es| - 1]), es[|es| - 1]);
    }
  }
}
