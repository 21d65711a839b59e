/**
 What an alert rule owes its operator, over whole runs: a subject that breaches has an open incident,
 which fires at the first evaluation at or past the pending time and is announced as soon as nothing
 mutes it or cools it down; once the subject stops breaching the incident is over, and said to be.
 */
module AlertProgress {
  import opened Common
  import opened Incidents
  import opened AlertRuns

  // ---------------------------------------------------------------------------------------------
  // Fired at the first evaluation at or past the pending time

  /** Every evaluation before the firing, or so far, came too early to fire. */
  ghost predicate Punctual(r: Incident, hist: seq<Evaluation>, rule: Rule) {
    && (r.firedIn.None? <==> r.status.Pending?)
    && (r.firedIn.Some? ==> r.born <= r.firedIn.value < |hist|)
    && forall k :: r.born <= k < (if r.firedIn.Some? then r.firedIn.value else |hist|) && k < |hist| ==>
         hist[k].now - r.since < rule.forMs
  }

  ghost predicate AllPunctual(rows: seq<Incident>, hist: seq<Evaluation>, rule: Rule) {
    forall i :: 0 <= i < |rows| ==> Punctual(rows[i], hist, rule)
  }

  lemma FiredStaysPunctual(r: Incident, hist: seq<Evaluation>, rule: Rule, ev: Evaluation)
    requires Punctual(r, hist, rule) && r.firedIn.Some?
    ensures Punctual(r, hist + [ev], rule)
  {
  }

  lemma AdvancedIsPunctual(r: Incident, hist: seq<Evaluation>, rule: Rule, ev: Evaluation)
    requires Punctual(r, hist, rule) && r.born < |hist|
    ensures Punctual(Advanced(r, |hist|, rule, ev), hist + [ev], rule)
  {
  }

  lemma OpenedIsPunctual(stamp: nat, hist: seq<Evaluation>, rule: Rule, ev: Evaluation)
    ensures Punctual(Opened(stamp, |hist|, rule, ev), hist + [ev], rule)
  {
  }

  lemma BreachedIsPunctual(f: File, open: Option<nat>, stamp: nat, hist: seq<Evaluation>, rule: Rule, ev: Evaluation)
    requires AllPunctual(f.rows, hist, rule) && FindsOpen(f.rows, open)
    requires forall i :: 0 <= i < |f.rows| ==> f.rows[i].born < |hist| && (!Open(f.rows[i]) ==> f.rows[i].firedIn.Some?)
    requires OneOpen(f.rows)
    ensures AllPunctual(Breached(f, open, stamp, |hist|, rule, ev).rows, hist + [ev], rule)
  {
    var rows := Breached(f, open, stamp, |hist|, rule, ev).rows;
    forall i | 0 <= i < |rows| ensures Punctual(rows[i], hist + [ev], rule) {
      if i == |f.rows| {
        OpenedIsPunctual(stamp, hist, rule, ev);
      } else if open == Some(i) {
        AdvancedIsPunctual(f.rows[i], hist, rule, ev);
      } else {
        FiredStaysPunctual(f.rows[i], hist, rule, ev);
      }
    }
  }

  lemma ClosedIsPunctual(f: File, k: nat, hist: seq<Evaluation>, rule: Rule, now: nat)
    requires AllPunctual(f.rows, hist, rule) && k == |f.rows| - 1
    ensures AllPunctual(Disabled(f, k, now).rows, hist, rule)
  {
    assert f.rows[k].status.Pending? ==> Without(f.rows, k) == f.rows[..k];
  }

  lemma AllFired(rows: seq<Incident>, hist: seq<Evaluation>, rule: Rule, ev: Evaluation)
    requires AllPunctual(rows, hist, rule) && forall i :: 0 <= i < |rows| ==> !Open(rows[i])
    ensures AllPunctual(rows, hist + [ev], rule)
  {
    forall i | 0 <= i < |rows| ensures Punctual(rows[i], hist + [ev], rule) {
      FiredStaysPunctual(rows[i], hist, rule, ev);
    }
  }

  lemma ClearedIsPunctual(f: File, k: nat, hist: seq<Evaluation>, rule: Rule, ev: Evaluation)
    requires AllPunctual(f.rows, hist, rule) && OneOpen(f.rows) && k == |f.rows| - 1
    ensures AllPunctual(Cleared(f, k, ev).rows, hist + [ev], rule)
  {
    ClosedIsPunctual(f, k, hist, rule, ev.now);
    assert Cleared(f, k, ev).rows == Disabled(f, k, ev.now).rows;
    var rows := Cleared(f, k, ev).rows;
    forall i | 0 <= i < |rows| ensures Punctual(rows[i], hist + [ev], rule) {
      FiredStaysPunctual(rows[i], hist, rule, ev);
    }
  }

  ghost predicate InTime(t: Alerts, rule: Rule) {
    forall s :: s in t.files ==> AllPunctual(t.files[s].rows, t.history, rule)
  }

  lemma FileInTime(t: Alerts, s: Subject, rule: Rule, ev: Evaluation, clock: nat)
    requires InTime(t, rule) && BelowCap(t) && FileOk(FileOf(t.files, s), s, t.history, rule, clock, t.next)
    ensures AllPunctual(FileAfter(t, s, rule, ev).rows, t.history + [ev], rule)
  {
    var f, open := FileOf(t.files, s), OpenRow(t, s);
    FindsTheOpenOne(t, s);
    if s in ev.breaches {
      forall i | 0 <= i < |f.rows|
        ensures f.rows[i].born < |t.history| && (!Open(f.rows[i]) ==> f.rows[i].firedIn.Some?)
      {
        assert RowOk(f.rows[i], s, t.history, rule, clock);
      }
      BreachedIsPunctual(f, open, StampFor(t, ev, s), t.history, rule, ev);
    } else if open.Some? {
      ClearedIsPunctual(f, open.value, t.history, rule, ev);
    } else {
      AllFired(f.rows, t.history, rule, ev);
    }
  }

  lemma SweptIsPunctual(rows: seq<Incident>, batch: set<nat>, now: nat, next: nat, hist: seq<Evaluation>, rule: Rule)
    requires AllPunctual(rows, hist, rule) && Increasing(rows, next)
    ensures AllPunctual(Swept(rows, batch, now), hist, rule)
  {
    SweptRows(rows, batch, now, next);
    var swept := Swept(rows, batch, now);
    forall i | 0 <= i < |swept| ensures Punctual(swept[i], hist, rule) {
      assert swept[i] in rows;
    }
  }

  lemma StepInTime(t: Alerts, rule: Rule, e: Event, clock: nat)
    requires InTime(t, rule) && Inv(t, rule, clock) && BelowCap(t)
    ensures InTime(Step(t, rule, e), rule)
  {
    var t' := Step(t, rule, e);
    forall s | s in t'.files ensures AllPunctual(t'.files[s].rows, t'.history, rule) {
      assert FileOk(FileOf(t.files, s), s, t.history, rule, clock, t.next);
      match e
      case Evaluate(ev) => FileInTime(t, s, rule, ev, clock);
      case SwitchOff(now) =>
        FindsTheOpenOne(t, s);
        ClosesTheOpenOne(t, s, now);
        if OpenRow(t, s).Some? {
          ClosedIsPunctual(t.files[s], OpenRow(t, s).value, t.history, rule, now);
        }
      case Sweep(batch, now) => SweptIsPunctual(t.files[s].rows, batch, now, t.next, t.history, rule);
    }
  }

  lemma {:induction false} RunInTime(rule: Rule, es: seq<Event>)
    requires Orderly(rule, es) && rule.cooldownMs <= MAX_COOLDOWN_MS
    ensures InTime(Run(rule, es), rule)
  {
    if es != [] {
      RunInTime(rule, es[..|es| - 1]);
      RunKeeps(rule, es[..|es| - 1]);
      StepInTime(Run(rule, es[..|es| - 1]), rule, es[|es| - 1], Clock(es[..|es| - 1]));
    }
  }

  /**
   In every orderly run an incident fires at the first evaluation, from its first breach on, that
   comes at or past the pending time; while it is pending there has been none.
   */
  lemma FiresOnTime(rule: Rule, es: seq<Event>, s: Subject, i: nat)
    requires Orderly(rule, es) && rule.cooldownMs <= MAX_COOLDOWN_MS && RowAt(Run(rule, es), s, i)
    ensures var r, hist := Run(rule, es).files[s].rows[i], Run(rule, es).history;
            && r.born < |hist| && r.since == hist[r.born].now
            && (r.status.Pending? ==> forall k :: r.born <= k < |hist| ==> hist[k].now - r.since < rule.forMs)
            && (!r.status.Pending? ==>
                  && r.firedIn.Some? && r.born <= r.firedIn.value < |hist|
                  && r.firedAt == Some(hist[r.firedIn.value].now)
                  && hist[r.firedIn.value].now - r.since >= rule.forMs
                  && forall k :: r.born <= k < r.firedIn.value ==> hist[k].now - r.since < rule.forMs)
  {
    RunInTime(rule, es);
    FiresOrPends(rule, es, s, i);
    assert Punctual(Run(rule, es).files[s].rows[i], Run(rule, es).history, rule);
    if !Run(rule, es).files[s].rows[i].status.Pending? {
      FiresAfterPending(rule, es, s, i);
    }
  }

  lemma FiresOrPends(rule: Rule, es: seq<Event>, s: Subject, i: nat)
    requires Orderly(rule, es) && rule.cooldownMs <= MAX_COOLDOWN_MS && RowAt(Run(rule, es), s, i)
    ensures RowOk(Run(rule, es).files[s].rows[i], s, Run(rule, es).history, rule, Clock(es))
  {
    RunKeeps(rule, es);
    assert FileOk(FileOf(Run(rule, es).files, s), s, Run(rule, es).history, rule, Clock(es), Run(rule, es).next);
  }

  // ---------------------------------------------------------------------------------------------
  // Open exactly while it breaches

  /** The subject's newest incident is open. */
  predicate HasOpen(f: File) {
    f.rows != [] && Open(f.rows[|f.rows| - 1])
  }

  lemma EvaluatedFileOf(t: Alerts, rule: Rule, ev: Evaluation, s: Subject)
    ensures FileOf(Evaluated(t, rule, ev).files, s) == FileAfter(t, s, rule, ev)
  {
  }

  /** A breach leaves the newest incident open: the one there was, or a new one. */
  lemma BreachedTail(f: File, open: Option<nat>, stamp: nat, n: nat, rule: Rule, ev: Evaluation)
    requires FindsOpen(f.rows, open)
    ensures var f' := Breached(f, open, stamp, n, rule, ev);
            && HasOpen(f') && |f'.rows| == (if open.Some? then |f.rows| else |f.rows| + 1)
            && f'.rows[|f'.rows| - 1].born == (if open.Some? then f.rows[open.value].born else n)
  {
  }

  lemma ClearedTail(f: File, k: nat, ev: Evaluation)
    requires FindsOpen(f.rows, Some(k)) && OneOpen(f.rows)
    ensures !HasOpen(Cleared(f, k, ev))
  {
    assert Without(f.rows, k) == f.rows[..k];
  }

  /** After an evaluation, a subject has an open incident if and only if it breached. */
  lemma OpenAfter(t: Alerts, s: Subject, rule: Rule, ev: Evaluation)
    requires BelowCap(t) && OneOpen(FileOf(t.files, s).rows)
    ensures var f' := FileAfter(t, s, rule, ev);
            && (HasOpen(f') <==> s in ev.breaches)
            && (HasOpen(f') ==>
                  f'.rows[|f'.rows| - 1].born ==
                  if HasOpen(FileOf(t.files, s)) then FileOf(t.files, s).rows[|FileOf(t.files, s).rows| - 1].born
                  else |t.history|)
  {
    var f, open := FileOf(t.files, s), OpenRow(t, s);
    FindsTheOpenOne(t, s);
    if s in ev.breaches {
      BreachedTail(f, open, StampFor(t, ev, s), |t.history|, rule, ev);
    } else if open.Some? {
      ClearedTail(f, open.value, ev);
    }
  }

  lemma OpenIffBreaching(rule: Rule, es: seq<Event>, s: Subject)
    requires Orderly(rule, es) && rule.cooldownMs <= MAX_COOLDOWN_MS && es != [] && es[|es| - 1].Evaluate?
    ensures HasOpen(FileOf(Run(rule, es).files, s)) <==> s in es[|es| - 1].ev.breaches
  {
    var t, ev := Run(rule, es[..|es| - 1]), es[|es| - 1].ev;
    RunKeeps(rule, es[..|es| - 1]);
    assert FileOk(FileOf(t.files, s), s, t.history, rule, Clock(es[..|es| - 1]), t.next);
    OpenAfter(t, s, rule, ev);
    EvaluatedFileOf(t, rule, ev, s);
  }

  predicate NeverOff(es: seq<Event>) {
    forall i :: 0 <= i < |es| ==> !es[i].SwitchOff?
  }

  /** Open exactly if the last evaluation found it breaching, and since the first of those in a row. */
  ghost predicate InStep(f: File, hist: seq<Evaluation>, s: Subject) {
    && (HasOpen(f) <==> hist != [] && s in hist[|hist| - 1].breaches)
    && (HasOpen(f) ==>
          var born := f.rows[|f.rows| - 1].born;
          born < |hist| && (born > 0 ==> s !in hist[born - 1].breaches))
  }

  lemma FileInStep(t: Alerts, s: Subject, rule: Rule, ev: Evaluation)
    requires BelowCap(t) && OneOpen(FileOf(t.files, s).rows) && InStep(FileOf(t.files, s), t.history, s)
    ensures InStep(FileAfter(t, s, rule, ev), t.history + [ev], s)
  {
    OpenAfter(t, s, rule, ev);
  }

  lemma SweptInStep(f: File, s: Subject, batch: set<nat>, now: nat, hist: seq<Evaluation>, rule: Rule, clock: nat,
                    next: nat)
    requires FileOk(f, s, hist, rule, clock, next) && InStep(f, hist, s)
    ensures InStep(f.(rows := Swept(f.rows, batch, now)), hist, s)
  {
    var rows := Swept(f.rows, batch, now);
    SweptRows(f.rows, batch, now, next);
    if HasOpen(f) {
      assert rows == Swept(f.rows[..|f.rows| - 1], batch, now) + [f.rows[|f.rows| - 1]];
    } else if rows != [] {
      assert rows[|rows| - 1] in f.rows;
    }
  }

  /**
   With the rule left on, an incident is open exactly while its subject breaches, and dates from the
   first evaluation of that stretch.
   */
  lemma {:induction false} DatesFromFirstBreach(rule: Rule, es: seq<Event>, s: Subject)
    requires Orderly(rule, es) && rule.cooldownMs <= MAX_COOLDOWN_MS && NeverOff(es)
    ensures InStep(FileOf(Run(rule, es).files, s), Run(rule, es).history, s)
  {
    if es != [] {
      var before, e := es[..|es| - 1], es[|es| - 1];
      var t := Run(rule, before);
      DatesFromFirstBreach(rule, before, s);
      RunKeeps(rule, before);
      assert FileOk(FileOf(t.files, s), s, t.history, rule, Clock(before), t.next);
      if e.Evaluate? {
        FileInStep(t, s, rule, e.ev);
        EvaluatedFileOf(t, rule, e.ev, s);
      } else {
        SweptInStep(FileOf(t.files, s), s, e.batch, e.now, t.history, rule, Clock(before), t.next);
      }
    }
  }

  // ---------------------------------------------------------------------------------------------
  // Announced as soon as it may be

  /** Another of the subject's ten newest incidents was announced inside the cooldown. */
  ghost predicate CooledBy(rows: seq<Incident>, k: nat, rule: Rule, now: nat) {
    exists j :: 0 <= j < |rows| && |rows| - 10 <= j && j != k && RecentlyNotified(rows[j], rule, now)
  }

  lemma CoolingIsSeen(rows: seq<Incident>, k: nat, rule: Rule, now: nat, next: nat)
    requires Increasing(rows, next) && k < |rows| && CoolingDown(rows, rows[k].stamp, rule, now)
    ensures CooledBy(rows, k, rule, now)
  {
    var recent := Recent(rows);
    LatestIsOne(recent, rows[k].stamp);
    var i :| 0 <= i < |recent| && recent[i].stamp != rows[k].stamp
             && recent[i].notifiedAt == Latest(recent, rows[k].stamp);
    var j := |rows| - |recent| + i;
    assert rows[j] == recent[i];
    SeenCools(rows, k, j, rule, now);
  }

  lemma SeenCools(rows: seq<Incident>, k: nat, j: nat, rule: Rule, now: nat)
    requires j < |rows| && |rows| - 10 <= j && j != k && RecentlyNotified(rows[j], rule, now)
    ensures CooledBy(rows, k, rule, now)
  {
  }

  lemma NotCoolingIsUnseen(rows: seq<Incident>, k: nat, rule: Rule, now: nat, next: nat)
    requires Increasing(rows, next) && k < |rows| && !CoolingDown(rows, rows[k].stamp, rule, now)
    ensures !CooledBy(rows, k, rule, now)
  {
    if j :| 0 <= j < |rows| && |rows| - 10 <= j && j != k && RecentlyNotified(rows[j], rule, now) {
      var recent := Recent(rows);
      var i := j - (|rows| - |recent|);
      assert recent[i] == rows[j];
      LatestBounds(recent, rows[k].stamp, i);
    }
  }

  /** What one evaluation announces about a subject that breaches; `announced`: its incident was before. */
  ghost predicate AnnouncesNow(f: File, f': File, announced: bool, rule: Rule, ev: Evaluation) {
    f'.rows != [] &&
    var k := |f'.rows| - 1;
    var r := f'.rows[k];
    if r.status.Firing? && !announced && !ev.muted && !CooledBy(f'.rows, k, rule, ev.now) then
      && r.notifiedAt == Some(ev.now) && |f'.notices| == |f.notices| + 1
      && f'.notices[..|f.notices|] == f.notices && f'.notices[|f.notices|].firing
      && f'.notices[|f.notices|].stamp == r.stamp && f'.notices[|f.notices|].at == ev.now
    else f'.notices == f.notices && (r.notifiedAt.Some? <==> announced)
  }

  lemma NotifiedAnnounces(f: File, k: nat, rule: Rule, ev: Evaluation, next: nat)
    requires Increasing(f.rows, next) && k == |f.rows| - 1
    requires f.rows[k].notifiedAt.Some? ==> !f.rows[k].status.Pending?
    ensures AnnouncesNow(f, Notified(f, k, rule, ev), f.rows[k].notifiedAt.Some?, rule, ev)
  {
    var r, f' := f.rows[k], Notified(f, k, rule, ev);
    if CoolingDown(f.rows, r.stamp, rule, ev.now) {
      CoolingIsSeen(f.rows, k, rule, ev.now, next);
    } else {
      NotCoolingIsUnseen(f.rows, k, rule, ev.now, next);
    }
    assert forall j :: 0 <= j < |f.rows| && j != k ==> f'.rows[j] == f.rows[j];
    assert CooledBy(f.rows, k, rule, ev.now) <==> CooledBy(f'.rows, k, rule, ev.now);
  }

  predicate Announced(f: File) {
    HasOpen(f) && f.rows[|f.rows| - 1].notifiedAt.Some?
  }

  lemma WithRowKeeps(f: File, open: Option<nat>, stamp: nat, n: nat, rule: Rule, ev: Evaluation, next: nat)
    requires Increasing(f.rows, next) && FindsOpen(f.rows, open) && next <= stamp
    ensures var with := WithRow(f, open, stamp, n, rule, ev);
            && Increasing(with.rows, stamp + 1) && with.notices == f.notices && with.rows != []
            && (with.rows[|with.rows| - 1].notifiedAt.Some? <==> Announced(f))
            && (Announced(f) && !f.rows[|f.rows| - 1].status.Pending? ==>
                  !with.rows[|with.rows| - 1].status.Pending?)
  {
  }

  lemma BreachAnnounces(f: File, s: Subject, open: Option<nat>, stamp: nat, hist: seq<Evaluation>, rule: Rule,
                        ev: Evaluation, clock: nat, next: nat)
    requires FileOk(f, s, hist, rule, clock, next) && FindsOpen(f.rows, open) && next <= stamp
    ensures AnnouncesNow(f, Breached(f, open, stamp, |hist|, rule, ev), Announced(f), rule, ev)
  {
    var with := WithRow(f, open, stamp, |hist|, rule, ev);
    if Announced(f) {
      assert RowOk(f.rows[|f.rows| - 1], s, hist, rule, clock);
    }
    WithRowKeeps(f, open, stamp, |hist|, rule, ev, next);
    var k := |with.rows| - 1;
    assert Breached(f, open, stamp, |hist|, rule, ev) == Notified(with, k, rule, ev);
    NotifiedAnnounces(with, k, rule, ev, stamp + 1);
    SameLog(f, with, Notified(with, k, rule, ev), Announced(f), rule, ev);
  }

  lemma SameLog(f: File, g: File, f': File, announced: bool, rule: Rule, ev: Evaluation)
    requires f.notices == g.notices && AnnouncesNow(g, f', announced, rule, ev)
    ensures AnnouncesNow(f, f', announced, rule, ev)
  {
  }

  /**
   At an evaluation that finds the subject breaching, its firing incident, if not announced before, is
   announced then and there, unless the rule is muted or one of its ten newest neighbours was announced
   inside the cooldown. Nothing else is announced about it.
   */
  lemma AnnouncedWhenDue(rule: Rule, es: seq<Event>, s: Subject)
    requires Orderly(rule, es) && rule.cooldownMs <= MAX_COOLDOWN_MS && es != [] && es[|es| - 1].Evaluate?
    requires s in es[|es| - 1].ev.breaches
    ensures var f, f' := FileOf(Run(rule, es[..|es| - 1]).files, s), FileOf(Run(rule, es).files, s);
            AnnouncesNow(f, f', Announced(f), rule, es[|es| - 1].ev)
  {
    var before, ev := es[..|es| - 1], es[|es| - 1].ev;
    var t := Run(rule, before);
    RunKeeps(rule, before);
    assert FileOk(FileOf(t.files, s), s, t.history, rule, Clock(before), t.next);
    FindsTheOpenOne(t, s);
    EvaluatedFileOf(t, rule, ev, s);
    BreachAnnounces(FileOf(t.files, s), s, OpenRow(t, s), StampFor(t, ev, s), t.history, rule, ev, Clock(before),
                    t.next);
  }

  /** What the end of a breach makes of a file. */
  ghost predicate Settles(f: File, f': File, ev: Evaluation) {
    if !HasOpen(f) then f' == f
    else
      var k := |f.rows| - 1;
      var r := f.rows[k];
      if r.status.Pending? then f'.rows == f.rows[..k] && f'.notices == f.notices
      else
        && |f'.rows| == |f.rows| && f'.rows[..k] == f.rows[..k]
        && f'.rows[k] == r.(status := Resolved, resolvedAt := Some(ev.now))
        && f'.notices == if r.notifiedAt.Some? && !ev.muted
                         then f.notices + [Notice(r.stamp, false, ev.now, {})] else f.notices
  }

  lemma ClearedSettles(f: File, k: nat, ev: Evaluation)
    requires FindsOpen(f.rows, Some(k))
    ensures Settles(f, Cleared(f, k, ev), ev)
  {
    assert Without(f.rows, k) == f.rows[..k];
  }

  /**
   At an evaluation that finds the subject no longer breaching, a pending incident is forgotten without
   a word; a firing one is resolved then, and announced as resolved exactly if its firing was announced
   and the rule is not muted. Without an open incident nothing changes.
   */
  lemma ResolvedWhenOver(rule: Rule, es: seq<Event>, s: Subject)
    requires Orderly(rule, es) && rule.cooldownMs <= MAX_COOLDOWN_MS && es != [] && es[|es| - 1].Evaluate?
    requires s !in es[|es| - 1].ev.breaches
    ensures Settles(FileOf(Run(rule, es[..|es| - 1]).files, s), FileOf(Run(rule, es).files, s), es[|es| - 1].ev)
  {
    var before, ev := es[..|es| - 1], es[|es| - 1].ev;
    var t := Run(rule, before);
    RunKeeps(rule, before);
    var f, open := FileOf(t.files, s), OpenRow(t, s);
    assert FileOk(f, s, t.history, rule, Clock(before), t.next);
    FindsTheOpenOne(t, s);
    EvaluatedFileOf(t, rule, ev, s);
    if open.Some? {
      ClearedSettles(f, open.value, ev);
    }
  }

  // ---------------------------------------------------------------------------------------------
  // Retention

  /** A sweep drops exactly the rows of its batch that were resolved more than thirty days ago. */
  lemma SweepDropsTheOld(rows: seq<Incident>, batch: set<nat>, now: nat, next: nat, r: Incident)
    requires Increasing(rows, next)
    ensures r in Swept(rows, batch, now) <==>
            && r in rows
            && !(r.stamp in batch && r.status == Resolved && r.resolvedAt.Some?
                 && now > r.resolvedAt.value + 2_592_000_000)
  {
    SweptRows(rows, batch, now, next);
  }
}
