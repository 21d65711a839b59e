/**
 All subjects of one alert rule, over whole runs of evaluations, retention sweeps and switching the
 rule off, with a clock that never goes back and the rule's times unedited.
 */
module AlertRuns {
  import opened Common
  import opened Incidents

  function FileOf(files: map<Subject, File>, s: Subject): File {
    if s in files then files[s] else File([], [])
  }

  function IndexOf(breaches: seq<Subject>, s: Subject): (i: nat)
    requires s in breaches
    ensures i < |breaches| && breaches[i] == s
  {
    if breaches[0] == s then 0 else 1 + IndexOf(breaches[1..], s)
  }

  // ---------------------------------------------------------------------------------------------
  // What an evaluation reads: the oldest thousand pending and the oldest thousand firing incidents

  ghost predicate RowAt(t: Alerts, s: Subject, i: nat) {
    s in t.files && i < |t.files[s].rows|
  }

  ghost function StampsWith(t: Alerts, status: Status): set<nat> {
    set s, i | s in t.files && 0 <= i < |t.files[s].rows| && t.files[s].rows[i].status == status ::
      t.files[s].rows[i].stamp
  }

  ghost predicate IsRead(t: Alerts, r: Incident) {
    Open(r) && |set x | x in StampsWith(t, r.status) && x < r.stamp| < MAX_OPEN_INCIDENTS_PER_RULE
  }

  /** The last row below `n` that was read with this status. */
  ghost function LastRead(t: Alerts, rows: seq<Incident>, status: Status, n: nat): (k: Option<nat>)
    requires n <= |rows|
    ensures k.Some? ==> k.value < n && rows[k.value].status == status && IsRead(t, rows[k.value])
    ensures k.None? ==> forall i :: 0 <= i < n ==> !(rows[i].status == status && IsRead(t, rows[i]))
  {
    if n == 0 then None
    else if rows[n - 1].status == status && IsRead(t, rows[n - 1]) then Some(n - 1)
    else LastRead(t, rows, status, n - 1)
  }

  /** The subject's entry in the map of open incidents: firing rows are listed after pending ones. */
  ghost function OpenRow(t: Alerts, s: Subject): (k: Option<nat>)
    ensures k.Some? ==> k.value < |FileOf(t.files, s).rows| && Open(FileOf(t.files, s).rows[k.value])
  {
    var rows := FileOf(t.files, s).rows;
    var firing := LastRead(t, rows, Firing, |rows|);
    if firing.Some? then firing else LastRead(t, rows, Pending, |rows|)
  }

  function NextAfter(t: Alerts, ev: Evaluation): (n: nat)
    ensures n >= t.next
  {
    t.next + |ev.breaches|
  }

  /** The creation order of what the evaluation inserts. */
  function StampFor(t: Alerts, ev: Evaluation, s: Subject): (n: nat)
    requires s in ev.breaches
    ensures t.next <= n < NextAfter(t, ev)
  {
    t.next + IndexOf(ev.breaches, s)
  }

  ghost function FileAfter(t: Alerts, s: Subject, rule: Rule, ev: Evaluation): File {
    var f, open := FileOf(t.files, s), OpenRow(t, s);
    if s in ev.breaches then Breached(f, open, StampFor(t, ev, s), |t.history|, rule, ev)
    else if open.Some? then Cleared(f, open.value, ev)
    else f
  }

  ghost function Evaluated(t: Alerts, rule: Rule, ev: Evaluation): Alerts {
    var subjects := t.files.Keys + (set s | s in ev.breaches);
    Alerts(map s | s in subjects :: FileAfter(t, s, rule, ev), NextAfter(t, ev), t.history + [ev])
  }

  /** Every row read is closed without a word: a pending one is deleted, a firing one resolved. */
  ghost function ClosedRead(t: Alerts, rows: seq<Incident>, now: nat): seq<Incident> {
    if rows == [] then []
    else
      var rest, r := ClosedRead(t, rows[..|rows| - 1], now), rows[|rows| - 1];
      if !IsRead(t, r) then rest + [r]
      else if r.status.Pending? then rest
      else rest + [r.(status := Resolved, resolvedAt := Some(now))]
  }

  ghost function SwitchedOff(t: Alerts, now: nat): Alerts {
    t.(files := map s | s in t.files :: t.files[s].(rows := ClosedRead(t, t.files[s].rows, now)))
  }

  function SweptAll(t: Alerts, batch: set<nat>, now: nat): Alerts {
    t.(files := map s | s in t.files :: t.files[s].(rows := Swept(t.files[s].rows, batch, now)))
  }

  // ---------------------------------------------------------------------------------------------
  // Runs

  datatype Event =
    | Evaluate(ev: Evaluation)
    | SwitchOff(now: nat)
    | Sweep(batch: set<nat>, now: nat)

  function TimeOf(e: Event): nat {
    match e
    case Evaluate(ev) => ev.now
    case SwitchOff(now) => now
    case Sweep(_, now) => now
  }

  ghost function Step(t: Alerts, rule: Rule, e: Event): Alerts {
    match e
    case Evaluate(ev) => Evaluated(t, rule, ev)
    case SwitchOff(now) => SwitchedOff(t, now)
    case Sweep(batch, now) => SweptAll(t, batch, now)
  }

  ghost function Run(rule: Rule, es: seq<Event>): Alerts {
    if es == [] then Alerts(map[], 0, []) else Step(Run(rule, es[..|es| - 1]), rule, es[|es| - 1])
  }

  function Clock(es: seq<Event>): nat {
    if es == [] then 0 else TimeOf(es[|es| - 1])
  }

  /** At most a thousand pending and a thousand firing incidents: the reads miss none. */
  ghost predicate BelowCap(t: Alerts) {
    |StampsWith(t, Pending)| <= MAX_OPEN_INCIDENTS_PER_RULE && |StampsWith(t, Firing)| <= MAX_OPEN_INCIDENTS_PER_RULE
  }

  ghost predicate Orderly(rule: Rule, es: seq<Event>) {
    es != [] ==>
      var before := es[..|es| - 1];
      && Orderly(rule, before) && Clock(before) <= TimeOf(es[|es| - 1])
      && BelowCap(Run(rule, before))
  }

  ghost predicate Inv(t: Alerts, rule: Rule, clock: nat) {
    forall s :: FileOk(FileOf(t.files, s), s, t.history, rule, clock, t.next)
  }

  lemma BelowCapReadsAll(t: Alerts, s: Subject, i: nat)
    requires BelowCap(t) && RowAt(t, s, i) && Open(t.files[s].rows[i])
    ensures IsRead(t, t.files[s].rows[i])
  {
    var r := t.files[s].rows[i];
    var older := set x | x in StampsWith(t, r.status) && x < r.stamp;
    assert r.stamp in StampsWith(t, r.status);
    Smaller(older, StampsWith(t, r.status));
  }

  lemma Smaller(a: set<nat>, b: set<nat>)
    requires a < b
    ensures |a| < |b|
  {
    assert b == a + (b - a);
    assert b - a != {};
  }

  lemma FindsTheOpenOne(t: Alerts, s: Subject)
    requires BelowCap(t) && OneOpen(FileOf(t.files, s).rows)
    ensures FindsOpen(FileOf(t.files, s).rows, OpenRow(t, s))
  {
    var rows := FileOf(t.files, s).rows;
    forall i | 0 <= i < |rows| && Open(rows[i]) ensures IsRead(t, rows[i]) {
      BelowCapReadsAll(t, s, i);
    }
  }

  lemma EvaluatedFile(t: Alerts, s: Subject, rule: Rule, ev: Evaluation, clock: nat)
    requires FileOk(FileOf(t.files, s), s, t.history, rule, clock, t.next) && BelowCap(t)
    requires clock <= ev.now && rule.cooldownMs <= MAX_COOLDOWN_MS
    ensures FileOk(FileAfter(t, s, rule, ev), s, t.history + [ev], rule, ev.now, NextAfter(t, ev))
  {
    var f, open, next' := FileOf(t.files, s), OpenRow(t, s), NextAfter(t, ev);
    FindsTheOpenOne(t, s);
    if s in ev.breaches {
      BreachedOk(f, s, open, StampFor(t, ev, s), t.history, rule, ev, clock, t.next, next');
    } else if open.Some? {
      ClearedOk(f, open.value, s, t.history, rule, clock, t.next, ev);
      FileLater(Cleared(f, open.value, ev), s, t.history + [ev], rule, ev.now, ev.now, t.next, next');
    } else {
      IdleOk(f, s, t.history, rule, clock, t.next, ev, next');
    }
  }

  lemma EvaluationKeeps(t: Alerts, rule: Rule, ev: Evaluation, clock: nat)
    requires Inv(t, rule, clock) && BelowCap(t) && clock <= ev.now && rule.cooldownMs <= MAX_COOLDOWN_MS
    ensures Inv(Evaluated(t, rule, ev), rule, ev.now)
  {
    var t' := Evaluated(t, rule, ev);
    forall s ensures FileOk(FileOf(t'.files, s), s, t'.history, rule, ev.now, t'.next) {
      assert FileOk(FileOf(t.files, s), s, t.history, rule, clock, t.next);
      EvaluatedFile(t, s, rule, ev, clock);
      assert FileOf(t'.files, s) == FileAfter(t, s, rule, ev);
    }
  }

  lemma {:induction false} NothingOpenStays(t: Alerts, rows: seq<Incident>, now: nat)
    requires forall i :: 0 <= i < |rows| ==> !Open(rows[i])
    ensures ClosedRead(t, rows, now) == rows
  {
    if rows != [] {
      NothingOpenStays(t, rows[..|rows| - 1], now);
      assert rows == rows[..|rows| - 1] + [rows[|rows| - 1]];
    }
  }

  /** With one open incident, which is read, closing what is read closes just that one. */
  lemma ClosesTheOpenOne(t: Alerts, s: Subject, now: nat)
    requires BelowCap(t) && s in t.files && OneOpen(t.files[s].rows)
    ensures var f, open := t.files[s], OpenRow(t, s);
            f.(rows := ClosedRead(t, f.rows, now)) == if open.Some? then Disabled(f, open.value, now) else f
  {
    var f, open := t.files[s], OpenRow(t, s);
    FindsTheOpenOne(t, s);
    if open.None? {
      NothingOpenStays(t, f.rows, now);
    } else {
      var n := open.value;
      BelowCapReadsAll(t, s, n);
      NothingOpenStays(t, f.rows[..n], now);
      assert Without(f.rows, n) == f.rows[..n];
    }
  }

  lemma SwitchOffKeeps(t: Alerts, rule: Rule, clock: nat, now: nat)
    requires Inv(t, rule, clock) && BelowCap(t) && clock <= now
    ensures Inv(SwitchedOff(t, now), rule, now)
  {
    var t' := SwitchedOff(t, now);
    forall s ensures FileOk(FileOf(t'.files, s), s, t'.history, rule, now, t'.next) {
      var f := FileOf(t.files, s);
      assert FileOk(f, s, t.history, rule, clock, t.next);
      FindsTheOpenOne(t, s);
      if s in t.files {
        ClosesTheOpenOne(t, s, now);
      }
      if s in t.files && OpenRow(t, s).Some? {
        DisabledOk(f, OpenRow(t, s).value, s, t.history, rule, clock, t.next, now);
      } else {
        FileLater(f, s, t.history, rule, clock, now, t.next, t.next);
      }
    }
  }

  lemma SweepKeeps(t: Alerts, rule: Rule, batch: set<nat>, clock: nat, now: nat)
    requires Inv(t, rule, clock) && clock <= now
    ensures Inv(SweptAll(t, batch, now), rule, now)
  {
    var t' := SweptAll(t, batch, now);
    forall s ensures FileOk(FileOf(t'.files, s), s, t'.history, rule, now, t'.next) {
      assert FileOk(FileOf(t.files, s), s, t.history, rule, clock, t.next);
      SweptOk(FileOf(t.files, s), s, batch, clock, now, t.history, rule, t.next);
    }
  }

  lemma {:induction false} RunKeeps(rule: Rule, es: seq<Event>)
    requires Orderly(rule, es) && rule.cooldownMs <= MAX_COOLDOWN_MS
    ensures Inv(Run(rule, es), rule, Clock(es))
  {
    if es != [] {
      var before, e := es[..|es| - 1], es[|es| - 1];
      RunKeeps(rule, before);
      match e
      case Evaluate(ev) => EvaluationKeeps(Run(rule, before), rule, ev, Clock(before));
      case SwitchOff(now) => SwitchOffKeeps(Run(rule, before), rule, Clock(before), now);
      case Sweep(batch, now) => SweepKeeps(Run(rule, before), rule, batch, Clock(before), now);
    }
  }

  lemma {:induction false} RunAppends(rule: Rule, es: seq<Event>, e: Event, es': seq<Event>)
    requires es' == es + [e]
    ensures Run(rule, es') == Step(Run(rule, es), rule, e)
  {
    assert es'[..|es|] == es;
  }

  lemma {:induction false} OrderlyAppends(rule: Rule, es: seq<Event>, e: Event, es': seq<Event>)
    requires es' == es + [e] && Orderly(rule, es) && Clock(es) <= TimeOf(e) && BelowCap(Run(rule, es))
    ensures Orderly(rule, es')
  {
    assert es'[..|es|] == es;
  }

  // ---------------------------------------------------------------------------------------------
  // Below the cap, by what was observed

  /** Every subject that ever breached. */
  function Subjects(es: seq<Event>): set<Subject> {
    if es == [] then {}
    else
      var e := es[|es| - 1];
      Subjects(es[..|es| - 1]) + if e.Evaluate? then (set s | s in e.ev.breaches) else {}
  }

  predicate ClockRuns(es: seq<Event>) {
    es != [] ==> ClockRuns(es[..|es| - 1]) && Clock(es[..|es| - 1]) <= TimeOf(es[|es| - 1])
  }

  lemma {:induction false} FilesOfSubjects(rule: Rule, es: seq<Event>)
    ensures Run(rule, es).files.Keys <= Subjects(es)
  {
    if es != [] {
      FilesOfSubjects(rule, es[..|es| - 1]);
    }
  }

  lemma {:induction false} Fewer(a: set<nat>, b: set<nat>)
    requires a <= b
    ensures |a| <= |b|
  {
    if a != b {
      Smaller(a, b);
    }
  }

  ghost function StampsAmong(t: Alerts, keys: set<Subject>, status: Status): set<nat> {
    set s, i | s in keys && s in t.files && 0 <= i < |t.files[s].rows| && t.files[s].rows[i].status == status ::
      t.files[s].rows[i].stamp
  }

  /** One open incident a subject: no more stamps than subjects. */
  lemma {:induction false} OneStampEach(t: Alerts, keys: set<Subject>, status: Status)
    requires !status.Resolved? && forall s :: s in t.files ==> OneOpen(t.files[s].rows)
    ensures |StampsAmong(t, keys, status)| <= |keys|
    decreases |keys|
  {
    if keys == {} {
      assert StampsAmong(t, keys, status) == {};
    } else {
      var s :| s in keys;
      var rest := keys - {s};
      OneStampEach(t, rest, status);
      var last := if s in t.files && t.files[s].rows != [] then {t.files[s].rows[|t.files[s].rows| - 1].stamp} else {};
      assert StampsAmong(t, keys, status) <= StampsAmong(t, rest, status) + last;
      Fewer(StampsAmong(t, keys, status), StampsAmong(t, rest, status) + last);
    }
  }

  lemma FewFilesBelowCap(t: Alerts, limit: set<Subject>)
    requires t.files.Keys <= limit && |limit| <= MAX_OPEN_INCIDENTS_PER_RULE
    requires forall s :: s in t.files ==> OneOpen(t.files[s].rows)
    ensures BelowCap(t)
  {
    OneStampEach(t, limit, Pending);
    OneStampEach(t, limit, Firing);
    assert StampsWith(t, Pending) == StampsAmong(t, limit, Pending);
    assert StampsWith(t, Firing) == StampsAmong(t, limit, Firing);
  }

  /** When at most a thousand subjects ever breach and the clock never goes back, no read misses a row. */
  lemma {:induction false} FewSubjectsAreOrderly(rule: Rule, es: seq<Event>)
    requires ClockRuns(es) && |Subjects(es)| <= MAX_OPEN_INCIDENTS_PER_RULE && rule.cooldownMs <= MAX_COOLDOWN_MS
    ensures Orderly(rule, es)
  {
    if es != [] {
      var before := es[..|es| - 1];
      Fewer(Subjects(before), Subjects(es));
      FewSubjectsAreOrderly(rule, before);
      RunKeeps(rule, before);
      FilesOfSubjects(rule, before);
      var t := Run(rule, before);
      forall s | s in t.files ensures OneOpen(t.files[s].rows) {
        assert FileOk(FileOf(t.files, s), s, t.history, rule, Clock(before), t.next);
      }
      FewFilesBelowCap(t, Subjects(before));
    }
  }

  // ---------------------------------------------------------------------------------------------
  // The lifecycle

  /** Below the cap: at most one pending or firing incident per subject. */
  lemma AtMostOneOpen(rule: Rule, es: seq<Event>, s: Subject, i: nat, j: nat)
    requires Orderly(rule, es) && rule.cooldownMs <= MAX_COOLDOWN_MS
    requires RowAt(Run(rule, es), s, i) && RowAt(Run(rule, es), s, j)
    requires Open(Run(rule, es).files[s].rows[i]) && Open(Run(rule, es).files[s].rows[j])
    ensures i == j
  {
    RunKeeps(rule, es);
    assert FileOk(FileOf(Run(rule, es).files, s), s, Run(rule, es).history, rule, Clock(es), Run(rule, es).next);
  }

  /** An incident that fired had breached at every evaluation up to its firing, for at least the pending time. */
  lemma FiresAfterPending(rule: Rule, es: seq<Event>, s: Subject, i: nat)
    requires Orderly(rule, es) && rule.cooldownMs <= MAX_COOLDOWN_MS
    requires RowAt(Run(rule, es), s, i) && !Run(rule, es).files[s].rows[i].status.Pending?
    ensures var r, hist := Run(rule, es).files[s].rows[i], Run(rule, es).history;
            && r.firedIn.Some? && r.born <= r.firedIn.value < |hist|
            && hist[r.born].now == r.since && r.firedAt == Some(hist[r.firedIn.value].now)
            && r.firedAt.value - r.since >= rule.forMs
            && forall k :: r.born <= k <= r.firedIn.value ==> s in hist[k].breaches
  {
    RunKeeps(rule, es);
    assert FileOk(FileOf(Run(rule, es).files, s), s, Run(rule, es).history, rule, Clock(es), Run(rule, es).next);
    assert RowOk(Run(rule, es).files[s].rows[i], s, Run(rule, es).history, rule, Clock(es));
  }

  /** Two notices about one incident are its firing and then its resolution; a resolution always has its firing. */
  lemma AnnouncedOnce(rule: Rule, es: seq<Event>, s: Subject)
    requires Orderly(rule, es) && rule.cooldownMs <= MAX_COOLDOWN_MS && s in Run(rule, es).files
    ensures AtMostOnce(Run(rule, es).files[s].notices) && ResolvedAfterFiring(Run(rule, es).files[s].notices)
  {
    RunKeeps(rule, es);
    assert FileOk(FileOf(Run(rule, es).files, s), s, Run(rule, es).history, rule, Clock(es), Run(rule, es).next);
  }

  /**
   Two firing notices for one subject are at least the cooldown apart, unless ten newer incidents of
   that subject had pushed the earlier one out of the look-back. Retention never causes it.
   */
  lemma CooldownHolds(rule: Rule, es: seq<Event>, s: Subject, i: nat, j: nat)
    requires Orderly(rule, es) && rule.cooldownMs <= MAX_COOLDOWN_MS && s in Run(rule, es).files
    requires i < j < |Run(rule, es).files[s].notices|
    requires Run(rule, es).files[s].notices[i].firing && Run(rule, es).files[s].notices[j].firing
    ensures var notices := Run(rule, es).files[s].notices;
            notices[j].at >= notices[i].at + rule.cooldownMs || Crowded(notices[j], notices[i].stamp)
  {
    RunKeeps(rule, es);
    assert FileOk(FileOf(Run(rule, es).files, s), s, Run(rule, es).history, rule, Clock(es), Run(rule, es).next);
  }

  // ---------------------------------------------------------------------------------------------
  // Exactly when the cap and the look-back matter

  /** With the cap in play: a subject stays with one open incident exactly when a breach finds the one it has. */
  lemma OneOpenKeptIff(t: Alerts, s: Subject, rule: Rule, ev: Evaluation)
    requires OneOpen(FileOf(t.files, s).rows)
    ensures OneOpen(FileAfter(t, s, rule, ev).rows) <==>
            !(s in ev.breaches && OpenRow(t, s).None? && exists r :: r in FileOf(t.files, s).rows && Open(r))
  {
    var rows := FileOf(t.files, s).rows;
    var after := FileAfter(t, s, rule, ev).rows;
    if s in ev.breaches && OpenRow(t, s).None? {
      assert |after| == |rows| + 1 && after[..|rows|] == rows;
      if r :| r in rows && Open(r) {
        var i :| 0 <= i < |rows| && rows[i] == r;
        assert after[i] == rows[i];
      }
    }
  }

  /** A firing incident is announced while an earlier announcement of the subject is inside its cooldown. */
  ghost predicate AnnouncedTooSoon(f: File, k: nat, rule: Rule, ev: Evaluation)
    requires k < |f.rows|
  {
    var log, n := Notified(f, k, rule, ev).notices, |f.notices|;
    |log| == n + 1 && exists i :: 0 <= i < n && log[i].firing && log[n].at < log[i].at + rule.cooldownMs
  }

  /** Some incident outside the look-back was announced inside the cooldown. */
  ghost predicate Unseen(rows: seq<Incident>, rule: Rule, now: nat) {
    exists j :: 0 <= j < |rows| - LOOK_BACK && RecentlyNotified(rows[j], rule, now)
  }

  lemma TooSoonIsUnseen(f: File, k: nat, rule: Rule, ev: Evaluation, next: nat, i: nat)
    requires Increasing(f.rows, next) && NoticesOk(f, rule, ev.now, next) && rule.cooldownMs <= MAX_COOLDOWN_MS
    requires k < |f.rows| && f.rows[k].notifiedAt.None? && !CoolingDown(f.rows, f.rows[k].stamp, rule, ev.now)
    requires i < |f.notices| && f.notices[i].firing && ev.now < f.notices[i].at + rule.cooldownMs
    ensures Unseen(f.rows, rule, ev.now)
  {
    var n := f.notices[i];
    assert Accounted(n, f.rows, ev.now);
    var j :| 0 <= j < |f.rows| && f.rows[j].stamp == n.stamp;
    assert Matches(n, f.rows[j]);
    if j >= |f.rows| - LOOK_BACK {
      LookBackSees(f.rows, k, j, rule, ev.now, next);
    }
  }

  /**
   A due incident is announced inside an earlier announcement's cooldown exactly when the look-back
   shows none and an incident outside it was announced within the cooldown.
   */
  lemma CooldownBrokenIff(f: File, k: nat, rule: Rule, ev: Evaluation, next: nat)
    requires Increasing(f.rows, next) && NoticesOk(f, rule, ev.now, next) && rule.cooldownMs <= MAX_COOLDOWN_MS
    requires k < |f.rows| && f.rows[k].status.Firing? && f.rows[k].notifiedAt.None? && !ev.muted
    ensures Notified(f, k, rule, ev) != f <==> !CoolingDown(f.rows, f.rows[k].stamp, rule, ev.now)
    ensures AnnouncedTooSoon(f, k, rule, ev) <==>
            !CoolingDown(f.rows, f.rows[k].stamp, rule, ev.now) && Unseen(f.rows, rule, ev.now)
  {
    var log, n := Notified(f, k, rule, ev).notices, |f.notices|;
    if !CoolingDown(f.rows, f.rows[k].stamp, rule, ev.now) {
      assert |log| == n + 1 && log[n].at == ev.now && log[..n] == f.notices;
      if i :| 0 <= i < n && log[i].firing && log[n].at < log[i].at + rule.cooldownMs {
        assert log[i] == f.notices[i];
        TooSoonIsUnseen(f, k, rule, ev, next, i);
      }
      if j :| 0 <= j < |f.rows| - LOOK_BACK && RecentlyNotified(f.rows[j], rule, ev.now) {
        assert Recorded(f.rows[j], f.notices);
        var i :| 0 <= i < n && Announces(f.notices[i], f.rows[j]);
        assert log[i] == f.notices[i];
      }
    }
  }

  predicate RecentlyNotified(r: Incident, rule: Rule, now: nat) {
    r.notifiedAt.Some? && now - r.notifiedAt.value < rule.cooldownMs
  }
}
