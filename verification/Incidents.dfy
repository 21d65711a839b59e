/**
 The incident lifecycle of one alert rule. Each subject has a file: its incidents in creation order
 and what was announced about them. Every minute the breaching subjects are applied to the files;
 retention and switching the rule off change them in between.
 */
module Incidents {
  import opened Common

  type Subject = nat

  const MAX_OPEN_INCIDENTS_PER_RULE := 1_000
  const INCIDENT_RETENTION_MS := 2_592_000_000
  const MAX_COOLDOWN_MS := 604_800_000
  const LOOK_BACK := 10

  datatype Status = Pending | Firing | Resolved

  /** `stamp` orders incidents by creation. `born` and `firedIn` number the evaluations that did it. */
  datatype Incident = Incident(
    stamp: nat, status: Status, since: nat, firedAt: Option<nat>, resolvedAt: Option<nat>,
    notifiedAt: Option<nat>, born: nat, firedIn: Option<nat>)

  /** `seen`: the incidents the cooldown look-back read. */
  datatype Notice = Notice(stamp: nat, firing: bool, at: nat, seen: set<nat>)

  datatype File = File(rows: seq<Incident>, notices: seq<Notice>)

  datatype Rule = Rule(forMs: nat, cooldownMs: nat)

  datatype Evaluation = Evaluation(now: nat, muted: bool, breaches: seq<Subject>)

  datatype Alerts = Alerts(files: map<Subject, File>, next: nat, history: seq<Evaluation>)

  // ---------------------------------------------------------------------------------------------
  // One subject

  function Stamps(rows: seq<Incident>): set<nat> {
    set i | 0 <= i < |rows| :: rows[i].stamp
  }

  function Recent(rows: seq<Incident>): seq<Incident> {
    if |rows| <= LOOK_BACK then rows else rows[|rows| - LOOK_BACK..]
  }

  /** The latest firing announcement among these rows, the given incident aside. */
  function Latest(rows: seq<Incident>, except: nat): Option<nat> {
    if rows == [] then None
    else
      var rest, r := Latest(rows[..|rows| - 1], except), rows[|rows| - 1];
      if r.stamp == except || r.notifiedAt.None? then rest
      else if rest.Some? && rest.value > r.notifiedAt.value then rest
      else r.notifiedAt
  }

  predicate CoolingDown(rows: seq<Incident>, except: nat, rule: Rule, now: nat) {
    var last := Latest(Recent(rows), except);
    last.Some? && now - last.value < rule.cooldownMs
  }

  function Notified(f: File, k: nat, rule: Rule, ev: Evaluation): File
    requires k < |f.rows|
  {
    var r := f.rows[k];
    if !r.status.Firing? || r.notifiedAt.Some? || ev.muted || CoolingDown(f.rows, r.stamp, rule, ev.now) then f
    else
      File(f.rows[k := r.(notifiedAt := Some(ev.now))],
           f.notices + [Notice(r.stamp, true, ev.now, Stamps(Recent(f.rows)))])
  }

  function Opened(stamp: nat, n: nat, rule: Rule, ev: Evaluation): Incident {
    if rule.forMs == 0 then Incident(stamp, Firing, ev.now, Some(ev.now), None, None, n, Some(n))
    else Incident(stamp, Pending, ev.now, None, None, None, n, None)
  }

  function Advanced(r: Incident, n: nat, rule: Rule, ev: Evaluation): Incident {
    if r.status.Pending? && ev.now - r.since >= rule.forMs then
      r.(status := Firing, firedAt := Some(ev.now), firedIn := Some(n))
    else r
  }

  function WithRow(f: File, open: Option<nat>, stamp: nat, n: nat, rule: Rule, ev: Evaluation): File
    requires open.Some? ==> open.value < |f.rows|
  {
    if open.None? then f.(rows := f.rows + [Opened(stamp, n, rule, ev)])
    else f.(rows := f.rows[open.value := Advanced(f.rows[open.value], n, rule, ev)])
  }

  /** The subject breaches: `open` is its incident among those read, `n` the number of this evaluation. */
  function Breached(f: File, open: Option<nat>, stamp: nat, n: nat, rule: Rule, ev: Evaluation): File
    requires open.Some? ==> open.value < |f.rows|
  {
    Notified(WithRow(f, open, stamp, n, rule, ev), if open.Some? then open.value else |f.rows|, rule, ev)
  }

  function Without(rows: seq<Incident>, k: nat): seq<Incident>
    requires k < |rows|
  {
    rows[..k] + rows[k + 1..]
  }

  /** The subject no longer breaches. */
  function Cleared(f: File, k: nat, ev: Evaluation): File
    requires k < |f.rows|
  {
    var r := f.rows[k];
    if r.status.Pending? then f.(rows := Without(f.rows, k))
    else
      File(f.rows[k := r.(status := Resolved, resolvedAt := Some(ev.now))],
           if r.notifiedAt.Some? && !ev.muted then f.notices + [Notice(r.stamp, false, ev.now, {})] else f.notices)
  }

  /** The rule is switched off: closed without a word. */
  function Disabled(f: File, k: nat, now: nat): File
    requires k < |f.rows|
  {
    var r := f.rows[k];
    if r.status.Pending? then f.(rows := Without(f.rows, k))
    else f.(rows := f.rows[k := r.(status := Resolved, resolvedAt := Some(now))])
  }

  predicate Expired(r: Incident, now: nat) {
    r.status.Resolved? && r.resolvedAt.Some? && r.resolvedAt.value + INCIDENT_RETENTION_MS < now
  }

  /** Retention drops those expired rows that are in its batch. */
  function Swept(rows: seq<Incident>, batch: set<nat>, now: nat): seq<Incident> {
    if rows == [] then []
    else
      var rest, r := Swept(rows[..|rows| - 1], batch, now), rows[|rows| - 1];
      if Expired(r, now) && r.stamp in batch then rest else rest + [r]
  }

  // ---------------------------------------------------------------------------------------------
  // What holds of a file

  predicate Open(r: Incident) {
    !r.status.Resolved?
  }

  ghost predicate BreachedThroughout(hist: seq<Evaluation>, s: Subject, first: nat, last: nat) {
    first <= last < |hist| && forall k :: first <= k <= last ==> s in hist[k].breaches
  }

  ghost predicate RowOk(r: Incident, s: Subject, hist: seq<Evaluation>, rule: Rule, clock: nat) {
    && r.born < |hist| && hist[r.born].now == r.since
    && (r.status.Pending? <==> r.firedIn.None?)
    && (r.firedIn.Some? ==>
          && BreachedThroughout(hist, s, r.born, r.firedIn.value)
          && r.firedAt == Some(hist[r.firedIn.value].now) && r.firedAt.value - r.since >= rule.forMs)
    && (Open(r) ==> BreachedThroughout(hist, s, r.born, |hist| - 1) && r.resolvedAt.None?)
    && (r.notifiedAt.Some? ==> !r.status.Pending? && r.notifiedAt.value <= clock)
    && (!Open(r) ==> r.resolvedAt.Some? && r.resolvedAt.value <= clock)
    && (!Open(r) && r.notifiedAt.Some? ==> r.notifiedAt.value <= r.resolvedAt.value)
  }

  ghost predicate Increasing(rows: seq<Incident>, next: nat) {
    && (forall i, j :: 0 <= i < j < |rows| ==> rows[i].stamp < rows[j].stamp)
    && (forall i :: 0 <= i < |rows| ==> rows[i].stamp < next)
  }

  /** At most the newest incident is open. */
  ghost predicate OneOpen(rows: seq<Incident>) {
    forall i :: 0 <= i < |rows| - 1 ==> !Open(rows[i])
  }

  ghost predicate RowsOk(rows: seq<Incident>, s: Subject, hist: seq<Evaluation>, rule: Rule, clock: nat) {
    forall i :: 0 <= i < |rows| ==> RowOk(rows[i], s, hist, rule, clock)
  }

  /** The read that feeds the evaluation finds the subject's open incident, if it has one. */
  ghost predicate FindsOpen(rows: seq<Incident>, open: Option<nat>) {
    if open.Some? then open.value == |rows| - 1 && |rows| > 0 && Open(rows[open.value])
    else forall i :: 0 <= i < |rows| ==> !Open(rows[i])
  }

  // ---------------------------------------------------------------------------------------------
  // Announcements of a file

  /** The earlier incident was pushed out of the look-back by ten newer ones. */
  ghost predicate Crowded(n: Notice, earlier: nat) {
    |n.seen| == LOOK_BACK && forall k :: k in n.seen ==> k > earlier
  }

  ghost predicate SpacedOut(notices: seq<Notice>, rule: Rule) {
    forall i, j :: 0 <= i < j < |notices| && notices[i].firing && notices[j].firing ==>
      notices[j].at >= notices[i].at + rule.cooldownMs || Crowded(notices[j], notices[i].stamp)
  }

  ghost predicate AtMostOnce(notices: seq<Notice>) {
    forall i, j :: 0 <= i < j < |notices| && notices[i].stamp == notices[j].stamp ==>
      notices[i].firing && !notices[j].firing
  }

  ghost predicate ResolvedAfterFiring(notices: seq<Notice>) {
    forall i :: 0 <= i < |notices| && !notices[i].firing ==>
      exists j :: 0 <= j < i && notices[j].firing && notices[j].stamp == notices[i].stamp
  }

  /** A notice and the row it was about, as long as that row exists. */
  ghost predicate Matches(n: Notice, r: Incident) {
    n.stamp == r.stamp ==>
      if n.firing then r.notifiedAt == Some(n.at) else r.status.Resolved? && r.resolvedAt == Some(n.at)
  }

  /** A row that is gone took its notice more than the retention ago. */
  ghost predicate Accounted(n: Notice, rows: seq<Incident>, clock: nat) {
    || (exists i :: 0 <= i < |rows| && rows[i].stamp == n.stamp)
    || n.at + INCIDENT_RETENTION_MS < clock
  }

  /** The notice announced this firing. */
  predicate Announces(n: Notice, r: Incident) {
    n.firing && n.stamp == r.stamp && r.notifiedAt == Some(n.at)
  }

  ghost predicate Recorded(r: Incident, notices: seq<Notice>) {
    r.notifiedAt.Some? ==> exists i :: 0 <= i < |notices| && Announces(notices[i], r)
  }

  ghost predicate LogOk(notices: seq<Notice>, rule: Rule, clock: nat, next: nat) {
    && AtMostOnce(notices) && ResolvedAfterFiring(notices) && SpacedOut(notices, rule)
    && (forall i :: 0 <= i < |notices| ==> notices[i].stamp < next && notices[i].at <= clock)
  }

  ghost predicate Tied(rows: seq<Incident>, notices: seq<Notice>, clock: nat) {
    && (forall i :: 0 <= i < |notices| ==> Accounted(notices[i], rows, clock))
    && (forall i, j :: 0 <= i < |notices| && 0 <= j < |rows| ==> Matches(notices[i], rows[j]))
    && (forall j :: 0 <= j < |rows| ==> Recorded(rows[j], notices))
  }

  ghost predicate NoticesOk(f: File, rule: Rule, clock: nat, next: nat) {
    LogOk(f.notices, rule, clock, next) && Tied(f.rows, f.notices, clock)
  }

  ghost predicate FileOk(f: File, s: Subject, hist: seq<Evaluation>, rule: Rule, clock: nat, next: nat) {
    && Increasing(f.rows, next) && OneOpen(f.rows) && RowsOk(f.rows, s, hist, rule, clock)
    && NoticesOk(f, rule, clock, next)
  }

  // ---------------------------------------------------------------------------------------------
  // Rows

  lemma RowExtends(r: Incident, s: Subject, hist: seq<Evaluation>, ev: Evaluation, rule: Rule, clock: nat)
    requires RowOk(r, s, hist, rule, clock) && clock <= ev.now && (Open(r) ==> s in ev.breaches)
    ensures RowOk(r, s, hist + [ev], rule, ev.now)
  {
    if r.firedIn.Some? {
      assert BreachedThroughout(hist + [ev], s, r.born, r.firedIn.value);
    }
    if Open(r) {
      assert BreachedThroughout(hist + [ev], s, r.born, |hist|);
    }
  }

  lemma OpenedOk(stamp: nat, s: Subject, hist: seq<Evaluation>, ev: Evaluation, rule: Rule)
    requires s in ev.breaches
    ensures RowOk(Opened(stamp, |hist|, rule, ev), s, hist + [ev], rule, ev.now)
  {
    assert BreachedThroughout(hist + [ev], s, |hist|, |hist|);
  }

  lemma AdvancedOk(r: Incident, s: Subject, hist: seq<Evaluation>, ev: Evaluation, rule: Rule, clock: nat)
    requires RowOk(r, s, hist, rule, clock) && clock <= ev.now && s in ev.breaches
    ensures RowOk(Advanced(r, |hist|, rule, ev), s, hist + [ev], rule, ev.now)
  {
    RowExtends(r, s, hist, ev, rule, clock);
  }

  lemma RowsExtend(rows: seq<Incident>, s: Subject, hist: seq<Evaluation>, ev: Evaluation, rule: Rule, clock: nat)
    requires RowsOk(rows, s, hist, rule, clock) && clock <= ev.now
    requires forall i :: 0 <= i < |rows| && Open(rows[i]) ==> s in ev.breaches
    ensures RowsOk(rows, s, hist + [ev], rule, ev.now)
  {
    forall i | 0 <= i < |rows| ensures RowOk(rows[i], s, hist + [ev], rule, ev.now) {
      RowExtends(rows[i], s, hist, ev, rule, clock);
    }
  }

  /** Time passing, or a larger stamp, breaks nothing. */
  lemma NoticesLater(f: File, rule: Rule, clock: nat, clock': nat, next: nat, next': nat)
    requires NoticesOk(f, rule, clock, next) && clock <= clock' && next <= next'
    ensures NoticesOk(f, rule, clock', next')
  {
    forall i | 0 <= i < |f.notices| ensures Accounted(f.notices[i], f.rows, clock') {
      assert Accounted(f.notices[i], f.rows, clock);
    }
  }

  /** The same announcements over rows with the same stamps, marks and resolutions. */
  ghost predicate SameMarks(rows: seq<Incident>, rows': seq<Incident>) {
    && |rows| == |rows'|
    && forall i :: 0 <= i < |rows| ==>
         && rows[i].stamp == rows'[i].stamp && rows[i].notifiedAt == rows'[i].notifiedAt
         && (rows[i].status.Resolved? ==> rows'[i].status.Resolved? && rows'[i].resolvedAt == rows[i].resolvedAt)
  }

  lemma NoticesCarryOver(f: File, rows: seq<Incident>, rule: Rule, clock: nat, next: nat)
    requires NoticesOk(f, rule, clock, next) && SameMarks(f.rows, rows)
    ensures NoticesOk(f.(rows := rows), rule, clock, next)
  {
    forall i | 0 <= i < |f.notices| ensures Accounted(f.notices[i], rows, clock) {
      assert Accounted(f.notices[i], f.rows, clock);
    }
    forall i, j | 0 <= i < |f.notices| && 0 <= j < |rows| ensures Matches(f.notices[i], rows[j]) {
      assert Matches(f.notices[i], f.rows[j]);
    }
    forall j | 0 <= j < |rows| ensures Recorded(rows[j], f.notices) {
      assert Recorded(f.rows[j], f.notices);
    }
  }

  lemma NoticesWithNewRow(f: File, r: Incident, rule: Rule, clock: nat, next: nat, next': nat)
    requires NoticesOk(f, rule, clock, next) && next <= r.stamp < next' && r.notifiedAt.None?
    ensures NoticesOk(f.(rows := f.rows + [r]), rule, clock, next')
  {
    var rows := f.rows + [r];
    forall i | 0 <= i < |f.notices| ensures Accounted(f.notices[i], rows, clock) {
      assert Accounted(f.notices[i], f.rows, clock);
      if i' :| 0 <= i' < |f.rows| && f.rows[i'].stamp == f.notices[i].stamp {
        assert rows[i'].stamp == f.notices[i].stamp;
      }
    }
    forall i, j | 0 <= i < |f.notices| && 0 <= j < |rows| ensures Matches(f.notices[i], rows[j]) {
      if j < |f.rows| {
        assert Matches(f.notices[i], f.rows[j]);
      }
    }
    forall j | 0 <= j < |rows| ensures Recorded(rows[j], f.notices) {
      if j < |f.rows| {
        assert Recorded(f.rows[j], f.notices);
      }
    }
  }

  lemma WithRowOk(f: File, s: Subject, open: Option<nat>, stamp: nat, hist: seq<Evaluation>, rule: Rule, ev: Evaluation,
                  clock: nat, next: nat, next': nat)
    requires FileOk(f, s, hist, rule, clock, next) && FindsOpen(f.rows, open)
    requires s in ev.breaches && clock <= ev.now && next <= stamp < next'
    ensures FileOk(WithRow(f, open, stamp, |hist|, rule, ev), s, hist + [ev], rule, ev.now, next')
  {
    RowsExtend(f.rows, s, hist, ev, rule, clock);
    NoticesLater(f, rule, clock, ev.now, next, next');
    if open.None? {
      OpenedOk(stamp, s, hist, ev, rule);
      NoticesLater(f, rule, clock, ev.now, next, next);
      NoticesWithNewRow(f, Opened(stamp, |hist|, rule, ev), rule, ev.now, next, next');
    } else {
      AdvancedOk(f.rows[open.value], s, hist, ev, rule, clock);
      NoticesCarryOver(f, f.rows[open.value := Advanced(f.rows[open.value], |hist|, rule, ev)], rule, ev.now, next');
    }
  }

  // ---------------------------------------------------------------------------------------------
  // The cooldown

  lemma {:induction false} LatestBounds(rows: seq<Incident>, except: nat, i: nat)
    requires i < |rows| && rows[i].stamp != except && rows[i].notifiedAt.Some?
    ensures Latest(rows, except).Some? && Latest(rows, except).value >= rows[i].notifiedAt.value
  {
    if i < |rows| - 1 {
      LatestBounds(rows[..|rows| - 1], except, i);
    }
  }

  /** The latest announcement is one of the announcements. */
  lemma {:induction false} LatestIsOne(rows: seq<Incident>, except: nat)
    requires Latest(rows, except).Some?
    ensures exists i :: 0 <= i < |rows| && rows[i].stamp != except && rows[i].notifiedAt == Latest(rows, except)
  {
    var n := |rows| - 1;
    if rows[n].stamp == except || rows[n].notifiedAt.None? || Latest(rows, except) != rows[n].notifiedAt {
      LatestIsOne(rows[..n], except);
      var i :| 0 <= i < n && rows[..n][i].stamp != except && rows[..n][i].notifiedAt == Latest(rows[..n], except);
      assert rows[i].stamp != except && rows[i].notifiedAt == Latest(rows, except);
    } else {
      assert rows[n].stamp != except && rows[n].notifiedAt == Latest(rows, except);
    }
  }

  lemma {:induction false} DistinctStamps(rows: seq<Incident>)
    requires forall i, j :: 0 <= i < j < |rows| ==> rows[i].stamp < rows[j].stamp
    ensures |Stamps(rows)| == |rows|
  {
    if rows != [] {
      var n := |rows| - 1;
      DistinctStamps(rows[..n]);
      assert Stamps(rows) == Stamps(rows[..n]) + {rows[n].stamp};
      assert rows[n].stamp !in Stamps(rows[..n]);
    }
  }

  lemma OutsideIsCrowded(rows: seq<Incident>, i: nat, next: nat)
    requires Increasing(rows, next) && i < |rows| - LOOK_BACK
    ensures |Stamps(Recent(rows))| == LOOK_BACK && forall k :: k in Stamps(Recent(rows)) ==> k > rows[i].stamp
  {
    DistinctStamps(Recent(rows));
  }

  /** An announcement the look-back still sees is at least the cooldown ago when nothing cools down. */
  lemma LookBackSees(rows: seq<Incident>, k: nat, j: nat, rule: Rule, now: nat, next: nat)
    requires Increasing(rows, next) && k < |rows| && rows[k].notifiedAt.None?
    requires j < |rows| && j >= |rows| - LOOK_BACK && rows[j].notifiedAt.Some?
    requires !CoolingDown(rows, rows[k].stamp, rule, now)
    ensures now >= rows[j].notifiedAt.value + rule.cooldownMs
  {
    var recent := Recent(rows);
    var j' := j - (|rows| - |recent|);
    assert recent[j'] == rows[j];
    LatestBounds(recent, rows[k].stamp, j');
  }

  /** An announcement that is not cooling down keeps its distance from every earlier one it can see. */
  lemma NewNoticeIsSpaced(f: File, k: nat, rule: Rule, ev: Evaluation, next: nat, i: nat)
    requires Increasing(f.rows, next) && NoticesOk(f, rule, ev.now, next) && rule.cooldownMs <= MAX_COOLDOWN_MS
    requires k < |f.rows| && f.rows[k].notifiedAt.None? && !CoolingDown(f.rows, f.rows[k].stamp, rule, ev.now)
    requires i < |f.notices| && f.notices[i].firing
    ensures ev.now >= f.notices[i].at + rule.cooldownMs
            || Crowded(Notice(f.rows[k].stamp, true, ev.now, Stamps(Recent(f.rows))), f.notices[i].stamp)
  {
    var rows, n := f.rows, f.notices[i];
    assert Accounted(n, rows, ev.now);
    if j :| 0 <= j < |rows| && rows[j].stamp == n.stamp {
      assert Matches(n, rows[j]);
      if j < |rows| - LOOK_BACK {
        OutsideIsCrowded(rows, j, next);
      } else {
        LookBackSees(rows, k, j, rule, ev.now, next);
      }
    }
  }

  lemma LogAppends(notices: seq<Notice>, n: Notice, rule: Rule, clock: nat, next: nat)
    requires LogOk(notices, rule, clock, next) && n.stamp < next && n.at <= clock
    requires forall i :: 0 <= i < |notices| && notices[i].stamp == n.stamp ==> notices[i].firing && !n.firing
    requires !n.firing ==> exists i :: 0 <= i < |notices| && notices[i].firing && notices[i].stamp == n.stamp
    requires n.firing ==> forall i :: 0 <= i < |notices| && notices[i].firing ==>
                            n.at >= notices[i].at + rule.cooldownMs || Crowded(n, notices[i].stamp)
    ensures LogOk(notices + [n], rule, clock, next)
  {
    var log := notices + [n];
    forall i | 0 <= i < |log| && !log[i].firing
      ensures exists j :: 0 <= j < i && log[j].firing && log[j].stamp == log[i].stamp
    {
      var j :| 0 <= j < |notices| && j < i && notices[j].firing && notices[j].stamp == log[i].stamp;
      assert log[j] == notices[j];
    }
  }

  lemma TieAppends(rows: seq<Incident>, k: nat, r: Incident, notices: seq<Notice>, n: Notice, clock: nat)
    requires Tied(rows, notices, clock) && k < |rows| && r.stamp == rows[k].stamp == n.stamp
    requires forall j :: 0 <= j < |rows| && j != k ==> rows[j].stamp != n.stamp
    requires Matches(n, r) && (forall i :: 0 <= i < |notices| ==> Matches(notices[i], r))
    requires Recorded(r, notices + [n])
    ensures Tied(rows[k := r], notices + [n], clock)
  {
    var rows', log := rows[k := r], notices + [n];
    forall i | 0 <= i < |log| ensures Accounted(log[i], rows', clock) {
      if i < |notices| {
        assert Accounted(notices[i], rows, clock);
        if j :| 0 <= j < |rows| && rows[j].stamp == notices[i].stamp {
          assert rows'[j].stamp == log[i].stamp;
        }
      } else {
        assert rows'[k].stamp == n.stamp;
      }
    }
    forall j | 0 <= j < |rows'| ensures Recorded(rows'[j], log) {
      if j != k && rows[j].notifiedAt.Some? {
        assert Recorded(rows[j], notices);
        var i :| 0 <= i < |notices| && Announces(notices[i], rows[j]);
        assert log[i] == notices[i];
      }
    }
  }

  lemma NotifiedNotices(f: File, k: nat, rule: Rule, ev: Evaluation, next: nat)
    requires Increasing(f.rows, next) && NoticesOk(f, rule, ev.now, next) && rule.cooldownMs <= MAX_COOLDOWN_MS
    requires k < |f.rows| && f.rows[k].status.Firing? && f.rows[k].notifiedAt.None?
    requires !CoolingDown(f.rows, f.rows[k].stamp, rule, ev.now) && !ev.muted
    ensures NoticesOk(Notified(f, k, rule, ev), rule, ev.now, next)
  {
    var r := f.rows[k].(notifiedAt := Some(ev.now));
    var n := Notice(r.stamp, true, ev.now, Stamps(Recent(f.rows)));
    forall i | 0 <= i < |f.notices|
      ensures f.notices[i].stamp != n.stamp && Matches(f.notices[i], r)
      ensures f.notices[i].firing ==> n.at >= f.notices[i].at + rule.cooldownMs || Crowded(n, f.notices[i].stamp)
    {
      assert Matches(f.notices[i], f.rows[k]);
      if f.notices[i].firing {
        NewNoticeIsSpaced(f, k, rule, ev, next, i);
      }
    }
    LogAppends(f.notices, n, rule, ev.now, next);
    assert (f.notices + [n])[|f.notices|] == n;
    TieAppends(f.rows, k, r, f.notices, n, ev.now);
  }

  lemma NotifiedOk(f: File, k: nat, s: Subject, hist: seq<Evaluation>, rule: Rule, ev: Evaluation, next: nat)
    requires FileOk(f, s, hist, rule, ev.now, next) && k < |f.rows| && rule.cooldownMs <= MAX_COOLDOWN_MS
    ensures FileOk(Notified(f, k, rule, ev), s, hist, rule, ev.now, next)
  {
    var r := f.rows[k];
    if r.status.Firing? && r.notifiedAt.None? && !ev.muted && !CoolingDown(f.rows, r.stamp, rule, ev.now) {
      NotifiedNotices(f, k, rule, ev, next);
      assert RowOk(f.rows[k].(notifiedAt := Some(ev.now)), s, hist, rule, ev.now);
    }
  }

  lemma BreachedOk(f: File, s: Subject, open: Option<nat>, stamp: nat, hist: seq<Evaluation>, rule: Rule,
                   ev: Evaluation, clock: nat, next: nat, next': nat)
    requires FileOk(f, s, hist, rule, clock, next) && FindsOpen(f.rows, open)
    requires s in ev.breaches && clock <= ev.now && next <= stamp < next' && rule.cooldownMs <= MAX_COOLDOWN_MS
    ensures FileOk(Breached(f, open, stamp, |hist|, rule, ev), s, hist + [ev], rule, ev.now, next')
  {
    WithRowOk(f, s, open, stamp, hist, rule, ev, clock, next, next');
    var k := if open.Some? then open.value else |f.rows|;
    NotifiedOk(WithRow(f, open, stamp, |hist|, rule, ev), k, s, hist + [ev], rule, ev, next');
  }

  // ---------------------------------------------------------------------------------------------
  // Clearing, switching off, retention

  /** A pending incident was never announced, so dropping it leaves no notice behind. */
  lemma NoticesWithoutLast(f: File, rule: Rule, clock: nat, next: nat)
    requires NoticesOk(f, rule, clock, next) && f.rows != []
    requires f.rows[|f.rows| - 1].notifiedAt.None? && Open(f.rows[|f.rows| - 1])
    ensures NoticesOk(f.(rows := f.rows[..|f.rows| - 1]), rule, clock, next)
  {
    var k := |f.rows| - 1;
    var rows := f.rows[..k];
    forall i | 0 <= i < |f.notices| ensures Accounted(f.notices[i], rows, clock) {
      assert Accounted(f.notices[i], f.rows, clock);
      assert Matches(f.notices[i], f.rows[k]);
      if j :| 0 <= j < |f.rows| && f.rows[j].stamp == f.notices[i].stamp {
        assert rows[j].stamp == f.notices[i].stamp;
      }
    }
    forall i, j | 0 <= i < |f.notices| && 0 <= j < |rows| ensures Matches(f.notices[i], rows[j]) {
      assert Matches(f.notices[i], f.rows[j]);
    }
    forall j | 0 <= j < |rows| ensures Recorded(rows[j], f.notices) {
      assert Recorded(f.rows[j], f.notices);
    }
  }

  lemma ResolvedNotices(f: File, k: nat, ev: Evaluation, rule: Rule, next: nat)
    requires NoticesOk(f, rule, ev.now, next) && k < |f.rows| && Increasing(f.rows, next)
    requires f.rows[k].status.Firing? && f.rows[k].notifiedAt.Some? && !ev.muted
    ensures NoticesOk(Cleared(f, k, ev), rule, ev.now, next)
  {
    var r := f.rows[k].(status := Resolved, resolvedAt := Some(ev.now));
    var n := Notice(r.stamp, false, ev.now, {});
    forall i | 0 <= i < |f.notices|
      ensures Matches(f.notices[i], r) && (f.notices[i].stamp == n.stamp ==> f.notices[i].firing)
    {
      assert Matches(f.notices[i], f.rows[k]);
    }
    assert Recorded(f.rows[k], f.notices);
    LogAppends(f.notices, n, rule, ev.now, next);
    var i :| 0 <= i < |f.notices| && Announces(f.notices[i], f.rows[k]);
    assert (f.notices + [n])[i] == f.notices[i];
    TieAppends(f.rows, k, r, f.notices, n, ev.now);
  }

  lemma ResolvedRow(r: Incident, s: Subject, hist: seq<Evaluation>, rule: Rule, clock: nat, now: nat,
                    hist': seq<Evaluation>)
    requires RowOk(r, s, hist, rule, clock) && r.status.Firing? && clock <= now && hist <= hist'
    ensures RowOk(r.(status := Resolved, resolvedAt := Some(now)), s, hist', rule, now)
  {
    assert BreachedThroughout(hist', s, r.born, r.firedIn.value);
  }

  lemma ClosedRowLater(r: Incident, s: Subject, hist: seq<Evaluation>, rule: Rule, clock: nat, now: nat,
                       hist': seq<Evaluation>)
    requires RowOk(r, s, hist, rule, clock) && !Open(r) && clock <= now && hist <= hist'
    ensures RowOk(r, s, hist', rule, now)
  {
    assert BreachedThroughout(hist', s, r.born, r.firedIn.value);
  }

  /** The open incident of a file is closed, and the rest of the file stays as it was. */
  lemma ClosedRows(f: File, k: nat, s: Subject, hist: seq<Evaluation>, rule: Rule, clock: nat, next: nat, now: nat,
                   hist': seq<Evaluation>)
    requires FileOk(f, s, hist, rule, clock, next) && FindsOpen(f.rows, Some(k)) && clock <= now && hist <= hist'
    ensures var rows := Disabled(f, k, now).rows;
            Increasing(rows, next) && OneOpen(rows) && RowsOk(rows, s, hist', rule, now)
  {
    var rows := Disabled(f, k, now).rows;
    forall i | 0 <= i < |rows| ensures RowOk(rows[i], s, hist', rule, now) {
      if i < k {
        ClosedRowLater(f.rows[i], s, hist, rule, clock, now, hist');
      } else {
        ResolvedRow(f.rows[k], s, hist, rule, clock, now, hist');
      }
    }
  }

  lemma DisabledOk(f: File, k: nat, s: Subject, hist: seq<Evaluation>, rule: Rule, clock: nat, next: nat, now: nat)
    requires FileOk(f, s, hist, rule, clock, next) && FindsOpen(f.rows, Some(k)) && clock <= now
    ensures FileOk(Disabled(f, k, now), s, hist, rule, now, next)
  {
    ClosedRows(f, k, s, hist, rule, clock, next, now, hist);
    NoticesLater(f, rule, clock, now, next, next);
    if f.rows[k].status.Pending? {
      assert Without(f.rows, k) == f.rows[..k];
      NoticesWithoutLast(f, rule, now, next);
    } else {
      NoticesCarryOver(f, Disabled(f, k, now).rows, rule, now, next);
    }
  }

  lemma ClearedOk(f: File, k: nat, s: Subject, hist: seq<Evaluation>, rule: Rule, clock: nat, next: nat, ev: Evaluation)
    requires FileOk(f, s, hist, rule, clock, next) && FindsOpen(f.rows, Some(k)) && clock <= ev.now
    ensures FileOk(Cleared(f, k, ev), s, hist + [ev], rule, ev.now, next)
  {
    ClosedRows(f, k, s, hist, rule, clock, next, ev.now, hist + [ev]);
    DisabledOk(f, k, s, hist, rule, clock, next, ev.now);
    if f.rows[k].status.Firing? && f.rows[k].notifiedAt.Some? && !ev.muted {
      NoticesLater(f, rule, clock, ev.now, next, next);
      ResolvedNotices(f, k, ev, rule, next);
    }
  }

  lemma {:induction false} SweptRows(rows: seq<Incident>, batch: set<nat>, now: nat, next: nat)
    requires Increasing(rows, next)
    ensures Increasing(Swept(rows, batch, now), next)
    ensures forall r :: r in Swept(rows, batch, now) <==> r in rows && !(Expired(r, now) && r.stamp in batch)
  {
    if rows != [] {
      var n := |rows| - 1;
      SweptRows(rows[..n], batch, now, next);
      assert rows == rows[..n] + [rows[n]];
      var rest := Swept(rows[..n], batch, now);
      forall i | 0 <= i < |rest| ensures rest[i].stamp < rows[n].stamp {
        assert rest[i] in rest;
      }
    }
  }

  lemma SweptOneOpen(rows: seq<Incident>, batch: set<nat>, now: nat, next: nat)
    requires Increasing(rows, next) && OneOpen(rows)
    ensures OneOpen(Swept(rows, batch, now))
  {
    if rows != [] {
      var n := |rows| - 1;
      SweptRows(rows[..n], batch, now, next);
      var rest := Swept(rows[..n], batch, now);
      forall i | 0 <= i < |rest| ensures !Open(rest[i]) {
        assert rest[i] in rest;
      }
    }
  }

  lemma SweptNotices(f: File, s: Subject, batch: set<nat>, now: nat, hist: seq<Evaluation>, rule: Rule, next: nat)
    requires FileOk(f, s, hist, rule, now, next)
    ensures NoticesOk(f.(rows := Swept(f.rows, batch, now)), rule, now, next)
  {
    var rows := Swept(f.rows, batch, now);
    SweptRows(f.rows, batch, now, next);
    forall i | 0 <= i < |f.notices| ensures Accounted(f.notices[i], rows, now) {
      assert Accounted(f.notices[i], f.rows, now);
      if j :| 0 <= j < |f.rows| && f.rows[j].stamp == f.notices[i].stamp {
        var r := f.rows[j];
        if r in rows {
          var j' :| 0 <= j' < |rows| && rows[j'] == r;
          assert rows[j'].stamp == f.notices[i].stamp;
        } else {
          assert Matches(f.notices[i], r);
        }
      }
    }
    forall i, j | 0 <= i < |f.notices| && 0 <= j < |rows| ensures Matches(f.notices[i], rows[j]) {
      assert rows[j] in f.rows;
      var j' :| 0 <= j' < |f.rows| && f.rows[j'] == rows[j];
      assert Matches(f.notices[i], f.rows[j']);
    }
    forall j | 0 <= j < |rows| ensures Recorded(rows[j], f.notices) {
      assert rows[j] in f.rows;
      var j' :| 0 <= j' < |f.rows| && f.rows[j'] == rows[j];
      assert Recorded(f.rows[j'], f.notices);
    }
  }

  lemma SweptOk(f: File, s: Subject, batch: set<nat>, clock: nat, now: nat, hist: seq<Evaluation>, rule: Rule,
                next: nat)
    requires FileOk(f, s, hist, rule, clock, next) && clock <= now
    ensures FileOk(f.(rows := Swept(f.rows, batch, now)), s, hist, rule, now, next)
  {
    var rows := Swept(f.rows, batch, now);
    NoticesLater(f, rule, clock, now, next, next);
    SweptRows(f.rows, batch, now, next);
    SweptOneOpen(f.rows, batch, now, next);
    SweptNotices(f, s, batch, now, hist, rule, next);
    forall i | 0 <= i < |rows| ensures RowOk(rows[i], s, hist, rule, now) {
      assert rows[i] in f.rows;
    }
  }

  /** A subject without an open incident that does not breach. */
  lemma IdleOk(f: File, s: Subject, hist: seq<Evaluation>, rule: Rule, clock: nat, next: nat, ev: Evaluation,
               next': nat)
    requires FileOk(f, s, hist, rule, clock, next) && FindsOpen(f.rows, None) && clock <= ev.now && next <= next'
    ensures FileOk(f, s, hist + [ev], rule, ev.now, next')
  {
    RowsExtend(f.rows, s, hist, ev, rule, clock);
    NoticesLater(f, rule, clock, ev.now, next, next');
  }

  lemma FileLater(f: File, s: Subject, hist: seq<Evaluation>, rule: Rule, clock: nat, now: nat, next: nat, next': nat)
    requires FileOk(f, s, hist, rule, clock, next) && clock <= now && next <= next'
    ensures FileOk(f, s, hist, rule, now, next')
  {
    NoticesLater(f, rule, clock, now, next, next');
  }
}
