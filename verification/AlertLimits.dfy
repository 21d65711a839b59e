/**
 Two runs that show why the bounds of `AlertRuns` are needed: more open incidents than an
 evaluation reads, and a subject that flaps more often than the cooldown looks back.
 */
module AlertLimits {
  import opened Common
  import opened Incidents
  import opened AlertRuns

  // ---------------------------------------------------------------------------------------------
  // One subject too many

  const SLOW := Rule(300_000, 0)

  function Everyone(n: nat): (all: seq<Subject>)
    ensures |all| == n && forall i :: 0 <= i < n ==> all[i] == i
  {
    if n == 0 then [] else Everyone(n - 1) + [n - 1]
  }

  function Below(n: nat): (s: set<nat>)
    ensures |s| == n && forall x: nat :: x in s <==> x < n
  {
    if n == 0 then {} else Below(n - 1) + {n - 1}
  }

  function CrowdBreach(n: nat, now: nat): Evaluation {
    Evaluation(now, false, Everyone(n))
  }

  ghost function FirstMinute(n: nat): Alerts {
    Evaluated(Alerts(map[], 0, []), SLOW, CrowdBreach(n, 0))
  }

  lemma FirstMinuteFiles(n: nat, s: Subject)
    requires s < n
    ensures s in FirstMinute(n).files && FirstMinute(n).files[s] == File([Opened(s, 0, SLOW, CrowdBreach(n, 0))], [])
  {
    assert Everyone(n)[s] == s;
    var i := IndexOf(Everyone(n), s);
    assert Everyone(n)[i] == i;
  }

  lemma EachIsPending(n: nat, x: nat)
    requires x < n
    ensures x in StampsWith(FirstMinute(n), Pending)
  {
    FirstMinuteFiles(n, x);
    assert FirstMinute(n).files[x].rows[0].stamp == x;
  }

  lemma OneRowUnread(t: Alerts, s: Subject, r: Incident, older: set<nat>)
    requires FileOf(t.files, s).rows == [r] && |older| >= MAX_OPEN_INCIDENTS_PER_RULE
    requires (set x | x in StampsWith(t, r.status) && x < r.stamp) == older
    ensures OpenRow(t, s).None?
  {
    assert !IsRead(t, r);
  }

  lemma LastIsUnread(n: nat)
    requires n > MAX_OPEN_INCIDENTS_PER_RULE
    ensures OpenRow(FirstMinute(n), n - 1).None?
  {
    forall x: nat | x < n - 1 ensures x in StampsWith(FirstMinute(n), Pending) {
      EachIsPending(n, x);
    }
    FirstMinuteFiles(n, n - 1);
    OneRowUnread(FirstMinute(n), n - 1, Opened(n - 1, 0, SLOW, CrowdBreach(n, 0)), Below(n - 1));
  }

  /** With more than a thousand subjects breaching, the next evaluation opens a second incident for the newest. */
  lemma OverTheCap(n: nat)
    requires n > MAX_OPEN_INCIDENTS_PER_RULE
    ensures var t := Run(SLOW, [Evaluate(CrowdBreach(n, 0)), Evaluate(CrowdBreach(n, 60_000))]);
            && n - 1 in t.files && |t.files[n - 1].rows| == 2
            && Open(t.files[n - 1].rows[0]) && Open(t.files[n - 1].rows[1])
  {
    var first, second := Evaluate(CrowdBreach(n, 0)), Evaluate(CrowdBreach(n, 60_000));
    RunAppends(SLOW, [], first, [first]);
    RunAppends(SLOW, [first], second, [first, second]);
    FirstMinuteFiles(n, n - 1);
    LastIsUnread(n);
    assert Everyone(n)[n - 1] == n - 1;
  }

  // ---------------------------------------------------------------------------------------------
  // A subject that flaps

  const MINUTE := 60_000
  const HOURLY := Rule(0, 3_600_000)

  function On(k: nat): Evaluation {
    Evaluation(k * 120_000, false, [0])
  }

  function Off(k: nat): Evaluation {
    Evaluation(k * 120_000 + MINUTE, false, [])
  }

  function Flaps(k: nat): seq<Event> {
    if k == 0 then [] else Flaps(k - 1) + [Evaluate(On(k - 1))] + [Evaluate(Off(k - 1))]
  }

  /** The incident of the k-th flap once resolved: only the first was announced. */
  function Flapped(k: nat): Incident {
    var now := k * 120_000;
    Incident(k, Resolved, now, Some(now), Some(now + MINUTE), if k == 0 then Some(0) else None, 2 * k, Some(2 * k))
  }

  function FlappedRows(k: nat): (rows: seq<Incident>)
    ensures |rows| == k
  {
    if k == 0 then [] else FlappedRows(k - 1) + [Flapped(k - 1)]
  }

  function FlappedFile(k: nat): File {
    File(FlappedRows(k), if k == 0 then [] else [Notice(0, true, 0, {0}), Notice(0, false, MINUTE, {})])
  }

  lemma {:induction false} FlappedAt(k: nat)
    ensures forall i :: 0 <= i < k ==> FlappedRows(k)[i] == Flapped(i)
  {
    if k > 0 {
      FlappedAt(k - 1);
    }
  }

  /** The file while the k-th flap is on: announced for the first and, past the look-back, the eleventh. */
  function OnFile(k: nat): File {
    Breached(FlappedFile(k), None, k, 2 * k, HOURLY, On(k))
  }

  lemma FirstFlap()
    ensures OnFile(0) == File([Opened(0, 0, HOURLY, On(0)).(notifiedAt := Some(0))], [Notice(0, true, 0, {0})])
    ensures Cleared(OnFile(0), 0, Off(0)) == FlappedFile(1)
  {
    var r := Opened(0, 0, HOURLY, On(0));
    assert Latest([r][..0], 0) == None;
    assert Latest([r], 0) == None;
    assert Stamps([r]) == {0};
    assert FlappedRows(1) == [Flapped(0)];
  }

  lemma QuietFlap(k: nat)
    requires 1 <= k <= 9
    ensures OnFile(k) == File(FlappedRows(k) + [Opened(k, 2 * k, HOURLY, On(k))], FlappedFile(k).notices)
    ensures Cleared(OnFile(k), k, Off(k)) == FlappedFile(k + 1)
  {
    FlappedAt(k);
    var rows := FlappedRows(k) + [Opened(k, 2 * k, HOURLY, On(k))];
    assert rows[0] == Flapped(0);
    LatestBounds(rows, k, 0);
  }

  lemma {:induction false} NoneNotified(rows: seq<Incident>, except: nat)
    requires forall i :: 0 <= i < |rows| ==> rows[i].notifiedAt.None?
    ensures Latest(rows, except) == None
  {
    if rows != [] {
      NoneNotified(rows[..|rows| - 1], except);
    }
  }

  lemma EleventhFlap()
    ensures |OnFile(10).notices| == 3 && OnFile(10).notices[0] == Notice(0, true, 0, {0})
    ensures OnFile(10).notices[2].firing && OnFile(10).notices[2].at == 1_200_000
  {
    FlappedAt(10);
    var rows := FlappedRows(10) + [Opened(10, 20, HOURLY, On(10))];
    assert Recent(rows) == rows[1..];
    NoneNotified(rows[1..], 10);
  }

  // The same as a run of the whole rule

  ghost predicate OnlySubject(t: Alerts, f: File) {
    FileOf(t.files, 0) == f && forall s :: s in t.files ==> s == 0
  }

  /** All resolved but, at most, the last: far below the cap. */
  lemma FewOpen(t: Alerts, f: File)
    requires OnlySubject(t, f) && OneOpen(f.rows)
    ensures BelowCap(t)
  {
    var last := if f.rows == [] then {} else {f.rows[|f.rows| - 1].stamp};
    assert StampsWith(t, Pending) <= last;
    assert StampsWith(t, Firing) <= last;
    Fewer(StampsWith(t, Pending), last);
    Fewer(StampsWith(t, Firing), last);
  }

  lemma FlapTurnsOn(t: Alerts, k: nat)
    requires OnlySubject(t, FlappedFile(k)) && t.next == k && |t.history| == 2 * k
    ensures OnlySubject(Evaluated(t, HOURLY, On(k)), OnFile(k))
    ensures BelowCap(t)
  {
    FlappedAt(k);
    FewOpen(t, FlappedFile(k));
    assert IndexOf([0], 0) == 0;
    assert OpenRow(t, 0).None?;
    assert StampFor(t, On(k), 0) == k;
  }

  lemma OnFileShape(k: nat)
    requires k <= 9
    ensures |OnFile(k).rows| == k + 1 && OneOpen(OnFile(k).rows) && Open(OnFile(k).rows[k])
    ensures Cleared(OnFile(k), k, Off(k)) == FlappedFile(k + 1)
  {
    FlappedAt(k);
    if k == 0 {
      FirstFlap();
    } else {
      QuietFlap(k);
    }
  }

  lemma ClearedInRun(t: Alerts, rule: Rule, ev: Evaluation, f: File, k: nat)
    requires OnlySubject(t, f) && |f.rows| == k + 1 && OneOpen(f.rows) && Open(f.rows[k]) && ev.breaches == []
    ensures OnlySubject(Evaluated(t, rule, ev), Cleared(f, k, ev)) && BelowCap(t)
  {
    FewOpen(t, f);
    FindsTheOpenOne(t, 0);
  }

  lemma FlapTurnsOff(t: Alerts, k: nat)
    requires k <= 9 && OnlySubject(t, OnFile(k))
    ensures OnlySubject(Evaluated(t, HOURLY, Off(k)), FlappedFile(k + 1))
    ensures BelowCap(t)
  {
    OnFileShape(k);
    ClearedInRun(t, HOURLY, Off(k), OnFile(k), k);
  }

  /** The run so far: the first `k` flaps are over. */
  ghost predicate Flapping(es: seq<Event>, k: nat, f: File) {
    && Orderly(HOURLY, es) && Clock(es) <= k * 120_000
    && OnlySubject(Run(HOURLY, es), f)
  }

  lemma FlapOn(es: seq<Event>, k: nat, es': seq<Event>)
    requires Flapping(es, k, FlappedFile(k)) && Run(HOURLY, es).next == k && |Run(HOURLY, es).history| == 2 * k
    requires es' == es + [Evaluate(On(k))]
    ensures Orderly(HOURLY, es') && Clock(es') == k * 120_000 && OnlySubject(Run(HOURLY, es'), OnFile(k))
    ensures Run(HOURLY, es').next == k + 1 && |Run(HOURLY, es').history| == 2 * k + 1
  {
    RunAppends(HOURLY, es, Evaluate(On(k)), es');
    FlapTurnsOn(Run(HOURLY, es), k);
    OrderlyAppends(HOURLY, es, Evaluate(On(k)), es');
  }

  lemma FlapOff(es: seq<Event>, k: nat, es': seq<Event>)
    requires k <= 9 && Orderly(HOURLY, es) && Clock(es) == k * 120_000 && OnlySubject(Run(HOURLY, es), OnFile(k))
    requires es' == es + [Evaluate(Off(k))]
    ensures Flapping(es', k + 1, FlappedFile(k + 1))
    ensures Run(HOURLY, es').next == Run(HOURLY, es).next && |Run(HOURLY, es').history| == |Run(HOURLY, es).history| + 1
  {
    RunAppends(HOURLY, es, Evaluate(Off(k)), es');
    FlapTurnsOff(Run(HOURLY, es), k);
    OrderlyAppends(HOURLY, es, Evaluate(Off(k)), es');
  }

  lemma {:induction false} FlapRun(k: nat)
    requires k <= 10
    ensures Flapping(Flaps(k), k, FlappedFile(k))
    ensures Run(HOURLY, Flaps(k)).next == k && |Run(HOURLY, Flaps(k)).history| == 2 * k
  {
    if k > 0 {
      FlapRun(k - 1);
      var on := Flaps(k - 1) + [Evaluate(On(k - 1))];
      FlapOn(Flaps(k - 1), k - 1, on);
      FlapOff(on, k - 1, Flaps(k));
    }
  }

  /** An hour's cooldown, and two firing notices twenty minutes apart: ten flaps hid the first. */
  lemma FlappingBreaksCooldown()
    ensures var es := Flaps(10) + [Evaluate(On(10))];
            && Orderly(HOURLY, es) && 0 in Run(HOURLY, es).files
            && var notices := Run(HOURLY, es).files[0].notices;
               && |notices| == 3 && notices[0].firing && notices[2].firing
               && notices[2].at - notices[0].at < HOURLY.cooldownMs
  {
    FlapRun(10);
    FlapOn(Flaps(10), 10, Flaps(10) + [Evaluate(On(10))]);
    EleventhFlap();
  }
}
