/** One rule's evaluation as it runs: a loop over the breaching subjects, then one over what is still open. */
module AlertTables {
  import opened Common
  import opened Incidents
  import opened AlertRuns

  /** The fold over a subject's ten newest rows, newest first. */
  method LastFiringNotice(rows: seq<Incident>, except: nat) returns (latest: Option<nat>)
    ensures latest == Latest(Recent(rows), except)
  {
    var recent := if |rows| <= LOOK_BACK then rows else rows[|rows| - LOOK_BACK..];
    latest := None;
    var i := |recent|;
    while i > 0
      invariant 0 <= i <= |recent|
      invariant forall j :: i <= j < |recent| && recent[j].stamp != except && recent[j].notifiedAt.Some? ==>
                  latest.Some? && latest.value >= recent[j].notifiedAt.value
      invariant latest.Some? ==>
                  exists j :: i <= j < |recent| && recent[j].stamp != except && recent[j].notifiedAt == latest
    {
      i := i - 1;
      if recent[i].stamp != except && recent[i].notifiedAt.Some? {
        var at := recent[i].notifiedAt.value;
        latest := Some(if latest.Some? && latest.value > at then latest.value else at);
      }
    }
    if latest.Some? {
      var j :| 0 <= j < |recent| && recent[j].stamp != except && recent[j].notifiedAt == latest;
      LatestBounds(recent, except, j);
    }
    if Latest(recent, except).Some? {
      LatestIsOne(recent, except);
    }
  }

  /** Inserts or advances the subject's incident, then announces it if it is due. */
  method BreachSubject(f: File, open: Option<nat>, stamp: nat, n: nat, rule: Rule, ev: Evaluation) returns (f': File)
    requires open.Some? ==> open.value < |f.rows|
    ensures f' == Breached(f, open, stamp, n, rule, ev)
    ensures open.None? ==>
              && |f'.rows| == |f.rows| + 1 && f'.rows[|f.rows|].since == ev.now
              && f'.rows[|f.rows|].status == if rule.forMs == 0 then Firing else Pending
    ensures open.Some? && f.rows[open.value].status.Pending? ==>
              && |f'.rows| == |f.rows|
              && if ev.now - f.rows[open.value].since >= rule.forMs
                 then f'.rows[open.value].status.Firing? && f'.rows[open.value].firedAt == Some(ev.now)
                 else f'.rows[open.value] == f.rows[open.value]
  {
    var rows, k := f.rows, |f.rows|;
    if open.None? {
      var firesNow := rule.forMs == 0;
      rows := rows + [if firesNow then Incident(stamp, Firing, ev.now, Some(ev.now), None, None, n, Some(n))
                      else Incident(stamp, Pending, ev.now, None, None, None, n, None)];
    } else {
      k := open.value;
      if rows[k].status.Pending? && ev.now - rows[k].since >= rule.forMs {
        rows := rows[k := rows[k].(status := Firing, firedAt := Some(ev.now), firedIn := Some(n))];
      }
    }
    assert rows == WithRow(f, open, stamp, n, rule, ev).rows;
    if !rows[k].status.Firing? || rows[k].notifiedAt.Some? || ev.muted {
      return File(rows, f.notices);
    }
    var last := LastFiringNotice(rows, rows[k].stamp);
    if last.Some? && ev.now - last.value < rule.cooldownMs {
      return File(rows, f.notices);
    }
    return File(rows[k := rows[k].(notifiedAt := Some(ev.now))],
                f.notices + [Notice(rows[k].stamp, true, ev.now, Stamps(Recent(rows)))]);
  }

  method ClearSubject(f: File, k: nat, ev: Evaluation) returns (f': File)
    requires k < |f.rows|
    ensures f' == Cleared(f, k, ev)
  {
    var r := f.rows[k];
    if r.status.Pending? {
      return f.(rows := f.rows[..k] + f.rows[k + 1..]);
    }
    f' := f.(rows := f.rows[k := r.(status := Resolved, resolvedAt := Some(ev.now))]);
    if r.notifiedAt.Some? && !ev.muted {
      f' := f'.(notices := f'.notices + [Notice(r.stamp, false, ev.now, {})]);
    }
  }

  /** `open`: the incidents the two index reads returned, by subject. */
  ghost predicate OpenMap(t: Alerts, open: map<Subject, nat>) {
    forall s :: if s in open then OpenRow(t, s) == Some(open[s]) else OpenRow(t, s).None?
  }

  lemma DistinctIndex(ss: seq<Subject>, i: nat)
    requires Distinct(ss) && i < |ss|
    ensures IndexOf(ss, ss[i]) == i
  {
  }

  /** The subjects in `done` have reached the goal, the others are still as in `base`. */
  ghost predicate Reached(goal: map<Subject, File>, base: map<Subject, File>, files: map<Subject, File>,
                          done: seq<Subject>) {
    forall s :: FileOf(files, s) == FileOf(if s in done then goal else base, s)
  }

  lemma OneMoreReached(goal: map<Subject, File>, base: map<Subject, File>, files: map<Subject, File>,
                       ss: seq<Subject>, i: nat, files': map<Subject, File>)
    requires i < |ss| && Reached(goal, base, files, ss[..i])
    requires files' == files || files' == files[ss[i] := FileOf(goal, ss[i])]
    requires FileOf(files', ss[i]) == FileOf(goal, ss[i])
    ensures Reached(goal, base, files', ss[..i + 1])
  {
    assert ss[..i + 1] == ss[..i] + [ss[i]];
  }

  lemma NotYetReached(goal: map<Subject, File>, base: map<Subject, File>, files: map<Subject, File>,
                      ss: seq<Subject>, i: nat)
    requires Distinct(ss) && i < |ss| && Reached(goal, base, files, ss[..i])
    ensures FileOf(files, ss[i]) == FileOf(base, ss[i])
    ensures forall s :: s in ss[..i + 1] <==> s in ss[..i] || s == ss[i]
  {
    assert ss[..i + 1] == ss[..i] + [ss[i]];
    assert ss[i] !in ss[..i];
  }

  function OpenAt(open: map<Subject, nat>, s: Subject): Option<nat> {
    if s in open then Some(open[s]) else None
  }

  /** What a breach makes of the subject is its file in the goal. */
  ghost predicate BreachGoal(goal: map<Subject, File>, files: map<Subject, File>, k: Option<nat>, stamp: nat, n: nat,
                             rule: Rule, ev: Evaluation, s: Subject) {
    && (k.Some? ==> k.value < |FileOf(files, s).rows|)
    && FileOf(goal, s) == Breached(FileOf(files, s), k, stamp, n, rule, ev)
  }

  /** So is what clearing makes of it. */
  ghost predicate ClearGoal(goal: map<Subject, File>, files: map<Subject, File>, open: map<Subject, nat>,
                            ev: Evaluation, s: Subject)
    requires s in open
  {
    open[s] < |FileOf(files, s).rows| && FileOf(goal, s) == Cleared(FileOf(files, s), open[s], ev)
  }

  ghost predicate Goals(goal: map<Subject, File>, files: map<Subject, File>, open: map<Subject, nat>, next: nat,
                        n: nat, rule: Rule, ev: Evaluation) {
    && (forall i :: 0 <= i < |ev.breaches| ==>
          BreachGoal(goal, files, OpenAt(open, ev.breaches[i]), next + i, n, rule, ev, ev.breaches[i]))
    && (forall s :: s in open && s !in ev.breaches ==> ClearGoal(goal, files, open, ev, s))
  }

  lemma StampIs(t: Alerts, ev: Evaluation, i: nat)
    requires Distinct(ev.breaches) && i < |ev.breaches|
    ensures StampFor(t, ev, ev.breaches[i]) == t.next + i
  {
    DistinctIndex(ev.breaches, i);
  }

  lemma MeetsBreachGoal(t: Alerts, rule: Rule, ev: Evaluation, s: Subject, k: Option<nat>, stamp: nat)
    requires s in ev.breaches && OpenRow(t, s) == k && StampFor(t, ev, s) == stamp
    ensures BreachGoal(Evaluated(t, rule, ev).files, t.files, k, stamp, |t.history|, rule, ev, s)
  {
  }

  lemma MeetsClearGoal(t: Alerts, open: map<Subject, nat>, rule: Rule, ev: Evaluation, s: Subject)
    requires OpenMap(t, open) && s in open && s !in ev.breaches
    ensures ClearGoal(Evaluated(t, rule, ev).files, t.files, open, ev, s)
  {
    assert OpenRow(t, s) == Some(open[s]);
  }

  lemma MeetsGoals(t: Alerts, open: map<Subject, nat>, rule: Rule, ev: Evaluation)
    requires Distinct(ev.breaches) && OpenMap(t, open)
    ensures Goals(Evaluated(t, rule, ev).files, t.files, open, t.next, |t.history|, rule, ev)
  {
    var goal := Evaluated(t, rule, ev).files;
    forall i | 0 <= i < |ev.breaches|
      ensures BreachGoal(goal, t.files, OpenAt(open, ev.breaches[i]), t.next + i, |t.history|, rule, ev, ev.breaches[i])
    {
      StampIs(t, ev, i);
      MeetsBreachGoal(t, rule, ev, ev.breaches[i], OpenAt(open, ev.breaches[i]), t.next + i);
    }
    forall s | s in open && s !in ev.breaches ensures ClearGoal(goal, t.files, open, ev, s) {
      MeetsClearGoal(t, open, rule, ev, s);
    }
  }

  class Table {
    var files: map<Subject, File>
    var next: nat
    ghost var history: seq<Evaluation>

    constructor ()
      ensures View() == Alerts(map[], 0, [])
    {
      files, next, history := map[], 0, [];
    }

    ghost function View(): Alerts
      reads this
    {
      Alerts(files, next, history)
    }

    method ApplyBreaches(rule: Rule, ev: Evaluation, n: nat, open: map<Subject, nat>, ghost goal: map<Subject, File>)
      requires Distinct(ev.breaches) && Goals(goal, files, open, next, n, rule, ev)
      modifies this`files
      ensures Reached(goal, old(files), files, ev.breaches)
      ensures forall s :: s in files <==> s in old(files) || s in ev.breaches
    {
      var i := 0;
      while i < |ev.breaches|
        invariant 0 <= i <= |ev.breaches|
        invariant Reached(goal, old(files), files, ev.breaches[..i])
        invariant forall s :: s in files <==> s in old(files) || s in ev.breaches[..i]
      {
        var s := ev.breaches[i];
        NotYetReached(goal, old(files), files, ev.breaches, i);
        assert BreachGoal(goal, old(files), OpenAt(open, s), next + i, n, rule, ev, s);
        var f := BreachSubject(FileOf(files, s), OpenAt(open, s), next + i, n, rule, ev);
        OneMoreReached(goal, old(files), files, ev.breaches, i, files[s := f]);
        files := files[s := f];
        i := i + 1;
      }
      assert ev.breaches[..i] == ev.breaches;
    }

    /** The second loop: what is open and did not breach is closed. */
    method CloseCleared(ev: Evaluation, open: map<Subject, nat>, listed: seq<Subject>, ghost goal: map<Subject, File>)
      requires Distinct(listed) && forall s :: s in listed ==> s in open
      requires forall s :: s in listed && s !in ev.breaches ==> ClearGoal(goal, files, open, ev, s)
      requires forall s :: s in listed && s in ev.breaches ==> FileOf(files, s) == FileOf(goal, s)
      modifies this`files
      ensures Reached(goal, old(files), files, listed)
      ensures forall s :: s in files <==> s in old(files) || (s in listed && s !in ev.breaches)
    {
      var i := 0;
      while i < |listed|
        invariant 0 <= i <= |listed|
        invariant Reached(goal, old(files), files, listed[..i])
        invariant forall s :: s in files <==> s in old(files) || (s in listed[..i] && s !in ev.breaches)
      {
        var s := listed[i];
        NotYetReached(goal, old(files), files, listed, i);
        ghost var before := files;
        if s !in ev.breaches {
          assert ClearGoal(goal, old(files), open, ev, s);
          var f := ClearSubject(FileOf(files, s), open[s], ev);
          files := files[s := f];
        }
        OneMoreReached(goal, old(files), before, listed, i, files);
        i := i + 1;
      }
      assert listed[..i] == listed;
    }

    method RunLoops(rule: Rule, ev: Evaluation, n: nat, open: map<Subject, nat>, listed: seq<Subject>,
                    ghost goal: map<Subject, File>)
      requires Distinct(ev.breaches) && Goals(goal, files, open, next, n, rule, ev)
      requires Distinct(listed) && forall s :: s in listed <==> s in open
      modifies this`files
      ensures forall s :: FileOf(files, s) == FileOf(if s in ev.breaches || s in open then goal else old(files), s)
      ensures forall s :: s in files <==> s in old(files) || s in ev.breaches || s in open
    {
      ApplyBreaches(rule, ev, n, open, goal);
      forall s | s in listed && s !in ev.breaches ensures ClearGoal(goal, files, open, ev, s) {
        assert ClearGoal(goal, old(files), open, ev, s);
      }
      CloseCleared(ev, open, listed, goal);
    }

    method EvaluateSubjects(rule: Rule, ev: Evaluation, n: nat, open: map<Subject, nat>, listed: seq<Subject>)
      requires Distinct(ev.breaches) && OpenMap(View(), open) && n == |history|
      requires Distinct(listed) && forall s :: s in listed <==> s in open
      modifies this`files
      ensures files == Evaluated(old(View()), rule, ev).files
    {
      ghost var t := View();
      MeetsGoals(t, open, rule, ev);
      RunLoops(rule, ev, n, open, listed, Evaluated(t, rule, ev).files);
      AllReached(t, files, open, rule, ev);
    }

    /** `listed`: the subjects of the map of open incidents, in its order. */
    method EvaluateRule(rule: Rule, ev: Evaluation, n: nat, open: map<Subject, nat>, listed: seq<Subject>)
      requires Distinct(ev.breaches) && OpenMap(View(), open) && n == |history|
      requires Distinct(listed) && forall s :: s in listed <==> s in open
      modifies this
      ensures View() == Evaluated(old(View()), rule, ev)
    {
      EvaluateSubjects(rule, ev, n, open, listed);
      next := next + |ev.breaches|;
      history := history + [ev];
    }
  }

  lemma AllReached(t: Alerts, files: map<Subject, File>, open: map<Subject, nat>, rule: Rule, ev: Evaluation)
    requires OpenMap(t, open)
    requires forall s ::
               FileOf(files, s) ==
               FileOf(if s in ev.breaches || s in open then Evaluated(t, rule, ev).files else t.files, s)
    requires forall s :: s in files <==> s in t.files || s in ev.breaches || s in open
    ensures files == Evaluated(t, rule, ev).files
  {
    var goal := Evaluated(t, rule, ev).files;
    forall s | s in files ensures s in goal && files[s] == goal[s] {
      assert FileOf(files, s) == FileOf(if s in ev.breaches || s in open then goal else t.files, s);
      assert OpenRow(t, s) == OpenAt(open, s);
    }
  }
}
