/**
 The mesh allowlist: which peers may hold a connection, and the race between registering a
 connection and replacing the list. Each region a lock protects is one step; any number of
 `register` and `replace` calls may be between two of their steps at the same time.
 */
module Fleet {

  type PeerId = nat
  type CallId = nat

  datatype Conn = Conn(peer: PeerId, serial: nat)

  /** Where a call stands between two of its locked regions. */
  datatype Call =
    | Tracking(conn: Conn)
    | Checking(conn: Conn)
    | Refusing(conn: Conn)
    | Replacing(removed: seq<PeerId>, closing: seq<Conn>)

  /**
   `open`: not closed by either side. `dropped`: no strong handle left, so weak ones no longer
   upgrade. `tracked` records which connections have been through `register`'s first region.
   */
  datatype Mesh = Mesh(
    peers: set<PeerId>, conns: map<PeerId, seq<Conn>>, open: set<Conn>, dropped: set<Conn>,
    tracked: set<Conn>, calls: map<CallId, Call>)

  datatype Step =
    | Connect(c: Conn)
    | PeerCloses(c: Conn)
    | Drop(c: Conn)
    | Register(k: CallId, c: Conn)
    | Track(k: CallId)
    | Check(k: CallId)
    | Refuse(k: CallId)
    | Replace(k: CallId, next: set<PeerId>, removed: seq<PeerId>)
    | TakeList(k: CallId)
    | CloseOne(k: CallId)
    | Return(k: CallId)
    | Prune(p: PeerId)

  function ListOf(conns: map<PeerId, seq<Conn>>, p: PeerId): seq<Conn> {
    if p in conns then conns[p] else []
  }

  /** The connections of a list that are in `keep`, in order. */
  function Retained(list: seq<Conn>, keep: set<Conn>): (kept: seq<Conn>)
    ensures forall c :: c in kept <==> c in list && c in keep
  {
    if list == [] then []
    else
      var rest := Retained(list[..|list| - 1], keep);
      var c := list[|list| - 1];
      if c in keep then rest + [c] else rest
  }

  /** The connections of a list whose weak handle still upgrades. */
  function Upgradable(list: seq<Conn>, dropped: set<Conn>): (kept: seq<Conn>)
    ensures forall c :: c in kept <==> c in list && c !in dropped
  {
    if list == [] then []
    else
      var rest := Upgradable(list[..|list| - 1], dropped);
      var c := list[|list| - 1];
      if c in dropped then rest else rest + [c]
  }

  predicate At(s: Mesh, k: CallId) {
    k in s.calls
  }

  ghost predicate Enabled(s: Mesh, step: Step) {
    match step
    case Connect(c) => c !in s.open && c !in s.dropped && c !in s.tracked
    case Register(k, c) => !At(s, k)
    case Track(k) => At(s, k) && s.calls[k].Tracking?
    case Check(k) => At(s, k) && s.calls[k].Checking?
    case Refuse(k) => At(s, k) && s.calls[k].Refusing?
    case Replace(k, next, removed) => !At(s, k) && forall p :: p in removed <==> p in s.peers && p !in next
    case TakeList(k) => At(s, k) && s.calls[k].Replacing? && s.calls[k].closing == [] && s.calls[k].removed != []
    case CloseOne(k) => At(s, k) && s.calls[k].Replacing? && s.calls[k].closing != []
    case Return(k) => At(s, k) && s.calls[k] == Replacing([], [])
    case _ => true
  }

  ghost function Next(s: Mesh, step: Step): Mesh
    requires Enabled(s, step)
  {
    match step
    case Connect(c) => s.(open := s.open + {c})
    case PeerCloses(c) => s.(open := s.open - {c})
    case Drop(c) => s.(open := s.open - {c}, dropped := s.dropped + {c})
    case Register(k, c) => s.(calls := s.calls[k := Tracking(c)])
    case Track(k) =>
      var c := s.calls[k].conn;
      s.(conns := s.conns[c.peer := Upgradable(ListOf(s.conns, c.peer), s.dropped) + [c]],
         tracked := s.tracked + {c}, calls := s.calls[k := Checking(c)])
    case Check(k) =>
      var c := s.calls[k].conn;
      if c.peer in s.peers then s.(calls := s.calls - {k}) else s.(calls := s.calls[k := Refusing(c)])
    case Refuse(k) => s.(open := s.open - {s.calls[k].conn}, calls := s.calls - {k})
    case Replace(k, next, removed) => s.(peers := next, calls := s.calls[k := Replacing(removed, [])])
    case TakeList(k) =>
      var p := s.calls[k].removed[0];
      s.(conns := s.conns - {p}, calls := s.calls[k := Replacing(s.calls[k].removed[1..], ListOf(s.conns, p))])
    case CloseOne(k) =>
      var call := s.calls[k];
      s.(open := if call.closing[0] in s.dropped then s.open else s.open - {call.closing[0]},
         calls := s.calls[k := Replacing(call.removed, call.closing[1..])])
    case Return(k) => s.(calls := s.calls - {k})
    case Prune(p) => s.(conns := s.conns[p := Retained(ListOf(s.conns, p), s.open)])
  }

  ghost function Run(s: Mesh, steps: seq<Step>): Mesh
    requires Allowed(s, steps)
    decreases |steps|, 1
  {
    if steps == [] then s else Next(Run(s, steps[..|steps| - 1]), steps[|steps| - 1])
  }

  ghost predicate Allowed(s: Mesh, steps: seq<Step>)
    decreases |steps|, 0
  {
    steps != [] ==>
      && Allowed(s, steps[..|steps| - 1])
      && Enabled(Run(s, steps[..|steps| - 1]), steps[|steps| - 1])
  }

  predicate Start(s: Mesh) {
    s.conns == map[] && s.open == {} && s.dropped == {} && s.tracked == {} && s.calls == map[]
  }

  // ---------------------------------------------------------------------------------------------
  // Who will close a connection

  predicate Registering(s: Mesh, k: CallId, c: Conn) {
    k in s.calls && (s.calls[k].Checking? || s.calls[k].Refusing?) && s.calls[k].conn == c
  }

  predicate ClosedBy(s: Mesh, k: CallId, c: Conn) {
    k in s.calls && s.calls[k].Replacing? && c in s.calls[k].closing
  }

  predicate TakenBy(s: Mesh, k: CallId, p: PeerId) {
    k in s.calls && s.calls[k].Replacing? && p in s.calls[k].removed
  }

  ghost predicate Claimed(s: Mesh, c: Conn) {
    exists k :: ClosedBy(s, k, c)
  }

  ghost predicate Awaited(s: Mesh, c: Conn) {
    exists k :: Registering(s, k, c) || TakenBy(s, k, c.peer)
  }

  /** An open tracked connection is on its peer's list, or on the list of a call about to close it. */
  ghost predicate Located(s: Mesh, c: Conn) {
    c in ListOf(s.conns, c.peer) || Claimed(s, c)
  }

  /** If its peer has left the fleet, some call in progress is still going to deal with it. */
  ghost predicate Covered(s: Mesh, c: Conn) {
    c.peer in s.peers || Claimed(s, c) || Awaited(s, c)
  }

  ghost predicate Inv(s: Mesh) {
    && (forall c :: c in s.dropped ==> c !in s.open)
    && (forall c :: c in s.open && c in s.tracked ==> Located(s, c) && Covered(s, c))
  }

  lemma StillClaimed(s: Mesh, step: Step, c: Conn)
    requires Enabled(s, step) && Claimed(s, c) && (forall d :: d in s.dropped ==> d !in s.open)
    requires c in Next(s, step).open && c in s.open
    ensures Claimed(Next(s, step), c)
  {
    var k :| ClosedBy(s, k, c);
    assert ClosedBy(Next(s, step), k, c);
  }

  lemma StillAwaited(s: Mesh, step: Step, c: Conn)
    requires Enabled(s, step) && Awaited(s, c) && Located(s, c)
    requires c in Next(s, step).open && c in s.open
    ensures Covered(Next(s, step), c)
  {
    var s' := Next(s, step);
    var k :| Registering(s, k, c) || TakenBy(s, k, c.peer);
    if step == TakeList(k) && s.calls[k].removed[0] == c.peer {
      if c in ListOf(s.conns, c.peer) {
        assert ClosedBy(s', k, c);
      } else {
        var j :| ClosedBy(s, j, c);
        assert ClosedBy(s', j, c);
      }
    } else if step == Check(k) && Registering(s, k, c) && c.peer in s.peers {
      assert c.peer in s'.peers;
    } else if Registering(s, k, c) {
      assert Registering(s', k, c);
    } else {
      assert TakenBy(s', k, c.peer);
    }
  }

  lemma StaysLocated(s: Mesh, step: Step, c: Conn)
    requires Inv(s) && Enabled(s, step)
    requires c in Next(s, step).open && c in Next(s, step).tracked
    ensures Located(Next(s, step), c)
  {
    var s' := Next(s, step);
    if c in s.tracked && Claimed(s, c) {
      StillClaimed(s, step, c);
    } else if c in s.tracked && step.TakeList? && s.calls[step.k].removed[0] == c.peer {
      assert ClosedBy(s', step.k, c);
    }
  }

  lemma StaysCovered(s: Mesh, step: Step, c: Conn)
    requires Inv(s) && Enabled(s, step)
    requires c in Next(s, step).open && c in Next(s, step).tracked
    ensures Covered(Next(s, step), c)
  {
    var s' := Next(s, step);
    if c !in s.tracked {
      assert Registering(s', step.k, c);
    } else if Claimed(s, c) {
      StillClaimed(s, step, c);
    } else if Awaited(s, c) {
      StillAwaited(s, step, c);
    } else if step.Replace? && c.peer !in step.next {
      assert TakenBy(s', step.k, c.peer);
    }
  }

  lemma StepKeepsInv(s: Mesh, step: Step)
    requires Inv(s) && Enabled(s, step)
    ensures Inv(Next(s, step))
  {
    var s' := Next(s, step);
    forall c | c in s'.open && c in s'.tracked ensures Located(s', c) && Covered(s', c) {
      StaysLocated(s, step, c);
      StaysCovered(s, step, c);
    }
  }

  lemma {:induction false} RunKeepsInv(s: Mesh, steps: seq<Step>)
    requires Start(s) && Allowed(s, steps)
    ensures Inv(Run(s, steps))
  {
    if steps != [] {
      RunKeepsInv(s, steps[..|steps| - 1]);
      StepKeepsInv(Run(s, steps[..|steps| - 1]), steps[|steps| - 1]);
    }
  }

  /**
   Whatever the interleaving: when no `register` or `replace` call is in progress, every open
   connection that was ever tracked belongs to a peer of the current fleet.
   */
  lemma Revocation(s: Mesh, steps: seq<Step>, c: Conn)
    requires Start(s) && Allowed(s, steps) && Run(s, steps).calls == map[]
    requires c in Run(s, steps).open && c in Run(s, steps).tracked
    ensures c.peer in Run(s, steps).peers
  {
    RunKeepsInv(s, steps);
  }

  // ---------------------------------------------------------------------------------------------
  // A peer that stays in the fleet keeps its connections

  ghost predicate Spares(call: Call, p: PeerId) {
    match call
    case Tracking(_) => true
    case Checking(_) => true
    case Refusing(c) => c.peer != p
    case Replacing(removed, closing) => p !in removed && forall c :: c in closing ==> c.peer != p
  }

  ghost predicate Untouched(s: Mesh, p: PeerId) {
    && p in s.peers
    && (forall k :: k in s.calls ==> Spares(s.calls[k], p))
    && (forall q, c :: c in ListOf(s.conns, q) ==> c.peer == q)
  }

  /** Neither the peer nor this Node's own users end the connection, and no list drops the peer. */
  predicate Leaves(step: Step, c: Conn) {
    step != PeerCloses(c) && step != Drop(c) && (step.Replace? ==> c.peer in step.next)
  }

  lemma StepSpares(s: Mesh, step: Step, c: Conn)
    requires Enabled(s, step) && Untouched(s, c.peer) && Leaves(step, c)
    ensures Untouched(Next(s, step), c.peer)
    ensures c in s.open ==> c in Next(s, step).open
  {
    var s' := Next(s, step);
    forall q, d | d in ListOf(s'.conns, q) ensures d.peer == q {
      assert d in ListOf(s.conns, q) || (step.Track? && d == s.calls[step.k].conn);
    }
    if step.TakeList? {
      assert s.calls[step.k].removed[0] in s.calls[step.k].removed;
    }
  }

  /** From any moment on: while its peer stays listed, no `register` or `replace` closes a connection. */
  lemma {:induction false} ListedPeersKeepConnections(s: Mesh, steps: seq<Step>, c: Conn)
    requires Allowed(s, steps) && Untouched(s, c.peer)
    requires forall i :: 0 <= i < |steps| ==> Leaves(steps[i], c)
    ensures Untouched(Run(s, steps), c.peer)
    ensures c in s.open ==> c in Run(s, steps).open
  {
    if steps != [] {
      ListedPeersKeepConnections(s, steps[..|steps| - 1], c);
      StepSpares(Run(s, steps[..|steps| - 1]), steps[|steps| - 1], c);
    }
  }

  // ---------------------------------------------------------------------------------------------
  // What a run leaves behind

  /** The list of the last `replace`. */
  function PeersAfter(s: Mesh, steps: seq<Step>): set<PeerId> {
    if steps == [] then s.peers
    else if steps[|steps| - 1].Replace? then steps[|steps| - 1].next
    else PeersAfter(s, steps[..|steps| - 1])
  }

  /** The last of these calls under `k` was for `c`. */
  predicate RegistersFor(steps: seq<Step>, k: CallId, c: Conn) {
    steps != [] &&
      var last := steps[|steps| - 1];
      if last.Register? && last.k == k then last.c == c
      else !(last.Replace? && last.k == k) && RegistersFor(steps[..|steps| - 1], k, c)
  }

  /** The `i`-th step put the connection on its peer's list. */
  predicate TracksAt(steps: seq<Step>, i: nat, c: Conn) {
    i < |steps| && steps[i].Track? && RegistersFor(steps[..i], steps[i].k, c)
  }

  lemma {:induction false} CallsAreFor(s: Mesh, steps: seq<Step>, k: CallId)
    requires Start(s) && Allowed(s, steps) && k in Run(s, steps).calls && !Run(s, steps).calls[k].Replacing?
    ensures forall c :: Run(s, steps).calls[k].conn == c <==> RegistersFor(steps, k, c)
  {
    var before, last := steps[..|steps| - 1], steps[|steps| - 1];
    if !(last.Register? && last.k == k) {
      CallsAreFor(s, before, k);
    }
  }

  /**
   In every run the fleet is the list last installed, and the tracked connections are exactly those
   some `register` call has put on a list.
   */
  lemma {:induction false} RunRemembers(s: Mesh, steps: seq<Step>, c: Conn)
    requires Start(s) && Allowed(s, steps)
    ensures Run(s, steps).peers == PeersAfter(s, steps)
    ensures c in Run(s, steps).tracked <==> exists i :: 0 <= i < |steps| && TracksAt(steps, i, c)
  {
    if steps != [] {
      var n := |steps| - 1;
      RunRemembers(s, steps[..n], c);
      forall i | 0 <= i < n ensures TracksAt(steps[..n], i, c) <==> TracksAt(steps, i, c) {
        assert steps[..n][..i] == steps[..i];
      }
      if steps[n].Track? {
        CallsAreFor(s, steps[..n], steps[n].k);
      }
      if c in Run(s, steps[..n]).tracked {
        var i :| 0 <= i < n && TracksAt(steps[..n], i, c);
        assert TracksAt(steps, i, c);
      } else if c in Run(s, steps).tracked {
        assert TracksAt(steps, n, c);
      }
    }
  }

  /** A connection is open only after it was made, and never again once its last handle is gone. */
  lemma {:induction false} OpenWasConnected(s: Mesh, steps: seq<Step>, c: Conn)
    requires Start(s) && Allowed(s, steps)
    ensures c in Run(s, steps).open ==> Connect(c) in steps && Drop(c) !in steps
    ensures c in Run(s, steps).dropped <==> Drop(c) in steps
  {
    if steps != [] {
      OpenWasConnected(s, steps[..|steps| - 1], c);
      RunKeepsInv(s, steps);
      assert steps == steps[..|steps| - 1] + [steps[|steps| - 1]];
    }
  }

  /** A connection that was made is open until someone closes it: its peer, its users, or these calls. */
  lemma ConnectOpens(s: Mesh, c: Conn)
    requires Enabled(s, Connect(c))
    ensures c in Next(s, Connect(c)).open && Next(s, Connect(c)) == s.(open := Next(s, Connect(c)).open)
  {
  }

  /** Taking a removed peer's list leaves it empty and every other list alone. */
  lemma TakeListTakesAll(s: Mesh, k: CallId)
    requires Enabled(s, TakeList(k))
    ensures var s', p := Next(s, TakeList(k)), s.calls[k].removed[0];
            && ListOf(s'.conns, p) == [] && s'.open == s.open && s'.peers == s.peers
            && s'.calls[k].closing == ListOf(s.conns, p) && [p] + s'.calls[k].removed == s.calls[k].removed
            && forall q :: q != p ==> ListOf(s'.conns, q) == ListOf(s.conns, q)
  {
  }

  // ---------------------------------------------------------------------------------------------
  // Calls in progress can always end

  lemma {:induction false} RunAppends(s: Mesh, a: seq<Step>, b: seq<Step>)
    requires Allowed(s, a) && Allowed(Run(s, a), b)
    ensures Allowed(s, a + b) && Run(s, a + b) == Run(Run(s, a), b)
  {
    if b == [] {
      assert a + b == a;
    } else {
      var n := |b| - 1;
      RunAppends(s, a, b[..n]);
      assert (a + b)[..|a + b| - 1] == a + b[..n];
    }
  }

  lemma RunOne(s: Mesh, step: Step)
    requires Enabled(s, step)
    ensures Allowed(s, [step]) && Run(s, [step]) == Next(s, step)
  {
    assert [step][..0] == [];
    assert Run(s, []) == s;
  }

  lemma RunStepFirst(s: Mesh, step: Step, rest: seq<Step>)
    requires Enabled(s, step) && Allowed(Next(s, step), rest)
    ensures Allowed(s, [step] + rest) && Run(s, [step] + rest) == Run(Next(s, step), rest)
  {
    RunOne(s, step);
    RunAppends(s, [step], rest);
  }

  /** The next step of a call in progress. */
  function NextOf(k: CallId, call: Call): Step {
    match call
    case Tracking(_) => Track(k)
    case Checking(_) => Check(k)
    case Refusing(_) => Refuse(k)
    case Replacing(removed, closing) =>
      if closing != [] then CloseOne(k) else if removed != [] then TakeList(k) else Return(k)
  }

  function Stage(call: Call): nat {
    match call
    case Tracking(_) => 3
    case Checking(_) => 2
    case Refusing(_) => 1
    case Replacing(removed, _) => |removed|
  }

  function ToClose(call: Call): nat {
    if call.Replacing? then |call.closing| else 0
  }

  /** On its own, a call in progress reaches its end, whatever the others are doing. */
  lemma {:induction false} CallFinishes(s: Mesh, k: CallId) returns (steps: seq<Step>)
    requires k in s.calls
    ensures Allowed(s, steps) && Run(s, steps).calls == s.calls - {k} && Run(s, steps).peers == s.peers
    decreases Stage(s.calls[k]), ToClose(s.calls[k])
  {
    var step := NextOf(k, s.calls[k]);
    var s' := Next(s, step);
    if k in s'.calls {
      var rest := CallFinishes(s', k);
      steps := [step] + rest;
      RunStepFirst(s, step, rest);
      assert s'.calls - {k} == s.calls - {k};
    } else {
      steps := [step];
      RunOne(s, step);
    }
  }

  /** Any calls in progress can run to their end. */
  lemma {:induction false} AllFinish(s: Mesh) returns (steps: seq<Step>)
    ensures Allowed(s, steps) && Run(s, steps).calls == map[] && Run(s, steps).peers == s.peers
    decreases |s.calls|
  {
    if s.calls == map[] {
      steps := [];
    } else {
      var k :| k in s.calls;
      var first := CallFinishes(s, k);
      assert s.calls.Keys == (s.calls - {k}).Keys + {k};
      var rest := AllFinish(Run(s, first));
      steps := first + rest;
      RunAppends(s, first, rest);
    }
  }

  /**
   From every reached state, letting the calls in progress end leaves open only tracked connections
   of the fleet as it is then.
   */
  lemma RevocationIsReached(s: Mesh, steps: seq<Step>) returns (more: seq<Step>)
    requires Start(s) && Allowed(s, steps)
    ensures Allowed(s, steps + more) && Run(s, steps + more).peers == Run(s, steps).peers
    ensures forall c :: c in Run(s, steps + more).open && c in Run(s, steps + more).tracked ==>
              c.peer in Run(s, steps).peers
  {
    more := AllFinish(Run(s, steps));
    RunAppends(s, steps, more);
    RunKeepsInv(s, steps + more);
    forall c | c in Run(s, steps + more).open && c in Run(s, steps + more).tracked
      ensures c.peer in Run(s, steps).peers
    {
      Revocation(s, steps + more, c);
    }
  }

  // ---------------------------------------------------------------------------------------------
  // One caller at a time

  /** The allowlist and its connection lists, changed in place. */
  class Allowlist {
    var peers: set<PeerId>
    var conns: map<PeerId, seq<Conn>>
    var open: set<Conn>
    var dropped: set<Conn>
    ghost var tracked: set<Conn>

    ghost predicate Valid()
      reads this
    {
      && (forall c :: c in open ==> c !in dropped)
      && (forall c :: c in open && c in tracked ==> c.peer in peers && c in ListOf(conns, c.peer))
      && (forall p, c :: c in ListOf(conns, p) ==> c.peer == p)
    }

    constructor (peers: set<PeerId>)
      ensures Valid() && this.peers == peers && open == {}
    {
      this.peers := peers;
      conns, open, dropped, tracked := map[], {}, {}, {};
    }

    method Register(c: Conn) returns (accepted: bool)
      requires Valid()
      modifies this
      ensures Valid() && peers == old(peers) && dropped == old(dropped)
      ensures accepted <==> c.peer in peers
      ensures open == if accepted then old(open) else old(open) - {c}
      ensures accepted ==> c in tracked
    {
      conns := conns[c.peer := Upgradable(ListOf(conns, c.peer), dropped) + [c]];
      tracked := tracked + {c};
      assert forall q :: q != c.peer ==> ListOf(conns, q) == ListOf(old(conns), q);
      if c.peer !in peers {
        open := open - {c};
        return false;
      }
      return true;
    }

    method ClosePeer(p: PeerId)
      modifies this`conns, this`open
      ensures conns == old(conns) - {p}
      ensures forall c :: c in open <==> c in old(open) && (c in ListOf(old(conns), p) ==> c in dropped)
    {
      var list := ListOf(conns, p);
      conns := conns - {p};
      var i := 0;
      while i < |list|
        invariant 0 <= i <= |list|
        invariant conns == old(conns) - {p}
        invariant forall c :: c in open <==> c in old(open) && (c in list[..i] ==> c in dropped)
      {
        assert list[..i + 1] == list[..i] + [list[i]];
        if list[i] !in dropped {
          open := open - {list[i]};
        }
        i := i + 1;
      }
      assert list[..i] == list;
    }

    /** `listed`: the present peers, in key order. Closes exactly the tracked connections of removed peers. */
    method Replace(next: set<PeerId>, listed: seq<PeerId>) returns (removed: seq<PeerId>)
      requires Valid() && forall p :: p in listed <==> p in peers
      modifies this`peers, this`conns, this`open
      ensures Valid() && peers == next
      ensures forall p :: p in removed <==> p in old(peers) && p !in next
      ensures forall c :: c in open <==> c in old(open) && !(c.peer in removed && c in ListOf(old(conns), c.peer))
    {
      removed := RemovedFrom(listed, next);
      peers := next;
      var i := 0;
      while i < |removed|
        invariant 0 <= i <= |removed|
        invariant peers == next
        invariant forall p :: ListOf(conns, p) == if p in removed[..i] then [] else ListOf(old(conns), p)
        invariant forall c ::
                    c in open <==> c in old(open) && !(c.peer in removed[..i] && c in ListOf(old(conns), c.peer))
      {
        assert removed[..i + 1] == removed[..i] + [removed[i]];
        ClosePeer(removed[i]);
        i := i + 1;
      }
      assert removed[..i] == removed;
    }
  }

  function RemovedFrom(listed: seq<PeerId>, next: set<PeerId>): (removed: seq<PeerId>)
    ensures forall p :: p in removed <==> p in listed && p !in next
  {
    if listed == [] then []
    else
      var rest := RemovedFrom(listed[..|listed| - 1], next);
      var p := listed[|listed| - 1];
      if p in next then rest else rest + [p]
  }
}
