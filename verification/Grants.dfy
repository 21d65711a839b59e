/**
 Exposed services and who may use them. Control operations run one at a time; streams are admitted
 at any moment between their locked regions. A stream holds the cancellation token it was granted
 and its exposure's own, and ends when either is cancelled.
 */
module Grants {
  import opened Common

  type ServiceName = nat
  type PeerId = nat
  type Target = nat
  type ExposureId = nat
  type Token = nat
  type StreamId = nat

  datatype Exposure = Exposure(target: Target, maxConnections: nat, grants: map<PeerId, Token>)

  datatype Spec = Spec(target: Target, maxConnections: nat, peers: set<PeerId>)

  /** A stream that found its exposure and, once admitted, holds a grant. */
  datatype Stream = Stream(service: ServiceName, peer: PeerId, exposure: ExposureId, grant: Option<Token>)

  /** What a control operation has yet to do: cancel the exposure it displaced, then record its spec. */
  datatype Update = Update(service: ServiceName, displaced: Option<ExposureId>, spec: Option<Spec>)

  /** `exposures` holds every exposure ever installed: streams keep theirs after it is displaced. */
  datatype Node = Node(
    live: map<ServiceName, ExposureId>, exposures: map<ExposureId, Exposure>,
    cancelled: set<ExposureId>, revoked: set<Token>, issued: set<Token>,
    desired: map<ServiceName, Spec>, streams: map<StreamId, Stream>, update: Option<Update>)

  // ---------------------------------------------------------------------------------------------
  // Locked regions

  /** A retained peer keeps its token; a new one gets the token made for it. */
  function NextGrants(current: map<PeerId, Token>, tokens: map<PeerId, Token>): map<PeerId, Token> {
    map p | p in tokens :: if p in current then current[p] else tokens[p]
  }

  function Dropped(current: map<PeerId, Token>, tokens: map<PeerId, Token>): set<Token> {
    set p | p in current && p !in tokens :: current[p]
  }

  function SetAllowed(n: Node, e: ExposureId, tokens: map<PeerId, Token>): Node
    requires e in n.exposures
  {
    var x := n.exposures[e];
    n.(exposures := n.exposures[e := x.(grants := NextGrants(x.grants, tokens))],
       revoked := n.revoked + Dropped(x.grants, tokens), issued := n.issued + tokens.Values)
  }

  function Install(n: Node, s: ServiceName, e: ExposureId, x: Exposure): Node {
    n.(live := n.live[s := e], exposures := n.exposures[e := x], issued := n.issued + x.grants.Values)
  }

  function LiveOf(n: Node, s: ServiceName): Option<ExposureId> {
    if s in n.live then Some(n.live[s]) else None
  }

  /** The exposure keeps serving the same target under the same limit. */
  predicate SameShape(n: Node, s: ServiceName, target: Target, maxConnections: nat) {
    && s in n.live && n.live[s] in n.exposures
    && n.exposures[n.live[s]].target == target && n.exposures[n.live[s]].maxConnections == maxConnections
  }

  predicate Unchanged(n: Node, s: ServiceName, spec: Spec) {
    s in n.desired && n.desired[s] == spec
  }

  /** `expose` up to the release of the lock it first writes under; `e` is the identity of a new exposure. */
  function Exposed(n: Node, s: ServiceName, target: Target, maxConnections: nat, tokens: map<PeerId, Token>,
                   e: ExposureId): Node {
    var spec := Spec(target, maxConnections, tokens.Keys);
    if Unchanged(n, s, spec) then n
    else if SameShape(n, s, target, maxConnections) then
      SetAllowed(n, n.live[s], tokens).(update := Some(Update(s, None, Some(spec))))
    else
      Install(n, s, e, Exposure(target, maxConnections, tokens)).(update := Some(Update(s, LiveOf(n, s), Some(spec))))
  }

  function Withdrawn(n: Node, s: ServiceName): Node {
    n.(live := n.live - {s}, desired := n.desired - {s}, update := Some(Update(s, LiveOf(n, s), None)))
  }

  function CancelDisplaced(n: Node): Node {
    if n.update.None? || n.update.value.displaced.None? then n
    else
      var u := n.update.value;
      n.(cancelled := n.cancelled + {u.displaced.value}, update := Some(u.(displaced := None)))
  }

  function Record(n: Node): Node {
    if n.update.None? then n
    else
      var u := n.update.value;
      var desired := if u.spec.Some? then n.desired[u.service := u.spec.value] else n.desired - {u.service};
      n.(desired := desired, update := None)
  }

  // ---------------------------------------------------------------------------------------------
  // Runs

  datatype Step =
    | DoExpose(s: ServiceName, target: Target, maxConnections: nat, tokens: map<PeerId, Token>, e: ExposureId)
    | DoUnexpose(s: ServiceName)
    | DoCancel
    | DoRecord
    | Lookup(k: StreamId, s: ServiceName, peer: PeerId)
    | Admit(k: StreamId, inFleet: bool)
    | EndStream(k: StreamId)

  ghost predicate Fresh(n: Node, tokens: map<PeerId, Token>) {
    && (forall p :: p in tokens ==> tokens[p] !in n.issued)
    && (forall p, q :: p in tokens && q in tokens && tokens[p] == tokens[q] ==> p == q)
  }

  ghost predicate Enabled(n: Node, step: Step) {
    match step
    case DoExpose(_, _, _, tokens, e) => n.update.None? && e !in n.exposures && Fresh(n, tokens)
    case DoUnexpose(_) => n.update.None?
    case DoCancel => n.update.Some? && n.update.value.displaced.Some?
    case DoRecord => n.update.Some? && n.update.value.displaced.None?
    case Lookup(k, s, _) => k !in n.streams
    case Admit(k, _) => k in n.streams && n.streams[k].exposure in n.exposures && n.streams[k].grant.None?
    case EndStream(_) => true
  }

  /** The stream's second region: a peer without a grant, or outside the fleet, is refused. */
  function Admitted(n: Node, k: StreamId, inFleet: bool): Node
    requires k in n.streams && n.streams[k].exposure in n.exposures
  {
    var grants := n.exposures[n.streams[k].exposure].grants;
    if n.streams[k].peer in grants && inFleet then
      n.(streams := n.streams[k := n.streams[k].(grant := Some(grants[n.streams[k].peer]))])
    else n.(streams := n.streams - {k})
  }

  ghost function Next(n: Node, step: Step): Node
    requires Enabled(n, step)
  {
    match step
    case DoExpose(s, target, maxConnections, tokens, e) => Exposed(n, s, target, maxConnections, tokens, e)
    case DoUnexpose(s) => Withdrawn(n, s)
    case DoCancel => CancelDisplaced(n)
    case DoRecord => Record(n)
    case Lookup(k, s, peer) =>
      if s in n.live then n.(streams := n.streams[k := Stream(s, peer, n.live[s], None)]) else n
    case Admit(k, inFleet) => Admitted(n, k, inFleet)
    case EndStream(k) => n.(streams := n.streams - {k})
  }

  ghost predicate Allowed(n: Node, steps: seq<Step>)
    decreases |steps|, 0
  {
    steps != [] ==>
      && Allowed(n, steps[..|steps| - 1])
      && Enabled(Run(n, steps[..|steps| - 1]), steps[|steps| - 1])
  }

  ghost function Run(n: Node, steps: seq<Step>): Node
    requires Allowed(n, steps)
    decreases |steps|, 1
  {
    if steps == [] then n else Next(Run(n, steps[..|steps| - 1]), steps[|steps| - 1])
  }

  predicate Start(n: Node) {
    n == Node(map[], map[], {}, {}, {}, map[], map[], None)
  }

  // ---------------------------------------------------------------------------------------------
  // Invariants

  predicate GrantedBy(n: Node, e: ExposureId, p: PeerId, t: Token) {
    e in n.exposures && p in n.exposures[e].grants && n.exposures[e].grants[p] == t
  }

  /** A token stands for one peer on one exposure, and a standing grant's token is not revoked. */
  ghost predicate TokensOk(n: Node) {
    && (forall e, p, t :: GrantedBy(n, e, p, t) ==> t in n.issued && t !in n.revoked)
    && (forall e, p, e', p', t :: GrantedBy(n, e, p, t) && GrantedBy(n, e', p', t) ==> e == e' && p == p')
    && n.revoked <= n.issued
  }

  predicate Displacing(n: Node, s: ServiceName, e: ExposureId) {
    n.update.Some? && n.update.value.service == s && n.update.value.displaced == Some(e)
  }

  /** A stream's exposure is the installed one unless it is cancelled or about to be. */
  ghost predicate StreamOk(n: Node, st: Stream) {
    && st.exposure in n.exposures
    && (|| st.exposure in n.cancelled
        || LiveOf(n, st.service) == Some(st.exposure)
        || Displacing(n, st.service, st.exposure))
    && (st.grant.Some? ==>
          st.grant.value in n.issued
          && (st.grant.value in n.revoked || GrantedBy(n, st.exposure, st.peer, st.grant.value)))
  }

  ghost predicate StreamsOk(n: Node) {
    forall k :: k in n.streams ==> StreamOk(n, n.streams[k])
  }

  ghost function SpecOf(x: Exposure): Spec {
    Spec(x.target, x.maxConnections, x.grants.Keys)
  }

  ghost predicate Installed(n: Node) {
    forall s :: s in n.live ==> n.live[s] in n.exposures
  }

  /** Outside the service being updated, what is desired is what is live; there, it is what will be. */
  ghost predicate DesiredAt(n: Node, s: ServiceName) {
    if n.update.Some? && n.update.value.service == s then
      n.update.value.spec == LiveSpec(n, s) && (n.update.value.spec.None? ==> s !in n.desired)
    else
      (if s in n.desired then Some(n.desired[s]) else None) == LiveSpec(n, s)
  }

  ghost function LiveSpec(n: Node, s: ServiceName): Option<Spec> {
    if s in n.live && n.live[s] in n.exposures then Some(SpecOf(n.exposures[n.live[s]])) else None
  }

  /** No two services share an exposure. */
  ghost predicate LiveApart(n: Node) {
    forall s, s' :: s in n.live && s' in n.live && n.live[s] == n.live[s'] ==> s == s'
  }

  ghost predicate DesiredOk(n: Node) {
    Installed(n) && LiveApart(n) && forall s :: DesiredAt(n, s)
  }

  ghost predicate Inv(n: Node) {
    TokensOk(n) && StreamsOk(n) && DesiredOk(n)
  }

  lemma AllowedKeepsTokens(n: Node, e: ExposureId, tokens: map<PeerId, Token>)
    requires TokensOk(n) && e in n.exposures && Fresh(n, tokens)
    ensures TokensOk(SetAllowed(n, e, tokens))
  {
    var n' := SetAllowed(n, e, tokens);
    forall d, p, t | GrantedBy(n', d, p, t)
      ensures GrantedBy(n, d, p, t) || (d == e && p in tokens && tokens[p] == t && t !in n.issued)
      ensures t in n'.issued && t !in n'.revoked
    {
      if d == e && p in n.exposures[e].grants {
        assert GrantedBy(n, e, p, t);
      }
      if t in n'.revoked && GrantedBy(n, d, p, t) {
        var q :| q in n.exposures[e].grants && q !in tokens && n.exposures[e].grants[q] == t;
        assert GrantedBy(n, e, q, t);
      }
      if t in n'.revoked && !GrantedBy(n, d, p, t) {
        var q :| q in n.exposures[e].grants && q !in tokens && n.exposures[e].grants[q] == t;
        assert GrantedBy(n, e, q, t);
      }
    }
    forall q | q in n.exposures[e].grants ensures n.exposures[e].grants[q] in n.issued {
      assert GrantedBy(n, e, q, n.exposures[e].grants[q]);
    }
  }

  lemma InstallKeepsTokens(n: Node, s: ServiceName, e: ExposureId, x: Exposure)
    requires TokensOk(n) && e !in n.exposures && Fresh(n, x.grants)
    ensures TokensOk(Install(n, s, e, x))
  {
    var n' := Install(n, s, e, x);
    forall d, p, t | GrantedBy(n', d, p, t)
      ensures GrantedBy(n, d, p, t) || (d == e && p in x.grants && x.grants[p] == t && t !in n.issued)
    {
    }
  }

  /** Replacing a grant list ends the streams of dropped peers, and of no one else. */
  lemma AllowedOnStream(n: Node, e: ExposureId, tokens: map<PeerId, Token>, st: Stream)
    requires TokensOk(n) && e in n.exposures && Fresh(n, tokens) && StreamOk(n, st)
    ensures var n' := SetAllowed(n, e, tokens);
            && StreamOk(n', st)
            && (st.grant.Some? && st.grant.value !in n.revoked ==>
                  (st.grant.value in n'.revoked <==> st.exposure == e && st.peer !in tokens))
  {
    if st.grant.Some? && st.grant.value !in n.revoked {
      var t, grants := st.grant.value, n.exposures[e].grants;
      assert GrantedBy(n, st.exposure, st.peer, t);
      forall q | q in grants && grants[q] == t ensures st.exposure == e && q == st.peer {
        assert GrantedBy(n, e, q, t);
      }
    }
  }

  lemma StepKeepsTokens(n: Node, step: Step)
    requires Inv(n) && Enabled(n, step)
    ensures TokensOk(Next(n, step))
  {
    if step.DoExpose? {
      var spec := Spec(step.target, step.maxConnections, step.tokens.Keys);
      if !Unchanged(n, step.s, spec) {
        if SameShape(n, step.s, step.target, step.maxConnections) {
          AllowedKeepsTokens(n, n.live[step.s], step.tokens);
          SameGrants(SetAllowed(n, n.live[step.s], step.tokens), Next(n, step));
        } else {
          var x := Exposure(step.target, step.maxConnections, step.tokens);
          InstallKeepsTokens(n, step.s, step.e, x);
          SameGrants(Install(n, step.s, step.e, x), Next(n, step));
        }
      }
    } else {
      SameGrants(n, Next(n, step));
    }
  }

  lemma SameGrants(n: Node, n': Node)
    requires TokensOk(n) && n.exposures == n'.exposures && n.issued == n'.issued && n.revoked == n'.revoked
    ensures TokensOk(n')
  {
    assert forall e, p, t :: GrantedBy(n', e, p, t) ==> GrantedBy(n, e, p, t);
  }

  lemma StepKeepsStream(n: Node, step: Step, k: StreamId)
    requires Inv(n) && Enabled(n, step) && k in Next(n, step).streams
    ensures StreamOk(Next(n, step), Next(n, step).streams[k])
  {
    if k in n.streams {
      var st := n.streams[k];
      if step.DoExpose? && SameShape(n, step.s, step.target, step.maxConnections) {
        AllowedOnStream(n, n.live[step.s], step.tokens, st);
      } else if step == Admit(k, true) && st.peer in n.exposures[st.exposure].grants {
        assert GrantedBy(n, st.exposure, st.peer, n.exposures[st.exposure].grants[st.peer]);
      }
    }
  }

  lemma AllowedKeepsDesired(n: Node, s: ServiceName, tokens: map<PeerId, Token>)
    requires DesiredOk(n) && n.update.None? && s in n.live && n.live[s] in n.exposures
    ensures var x := n.exposures[n.live[s]];
            var spec := Spec(x.target, x.maxConnections, tokens.Keys);
            DesiredOk(SetAllowed(n, n.live[s], tokens).(update := Some(Update(s, None, Some(spec)))))
  {
    var x := n.exposures[n.live[s]];
    var spec := Spec(x.target, x.maxConnections, tokens.Keys);
    var n' := SetAllowed(n, n.live[s], tokens).(update := Some(Update(s, None, Some(spec))));
    assert NextGrants(x.grants, tokens).Keys == tokens.Keys;
    forall q ensures DesiredAt(n', q) {
      assert DesiredAt(n, q);
    }
  }

  lemma InstallKeepsDesired(n: Node, s: ServiceName, e: ExposureId, x: Exposure)
    requires DesiredOk(n) && n.update.None? && e !in n.exposures
    ensures DesiredOk(Install(n, s, e, x).(update := Some(Update(s, LiveOf(n, s), Some(SpecOf(x))))))
  {
    var n' := Install(n, s, e, x).(update := Some(Update(s, LiveOf(n, s), Some(SpecOf(x)))));
    forall q ensures DesiredAt(n', q) {
      assert DesiredAt(n, q);
    }
  }

  lemma ExposeKeepsDesired(n: Node, s: ServiceName, target: Target, maxConnections: nat, tokens: map<PeerId, Token>,
                           e: ExposureId)
    requires DesiredOk(n) && n.update.None? && e !in n.exposures
    ensures DesiredOk(Exposed(n, s, target, maxConnections, tokens, e))
  {
    var spec := Spec(target, maxConnections, tokens.Keys);
    if !Unchanged(n, s, spec) {
      if SameShape(n, s, target, maxConnections) {
        AllowedKeepsDesired(n, s, tokens);
      } else {
        InstallKeepsDesired(n, s, e, Exposure(target, maxConnections, tokens));
      }
    }
  }

  lemma StepKeepsDesired(n: Node, step: Step)
    requires Inv(n) && Enabled(n, step)
    ensures DesiredOk(Next(n, step))
  {
    if step.DoExpose? {
      ExposeKeepsDesired(n, step.s, step.target, step.maxConnections, step.tokens, step.e);
    } else {
      forall q ensures DesiredAt(Next(n, step), q) {
        assert DesiredAt(n, q);
      }
    }
  }

  lemma {:induction false} RunKeepsInv(n: Node, steps: seq<Step>)
    requires Start(n) && Allowed(n, steps)
    ensures Inv(Run(n, steps))
  {
    if steps != [] {
      var before, step := Run(n, steps[..|steps| - 1]), steps[|steps| - 1];
      RunKeepsInv(n, steps[..|steps| - 1]);
      StepKeepsTokens(before, step);
      StepKeepsDesired(before, step);
      forall k | k in Next(before, step).streams ensures StreamOk(Next(before, step), Next(before, step).streams[k]) {
        StepKeepsStream(before, step, k);
      }
    }
  }

  // ---------------------------------------------------------------------------------------------
  // How a stream comes to be served

  /** Admission decides one stream and nothing else: served with its peer's token, or gone. */
  lemma AdmitDecides(n: Node, k: StreamId, inFleet: bool)
    requires Enabled(n, Admit(k, inFleet))
    ensures var n', st := Next(n, Admit(k, inFleet)), n.streams[k];
            var grants := n.exposures[st.exposure].grants;
            && n' == n.(streams := n'.streams)
            && (forall j :: j != k ==> (j in n'.streams <==> j in n.streams))
            && (forall j :: j != k && j in n.streams ==> n'.streams[j] == n.streams[j])
            && (k in n'.streams <==> inFleet && st.peer in grants)
            && (inFleet && st.peer in grants ==> n'.streams[k] == st.(grant := Some(grants[st.peer])))
  {
  }

  /** A stream finds the exposure now installed under the service's name, if there is one. */
  lemma LookupFinds(n: Node, k: StreamId, s: ServiceName, peer: PeerId)
    requires Enabled(n, Lookup(k, s, peer))
    ensures var n' := Next(n, Lookup(k, s, peer));
            && (k in n'.streams <==> s in n.live)
            && (s in n.live ==> n'.streams[k] == Stream(s, peer, n.live[s], None))
            && n' == n.(streams := n'.streams) && n'.streams - {k} == n.streams
  {
    assert n.streams - {k} == n.streams;
  }

  /** The `i`-th step admitted the stream: its peer was then in the fleet and on its exposure's grant list. */
  ghost predicate AdmittedAt(n: Node, steps: seq<Step>, i: nat, k: StreamId, st: Stream) {
    && i < |steps| && steps[i] == Admit(k, true) && Allowed(n, steps[..i])
    && k in Run(n, steps[..i]).streams && Run(n, steps[..i]).streams[k] == st.(grant := None)
    && st.grant.Some? && GrantedBy(Run(n, steps[..i]), st.exposure, st.peer, st.grant.value)
  }

  /** The `i`-th step found the stream's exposure, which was then the one installed. */
  ghost predicate FoundAt(n: Node, steps: seq<Step>, i: nat, k: StreamId, st: Stream) {
    && i < |steps| && steps[i] == Lookup(k, st.service, st.peer) && Allowed(n, steps[..i])
    && LiveOf(Run(n, steps[..i]), st.service) == Some(st.exposure)
  }

  lemma EarlierAdmission(n: Node, steps: seq<Step>, k: StreamId, st: Stream, i: nat)
    requires steps != [] && i < |steps| - 1
    ensures AdmittedAt(n, steps[..|steps| - 1], i, k, st) ==> AdmittedAt(n, steps, i, k, st)
    ensures FoundAt(n, steps[..|steps| - 1], i, k, st) ==> FoundAt(n, steps, i, k, st)
  {
    assert steps[..|steps| - 1][..i] == steps[..i];
  }

  /** Where a stream comes from: it was there, or was just admitted, or has just found its exposure. */
  lemma StreamBefore(n: Node, step: Step, k: StreamId)
    requires Inv(n) && Enabled(n, step) && k in Next(n, step).streams
    ensures var st := Next(n, step).streams[k];
            if k in n.streams then
              || st == n.streams[k]
              || (step == Admit(k, true) && n.streams[k] == st.(grant := None)
                  && st.grant.Some? && GrantedBy(n, st.exposure, st.peer, st.grant.value))
            else
              && step == Lookup(k, st.service, st.peer) && st.grant.None?
              && LiveOf(n, st.service) == Some(st.exposure)
  {
  }

  /**
   In every run, a stream that holds a grant was given it while its peer was in the fleet and on its
   exposure's grant list, and had found that exposure under its service's name before.
   */
  lemma {:induction false} GrantsComeFromAdmission(n: Node, steps: seq<Step>, k: StreamId)
    requires Start(n) && Allowed(n, steps) && k in Run(n, steps).streams
    ensures var st := Run(n, steps).streams[k];
            && (st.grant.Some? ==> exists i :: 0 <= i < |steps| && AdmittedAt(n, steps, i, k, st))
            && exists i :: 0 <= i < |steps| && FoundAt(n, steps, i, k, st)
  {
    var m := |steps| - 1;
    var before, step, st := Run(n, steps[..m]), steps[m], Run(n, steps).streams[k];
    RunKeepsInv(n, steps[..m]);
    StreamBefore(before, step, k);
    if k in before.streams {
      GrantsComeFromAdmission(n, steps[..m], k);
      var was := before.streams[k];
      var f :| 0 <= f < m && FoundAt(n, steps[..m], f, k, was);
      EarlierAdmission(n, steps, k, was, f);
      assert FoundAt(n, steps, f, k, st);
      if was.grant.Some? {
        var i :| 0 <= i < m && AdmittedAt(n, steps[..m], i, k, was);
        EarlierAdmission(n, steps, k, was, i);
        assert AdmittedAt(n, steps, i, k, st);
      } else if st.grant.Some? {
        assert AdmittedAt(n, steps, m, k, st);
      }
    } else {
      assert FoundAt(n, steps, m, k, st);
    }
  }

  // ---------------------------------------------------------------------------------------------
  // What callers may rely on

  /** The stream was admitted and neither of its tokens has been cancelled. */
  predicate Serving(n: Node, st: Stream) {
    st.grant.Some? && st.grant.value !in n.revoked && st.exposure !in n.cancelled
  }

  /**
   In every run, once no update is in progress: a stream still being served belongs to the exposure
   now installed under its service's name, its peer is on that exposure's grant list, and was in the
   fleet when the stream was admitted.
   */
  lemma Revocation(n: Node, steps: seq<Step>, k: StreamId)
    requires Start(n) && Allowed(n, steps) && Run(n, steps).update.None?
    requires k in Run(n, steps).streams && Serving(Run(n, steps), Run(n, steps).streams[k])
    ensures var n' := Run(n, steps);
            var st := n'.streams[k];
            && st.service in n'.live && n'.live[st.service] == st.exposure
            && GrantedBy(n', st.exposure, st.peer, st.grant.value)
            && exists i :: 0 <= i < |steps| && AdmittedAt(n, steps, i, k, st)
  {
    RunKeepsInv(n, steps);
    GrantsComeFromAdmission(n, steps, k);
  }

  /** In every run, once no update is in progress, the desired state is the live one. */
  lemma DesiredIsLive(n: Node, steps: seq<Step>, s: ServiceName)
    requires Start(n) && Allowed(n, steps) && Run(n, steps).update.None?
    ensures var n' := Run(n, steps);
            && (s in n'.desired <==> s in n'.live)
            && (s in n'.live ==> n'.live[s] in n'.exposures && n'.desired[s] == SpecOf(n'.exposures[n'.live[s]]))
  {
    RunKeepsInv(n, steps);
    assert DesiredAt(Run(n, steps), s);
  }

  /** An authorization-only update ends exactly the streams of the peers it removes. */
  lemma RetainedKeepStreams(n: Node, steps: seq<Step>, step: Step, k: StreamId)
    requires Start(n) && Allowed(n, steps) && step.DoExpose? && Enabled(Run(n, steps), step)
    requires SameShape(Run(n, steps), step.s, step.target, step.maxConnections)
    requires k in Run(n, steps).streams && Serving(Run(n, steps), Run(n, steps).streams[k])
    ensures var before := Run(n, steps);
            var st := before.streams[k];
            Serving(Next(before, step), st) <==> (st.service == step.s ==> st.peer in step.tokens)
  {
    RunKeepsInv(n, steps);
    var before := Run(n, steps);
    var st := before.streams[k];
    assert StreamOk(before, st);
    var spec := Spec(step.target, step.maxConnections, step.tokens.Keys);
    if Unchanged(before, step.s, spec) {
      assert DesiredAt(before, step.s);
    } else {
      AllowedOnStream(before, before.live[step.s], step.tokens, st);
    }
  }

  // ---------------------------------------------------------------------------------------------
  // Control calls end, and take effect

  /** The rest of a control call whose first region is over. */
  function RestOf(n: Node): seq<Step> {
    if n.update.None? then []
    else if n.update.value.displaced.Some? then [DoCancel, DoRecord]
    else [DoRecord]
  }

  lemma RunOne(n: Node, step: Step)
    requires Enabled(n, step)
    ensures Allowed(n, [step]) && Run(n, [step]) == Next(n, step)
  {
    assert [step][..0] == [];
    assert Run(n, []) == n;
  }

  lemma RunTwo(n: Node, step: Step, step': Step)
    requires Enabled(n, step) && Enabled(Next(n, step), step')
    ensures Allowed(n, [step, step']) && Run(n, [step, step']) == Next(Next(n, step), step')
  {
    RunOne(n, step);
    assert [step, step'][..1] == [step];
  }

  /** A control call in progress can end: what it displaced is cancelled and what it asked for recorded. */
  lemma CallFinishes(n: Node)
    ensures Allowed(n, RestOf(n))
    ensures var n' := Run(n, RestOf(n));
            && n'.update.None? && n'.live == n.live && n'.exposures == n.exposures && n'.streams == n.streams
            && n'.revoked == n.revoked
            && n'.cancelled == n.cancelled + (if n.update.Some? && n.update.value.displaced.Some?
                                              then {n.update.value.displaced.value} else {})
  {
    if n.update.None? {
      assert Run(n, []) == n;
    } else if n.update.value.displaced.Some? {
      RunTwo(n, DoCancel, DoRecord);
    } else {
      RunOne(n, DoRecord);
    }
  }

  /** What is live under a name: the target, the limit and the peers with a grant. */
  ghost predicate Serves(n: Node, s: ServiceName, spec: Option<Spec>) {
    if spec.None? then s !in n.live
    else
      && s in n.live && n.live[s] in n.exposures
      && n.exposures[n.live[s]].target == spec.value.target
      && n.exposures[n.live[s]].maxConnections == spec.value.maxConnections
      && n.exposures[n.live[s]].grants.Keys == spec.value.peers
  }

  /**
   In every run: once `expose` or `unexpose` has ended, its service is served as asked, every other
   service as before, and what `unexpose` took away serves no stream.
   */
  lemma CallsTakeEffect(n: Node, steps: seq<Step>, step: Step, s: ServiceName)
    requires Start(n) && Allowed(n, steps) && (step.DoExpose? || step.DoUnexpose?) && Enabled(Run(n, steps), step)
    ensures var before := Run(n, steps);
            var first := Next(before, step);
            Allowed(first, RestOf(first)) &&
            var after := Run(first, RestOf(first));
            && after.update.None?
            && (step.DoExpose? ==>
                  Serves(after, step.s, Some(Spec(step.target, step.maxConnections, step.tokens.Keys))))
            && (step.DoUnexpose? ==>
                  && Serves(after, step.s, None)
                  && forall k :: k in after.streams && after.streams[k].service == step.s ==>
                       !Serving(after, after.streams[k]))
            && (s != step.s ==>
                  forall spec: Option<Spec> :: Serves(before, s, spec) ==> Serves(after, s, spec))
  {
    var before := Run(n, steps);
    var first := Next(before, step);
    RunKeepsInv(n, steps);
    CallFinishes(first);
    assert DesiredAt(before, step.s);
    var after := Run(first, RestOf(first));
    if step.DoUnexpose? {
      forall k | k in after.streams && after.streams[k].service == step.s ensures !Serving(after, after.streams[k]) {
        assert StreamOk(before, before.streams[k]);
      }
    }
  }

  // ---------------------------------------------------------------------------------------------
  // The control calls, start to finish

  /** A request as it arrives: names, targets, limits and peer ids that do not parse are `None`. */
  datatype Request = Request(service: Option<ServiceName>, target: Option<Target>, maxConnections: Option<nat>,
                             peers: seq<Option<PeerId>>)

  predicate Parses(r: Request) {
    && r.service.Some? && r.target.Some? && r.maxConnections.Some?
    && forall i :: 0 <= i < |r.peers| ==> r.peers[i].Some?
  }

  class Daemon {
    var node: Node

    constructor ()
      ensures Start(node)
    {
      node := Node(map[], map[], {}, {}, {}, map[], map[], None);
    }

    /** One fresh token per distinct peer, or the first peer id that does not parse. */
    method MakeTokens(peers: seq<Option<PeerId>>, first: Token) returns (r: Result<map<PeerId, Token>>)
      ensures r.Err? <==> exists i :: 0 <= i < |peers| && peers[i].None?
      ensures r.Ok? ==> forall p :: p in r.value <==> Some(p) in peers
      ensures r.Ok? ==> forall p, q :: p in r.value && q in r.value && r.value[p] == r.value[q] ==> p == q
      ensures r.Ok? ==> forall p :: p in r.value ==> r.value[p] >= first
    {
      var tokens: map<PeerId, Token> := map[];
      var i := 0;
      while i < |peers|
        invariant 0 <= i <= |peers|
        invariant forall j :: 0 <= j < i ==> peers[j].Some?
        invariant forall p :: p in tokens <==> Some(p) in peers[..i]
        invariant forall p :: p in tokens ==> first <= tokens[p] < first + i
        invariant forall p, q :: p in tokens && q in tokens && tokens[p] == tokens[q] ==> p == q
      {
        if peers[i].None? {
          return Err("invalid EndpointId");
        }
        tokens := tokens[peers[i].value := first + i];
        i := i + 1;
      }
      assert peers[..i] == peers;
      return Ok(tokens);
    }

    /** Replaces one exposure's grants: kept peers keep their token, the others' tokens are cancelled. */
    method SetAllowedPeers(e: ExposureId, peers: seq<PeerId>, tokens: map<PeerId, Token>)
      requires e in node.exposures && forall p :: p in peers <==> p in tokens
      modifies this
      ensures node == SetAllowed(old(node), e, tokens)
    {
      ghost var before := node.exposures[e].grants;
      var current := node.exposures[e].grants;
      var next: map<PeerId, Token> := map[];
      var i := 0;
      while i < |peers|
        invariant 0 <= i <= |peers|
        invariant forall p :: p in next <==> p in peers[..i]
        invariant forall p :: p in next ==> p in tokens && next[p] == NextGrants(before, tokens)[p]
        invariant forall p :: p in current <==> p in before && p !in peers[..i]
        invariant forall p :: p in current ==> current[p] == before[p]
      {
        assert peers[i] in peers;
        if peers[i] !in next {
          next := next[peers[i] := if peers[i] in current then current[peers[i]] else tokens[peers[i]]];
          current := current - {peers[i]};
        }
        i := i + 1;
      }
      assert peers[..i] == peers;
      assert next == NextGrants(before, tokens);
      assert current.Values == Dropped(before, tokens);
      node := node.(exposures := node.exposures[e := node.exposures[e].(grants := next)],
                    revoked := node.revoked + current.Values, issued := node.issued + tokens.Values);
    }

    /** `first` is above every token issued so far and `e` is a new identity. A bad request changes nothing. */
    method Expose(r: Request, first: Token, e: ExposureId, listed: seq<PeerId>)
      returns (changed: Result<bool>, ghost tokens: map<PeerId, Token>)
      requires node.update.None? && e !in node.exposures && forall t :: t in node.issued ==> t < first
      requires forall p :: p in listed <==> Some(p) in r.peers
      modifies this
      ensures changed.Err? <==> !Parses(r)
      ensures changed.Err? <==> r.service.None? || r.target.None? || r.maxConnections.None? || None in r.peers
      ensures changed.Err? ==> node == old(node)
      ensures changed.Ok? ==> Fresh(old(node), tokens) && forall p :: p in tokens <==> Some(p) in r.peers
      ensures changed.Ok? ==>
                var s, target, limit := r.service.value, r.target.value, r.maxConnections.value;
                && (changed.value <==> !Unchanged(old(node), s, Spec(target, limit, tokens.Keys)))
                && node == Record(CancelDisplaced(Exposed(old(node), s, target, limit, tokens, e)))
    {
      tokens := map[];
      if r.service.None? || r.target.None? || r.maxConnections.None? {
        return Err("bad request"), tokens;
      }
      var s, target, limit := r.service.value, r.target.value, r.maxConnections.value;
      var made := MakeTokens(r.peers, first);
      if made.Err? {
        return Err(made.error), tokens;
      }
      tokens := made.value;
      var spec := Spec(target, limit, made.value.Keys);
      if s in node.desired && node.desired[s] == spec {
        return Ok(false), tokens;
      }
      if SameShape(node, s, target, limit) {
        SetAllowedPeers(node.live[s], listed, made.value);
      } else {
        var displaced := LiveOf(node, s);
        node := Install(node, s, e, Exposure(target, limit, made.value));
        if displaced.Some? {
          node := node.(cancelled := node.cancelled + {displaced.value});
        }
      }
      node := node.(desired := node.desired[s := spec]);
      return Ok(true), tokens;
    }

    method Unexpose(s: ServiceName) returns (changed: bool)
      requires node.update.None?
      modifies this
      ensures changed <==> s in old(node).live
      ensures node == Record(CancelDisplaced(Withdrawn(old(node), s)))
    {
      var displaced := LiveOf(node, s);
      node := node.(live := node.live - {s});
      node := node.(desired := node.desired - {s});
      if displaced.Some? {
        node := node.(cancelled := node.cancelled + {displaced.value});
      }
      return displaced.Some?;
    }
  }
}
