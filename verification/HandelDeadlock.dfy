/** Four honest hosts and a round that never ends, whatever is delivered. */
module HandelDeadlock {
  import opened Prelude
  import opened Sorting
  import opened Partitioning
  import opened Contributions
  import opened HandelSpec
  import opened HandelSafety
  import opened HandelDissemination
  import opened HandelFairness
  import opened HandelHonest
  import opened HandelNetwork
  import opened HandelJam

  // ----- reaching a network state -----

  ghost predicate Reach(w: World, n: Net, n': Net)
    requires Addressed(w)
  {
    exists run, acts :: AllSteps(w, run, acts) && run[0] == n && run[|acts|] == n'
  }

  lemma ReachSelf(w: World, n: Net)
    requires Addressed(w)
    ensures Reach(w, n, n)
  {
    assert AllSteps(w, [n], []) && [n][0] == n;
  }

  lemma ReachMore(w: World, n: Net, m: Net, m': Net, act: Act)
    requires Addressed(w) && Reach(w, n, m) && NetStep(w, m, m', act)
    ensures Reach(w, n, m')
  {
    var run, acts :| AllSteps(w, run, acts) && run[0] == n && run[|acts|] == m;
    var run', acts' := run + [m'], acts + [act];
    forall t: nat | t < |acts'| ensures StepAt(w, run', acts', t) {
      if t < |acts| { assert StepAt(w, run, acts, t); }
    }
    assert AllSteps(w, run', acts') && run'[0] == n && run'[|acts'|] == m';
  }

  /** A state reached in good order. */
  ghost predicate Good(w: World, start: Net, n: Net)
    requires Addressed(w)
  {
    NetOk(w, n) && Reach(w, start, n)
  }

  lemma GoodAt(w: World, start: Net, n: Net, h: nat)
    requires Addressed(w) && Good(w, start, n) && h < |w.envs|
    ensures |n.nodes| == |w.envs| && NodeOk(w, h, n.nodes[h]) && Inv(w.envs[h], n.nodes[h])
  {
    assert OkAt(w, n.nodes, h);
  }

  lemma StepGood(w: World, start: Net, n: Net, n': Net, act: Act)
    requires WellFormed(w) && Good(w, start, n) && NetStep(w, n, n', act)
    ensures Good(w, start, n')
  {
    NetStepOk(w, n, n', act);
    ReachMore(w, start, n, n', act);
  }

  lemma DeliverTo(w: World, start: Net, n: Net, h: nat, j: nat, m: Message) returns (n': Net)
    requires WellFormed(w) && Good(w, start, n) && h < |w.envs| && j < |w.envs| && Packet(j, w.envs[0].pp.peers[h], m) in n.sent
    ensures |n.nodes| == |w.envs| && Inv(w.envs[h], n.nodes[h]) && Deliverable(w.envs[h], n.nodes[h], w.envs[0].pp.peers[j], m)
    ensures Good(w, start, n') && NodeOk(w, h, n.nodes[h]) && HonestMessage(w, m)
    ensures n' == Net(n.nodes[h := Inject(w.envs[h], n.nodes[h], w.envs[0].pp.peers[j], m)], n.sent)
  {
    var from := w.envs[0].pp.peers[j];
    GoodAt(w, start, n, h);
    InjectHonest(w, h, n.nodes[h], j, m);
    n' := Net(n.nodes[h := Inject(w.envs[h], n.nodes[h], from, m)], n.sent);
    assert WasSent(w, n, h, from, m);
    StepGood(w, start, n, n', Act(h, Deliver(from, m)));
  }

  lemma TickStep(w: World, n: Net, h: nat, disseminate: bool, activate: bool)
    requires Addressed(w) && h < |w.envs| == |n.nodes| && Inv(w.envs[h], n.nodes[h])
    ensures
      var n' := Net(n.nodes[h := Tick(w.envs[h], n.nodes[h], disseminate, activate)], n.sent);
      NetStep(w, n, n', Act(h, Poll(disseminate, activate, false)))
  {
  }

  lemma TickAt(w: World, start: Net, n: Net, h: nat, disseminate: bool, activate: bool) returns (n': Net)
    requires WellFormed(w) && Good(w, start, n) && h < |w.envs|
    ensures Good(w, start, n') && |n.nodes| == |w.envs| && Inv(w.envs[h], n.nodes[h])
    ensures n' == Net(n.nodes[h := Tick(w.envs[h], n.nodes[h], disseminate, activate)], n.sent)
  {
    GoodAt(w, start, n, h);
    n' := Net(n.nodes[h := Tick(w.envs[h], n.nodes[h], disseminate, activate)], n.sent);
    TickStep(w, n, h, disseminate, activate);
    StepGood(w, start, n, n', Act(h, Poll(disseminate, activate, false)));
  }

  function PacketsOf(h: nat, outbox: seq<Envelope>): set<Packet> {
    set env | env in outbox :: Packet(h, env.to, env.message)
  }

  function Popped(n: Net, h: nat): Net
    requires h < |n.nodes| && n.nodes[h].outbox != []
  {
    var s := n.nodes[h];
    Net(n.nodes[h := s.(outbox := s.outbox[1..])], n.sent + {Packet(h, s.outbox[0].to, s.outbox[0].message)})
  }

  function Flushed(n: Net, h: nat): Net
    requires h < |n.nodes|
  {
    Net(n.nodes[h := n.nodes[h].(outbox := [])], n.sent + PacketsOf(h, n.nodes[h].outbox))
  }

  lemma FlushedOnce(n: Net, h: nat)
    requires h < |n.nodes|
    ensures if n.nodes[h].outbox == [] then Flushed(n, h) == n else Flushed(Popped(n, h), h) == Flushed(n, h)
  {
    var outbox := n.nodes[h].outbox;
    if outbox == [] {
      assert n.nodes[h := n.nodes[h].(outbox := [])] == n.nodes;
    } else {
      assert outbox == [outbox[0]] + outbox[1..];
      assert Flushed(Popped(n, h), h).sent == Flushed(n, h).sent;
    }
  }

  lemma PopStep(w: World, n: Net, h: nat)
    requires Addressed(w) && h < |w.envs| == |n.nodes| && Inv(w.envs[h], n.nodes[h]) && n.nodes[h].outbox != []
    ensures NetStep(w, n, Popped(n, h), Act(h, Poll(false, false, true)))
  {
    assert Tick(w.envs[h], n.nodes[h], false, false) == n.nodes[h];
  }

  lemma PopAt(w: World, start: Net, n: Net, h: nat)
    requires WellFormed(w) && Good(w, start, n) && h < |w.envs| == |n.nodes| && n.nodes[h].outbox != []
    ensures Good(w, start, Popped(n, h))
  {
    GoodAt(w, start, n, h);
    PopStep(w, n, h);
    StepGood(w, start, n, Popped(n, h), Act(h, Poll(false, false, true)));
  }

  /** All a host has queued is handed to the network. */
  lemma {:induction false} Flush(w: World, start: Net, n: Net, h: nat)
    requires WellFormed(w) && Good(w, start, n) && h < |w.envs| == |n.nodes|
    ensures Good(w, start, Flushed(n, h))
    decreases |n.nodes[h].outbox|
  {
    FlushedOnce(n, h);
    if n.nodes[h].outbox != [] {
      PopAt(w, start, n, h);
      Flush(w, start, Popped(n, h), h);
    }
  }

  // ----- the four hosts -----

  /** Two pairs, `a` with `b` and `c` with `d`: `b` would contact `d` first, and `a` would contact `c` first. */
  ghost predicate Seated(w: World, a: nat, b: nat, c: nat, d: nat) {
    && WellFormed(w) && w.k == 2 && |w.envs| == 4 && a < 4 && b < 4 && c < 4 && d < 4
    && w.envs[0].conf.threshold == Threshold(3, 4) && w.envs[0].conf.fastPathWindow == 1
    && AtLevel(b, a, 1) && AtLevel(b, c, 2)
    && (forall i: nat :: i < 4 ==> |w.envs[i].pp.cvp| == 3)
    && w.envs[a].pp.cvp[1] == [b] && w.envs[a].pp.cvp[2] == [c, d] && w.envs[b].pp.cvp[2] == [d, c]
  }

  /** The world of two of the hosts. */
  function Only(w: World, x: nat, y: nat): World
    requires x in w.truth && y in w.truth
  {
    w.(truth := map[x := w.truth[x], y := w.truth[y]])
  }

  lemma OnlyIsPart(w: World, x: nat, y: nat)
    requires x in w.truth && y in w.truth
    ensures Part(Only(w, x, y).truth, w.truth) && |Only(w, x, y).truth| <= 2
    ensures Part(OwnOf(w, x), Only(w, x, y).truth) && Part(OwnOf(w, y), Only(w, x, y).truth)
    ensures OwnOf(Only(w, x, y), x) == OwnOf(w, x)
  {
    var t := Only(w, x, y).truth;
    assert t.Keys == {x, y};
    SupersetSize({x, y}, {x, y});
    assert |t| == |t.Keys|;
  }

  // ----- the early host: it starts level 2 before it has heard anything -----

  ghost predicate Early(w: World, v: World, a: nat, s: State) {
    && Honest(v, a, s) && |s.levels| == |s.pending| == 3 && s.completedLevels == map[] && s.pending[2] == map[]
    && (forall l: nat :: l < 3 && s.levels[l].Some? ==>
          s.levels[l].value.best.contribution == OwnOf(w, a) && (s.levels[l].value.completed <==> l == 0))
    && s.levels[0].Some? && s.levels[1].Some?
  }

  lemma EarlyStarts(w: World, v: World, a: nat)
    requires a < |w.envs| && v.envs == w.envs && a in v.truth && OwnOf(v, a) == OwnOf(w, a)
    requires |w.envs[a].pp.vp| == 3 && w.envs[a].conf.initialWindow >= |w.envs|
    ensures
      var s := Initial(w.envs[a], OwnOf(w, a));
      Early(w, v, a, s) && s.levels[2].None? && s.outbox == []
  {
    InitialHonest(v, a);
  }

  /** A dissemination of the early host sends its own contribution on to the next peer of each level. */
  lemma EarlyTurns(w: World, v: World, e: Env, a: nat, s: State)
    requires Inv(e, s) && Early(w, v, a, s) && |e.pp.cvp| == 3 == v.k + 1
    ensures AllContactable(e, s)
    ensures
      var s' := DisseminateFrom(e, s, 1);
      Early(w, v, a, s') && SameBests(s.levels, s'.levels)
  {
    InvContactable(e, s);
    RoundHonest(v, a, e, s, 1);
    var s' := DisseminateFrom(e, s, 1);
    forall l: nat | l < 3 && s'.levels[l].Some?
      ensures s'.levels[l].value.best.contribution == OwnOf(w, a) && (s'.levels[l].value.completed <==> l == 0)
    {
      assert s.levels[l].Some?;
    }
    assert s'.levels[0].Some? && s'.levels[1].Some?;
  }

  /** With no reports the next contact is the next position. */
  lemma NextUnreported(peers: seq<nat>, l: nat, next: nat)
    requires next < |peers|
    ensures NextContact(DoneAt(peers, map[], l), if next == 0 then None else Some(next - 1)) == Some(next)
  {
    var done := DoneAt(peers, map[], l);
    assert forall i :: 0 <= i < |done| ==> !done[i];
  }

  lemma EarlyContacts(w: World, v: World, e: Env, a: nat, s: State, l: nat, next: nat)
    requires Inv(e, s) && Early(w, v, a, s) && |e.pp.cvp| == 3 && 0 < l < 3 && s.levels[l].Some?
    requires next < |e.pp.cvp[l]| && e.pp.cvp[l][next] < |e.pp.peers|
    requires s.levels[l].value.lastContacted == (if next == 0 then None else Some(next - 1))
    ensures AllContactable(e, s)
    ensures
      var s' := DisseminateFrom(e, s, 1);
      && |s'.levels| == 3 && s'.levels[l].Some? && s'.levels[l].value.lastContacted == Some(next)
      && Envelope(e.pp.peers[e.pp.cvp[l][next]], OwnMessage(w, a, l)) in s'.outbox
  {
    InvContactable(e, s);
    NextUnreported(e.pp.cvp[l], l, next);
    RoundTurns(e, s, 1, l);
    assert NextAt(e, s, l) == Some(next);
    assert TurnEnvelope(e, s, l, next) == Envelope(e.pp.peers[e.pp.cvp[l][next]], OwnMessage(w, a, l));
  }

  lemma EarlyActivates(w: World, v: World, e: Env, a: nat, s: State)
    requires Inv(e, s) && Early(w, v, a, s) && s.levels[2].None? && e.pp.vp[2] != []
    ensures
      var s' := ActivateNext(e, s);
      Early(w, v, a, s') && s'.levels[2].Some? && s'.levels[2].value.lastContacted.None? && s'.outbox == s.outbox
  {
    assert NextNonActive(s.levels) == Some(2);
    ActivateHonest(v, a, e, s, 2);
    ActivateShape(e, s, 2);
  }

  lemma FlushQuiet(v: World, n: Net, h: nat, l: nat, group: set<PeerId>)
    requires h < |n.nodes| && QuietSent(v, l, group, n.sent) && Quiet(v, l, group, n.nodes[h].outbox)
    ensures QuietSent(v, l, group, Flushed(n, h).sent) && n.sent <= Flushed(n, h).sent
  {
  }

  /** The network with one node replaced. */
  ghost predicate OnlyMoved(n: Net, n': Net, h: nat) {
    h < |n.nodes| == |n'.nodes| && n'.nodes == n.nodes[h := n'.nodes[h]] && n.sent <= n'.sent
  }

  lemma MovedTwice(n: Net, m: Net, n': Net, h: nat)
    requires OnlyMoved(n, m, h) && OnlyMoved(m, n', h)
    ensures OnlyMoved(n, n', h)
  {
  }

  /** The early host disseminates and its messages go out. */
  lemma EarlyRound(w: World, v: World, start: Net, n: Net, a: nat, group: set<PeerId>) returns (n': Net)
    requires WellFormed(w) && Good(w, start, n) && a < |w.envs| == |n.nodes| && |w.envs[a].pp.cvp| == 3 == v.k + 1
    requires Early(w, v, a, n.nodes[a]) && n.nodes[a].outbox == [] && QuietSent(v, 2, group, n.sent)
    ensures Good(w, start, n') && OnlyMoved(n, n', a) && QuietSent(v, 2, group, n'.sent)
    ensures Early(w, v, a, n'.nodes[a]) && n'.nodes[a].outbox == [] && SameBests(n.nodes[a].levels, n'.nodes[a].levels)
    ensures Inv(w.envs[a], n.nodes[a]) && AllContactable(w.envs[a], n.nodes[a])
    ensures
      var s' := DisseminateFrom(w.envs[a], n.nodes[a], 1);
      n'.nodes[a].levels == s'.levels && PacketsOf(a, s'.outbox) <= n'.sent
  {
    var n1 := TickAt(w, start, n, a, true, false);
    EarlyTurns(w, v, w.envs[a], a, n.nodes[a]);
    Flush(w, start, n1, a);
    FlushQuiet(v, n1, a, 2, group);
    n' := Flushed(n1, a);
  }

  lemma SentPacket(h: nat, outbox: seq<Envelope>, env: Envelope)
    requires env in outbox
    ensures Packet(h, env.to, env.message) in PacketsOf(h, outbox)
  {
  }

  /** A round in which level `l` turns to its peer `next`. */
  lemma EarlyRoundAt(w: World, v: World, start: Net, n: Net, a: nat, group: set<PeerId>, l: nat, next: nat) returns (n': Net)
    requires WellFormed(w) && Good(w, start, n) && a < |w.envs| == |n.nodes| && |w.envs[a].pp.cvp| == 3 == v.k + 1
    requires Early(w, v, a, n.nodes[a]) && n.nodes[a].outbox == [] && QuietSent(v, 2, group, n.sent)
    requires 0 < l < 3 && n.nodes[a].levels[l].Some? && next < |w.envs[a].pp.cvp[l]| && w.envs[a].pp.cvp[l][next] < |w.envs|
    requires n.nodes[a].levels[l].value.lastContacted == (if next == 0 then None else Some(next - 1))
    ensures Good(w, start, n') && OnlyMoved(n, n', a) && QuietSent(v, 2, group, n'.sent)
    ensures Early(w, v, a, n'.nodes[a]) && n'.nodes[a].outbox == [] && SameBests(n.nodes[a].levels, n'.nodes[a].levels)
    ensures n'.nodes[a].levels[l].Some? && n'.nodes[a].levels[l].value.lastContacted == Some(next)
    ensures Packet(a, w.envs[0].pp.peers[w.envs[a].pp.cvp[l][next]], OwnMessage(w, a, l)) in n'.sent
  {
    var e, s := w.envs[a], n.nodes[a];
    n' := EarlyRound(w, v, start, n, a, group);
    KnownPeer(w, a, e.pp.cvp[l][next]);
    assert e.pp.peers == w.envs[0].pp.peers by { assert HostFits(w, a); }
    EarlyContacts(w, v, e, a, s, l, next);
    SentPacket(a, DisseminateFrom(e, s, 1).outbox, Envelope(e.pp.peers[e.pp.cvp[l][next]], OwnMessage(w, a, l)));
  }

  lemma EarlyStartsTop(w: World, v: World, start: Net, n: Net, a: nat) returns (n': Net)
    requires WellFormed(w) && Good(w, start, n) && a < |w.envs| == |n.nodes| && w.k == 2
    requires Early(w, v, a, n.nodes[a]) && n.nodes[a].outbox == [] && n.nodes[a].levels[2].None?
    ensures Good(w, start, n') && OnlyMoved(n, n', a) && n'.sent == n.sent
    ensures Early(w, v, a, n'.nodes[a]) && n'.nodes[a].outbox == []
    ensures n'.nodes[a].levels[2].Some? && n'.nodes[a].levels[2].value.lastContacted.None?
  {
    n' := TickAt(w, start, n, a, false, true);
    LevelNotEmpty(w, a, 2);
    EarlyActivates(w, v, w.envs[a], a, n.nodes[a]);
  }

  /** It sends its contribution to its partner and starts the top level. */
  lemma EarlyOpens(w: World, v: World, start: Net, n: Net, a: nat, b: nat, group: set<PeerId>) returns (n': Net)
    requires WellFormed(w) && Good(w, start, n) && a < |w.envs| == |n.nodes| && |w.envs[a].pp.cvp| == 3 == v.k + 1 && w.k == 2
    requires Early(w, v, a, n.nodes[a]) && n.nodes[a].outbox == [] && QuietSent(v, 2, group, n.sent)
    requires w.envs[a].pp.cvp[1] == [b] && b < |w.envs|
    requires n.nodes[a].levels[2].None? && n.nodes[a].levels[1].value.lastContacted.None?
    ensures Good(w, start, n') && OnlyMoved(n, n', a) && QuietSent(v, 2, group, n'.sent)
    ensures Early(w, v, a, n'.nodes[a]) && n'.nodes[a].outbox == []
    ensures n'.nodes[a].levels[2].Some? && n'.nodes[a].levels[2].value.lastContacted.None?
    ensures Packet(a, w.envs[0].pp.peers[b], OwnMessage(w, a, 1)) in n'.sent
  {
    var n1 := EarlyRoundAt(w, v, start, n, a, group, 1, 0);
    n' := EarlyStartsTop(w, v, start, n1, a);
    MovedTwice(n, n1, n', a);
  }

  /** Then it sends to both hosts across. */
  lemma EarlySends(w: World, v: World, start: Net, n: Net, a: nat, c: nat, d: nat, group: set<PeerId>) returns (n': Net)
    requires WellFormed(w) && Good(w, start, n) && a < |w.envs| == |n.nodes| && |w.envs[a].pp.cvp| == 3 == v.k + 1
    requires Early(w, v, a, n.nodes[a]) && n.nodes[a].outbox == [] && QuietSent(v, 2, group, n.sent)
    requires w.envs[a].pp.cvp[2] == [c, d] && c < |w.envs| && d < |w.envs|
    requires n.nodes[a].levels[2].Some? && n.nodes[a].levels[2].value.lastContacted.None?
    ensures Good(w, start, n') && OnlyMoved(n, n', a) && QuietSent(v, 2, group, n'.sent)
    ensures Early(w, v, a, n'.nodes[a]) && n'.nodes[a].levels[2].Some? && n'.nodes[a].outbox == []
    ensures Packet(a, w.envs[0].pp.peers[d], OwnMessage(w, a, 2)) in n'.sent
  {
    var n1 := EarlyRoundAt(w, v, start, n, a, group, 2, 0);
    n' := EarlyRoundAt(w, v, start, n1, a, group, 2, 1);
    MovedTwice(n, n1, n', a);
  }

  /** Where the early host ends up: the top level open with its own contribution, which is under way. */
  ghost predicate EarlyDone(w: World, n: Net, a: nat, b: nat, c: nat, d: nat)
    requires Addressed(w) && b < |w.envs| && d < |w.envs| && a in w.truth && c in w.truth
  {
    && a < |n.nodes| && Early(w, Only(w, a, c), a, n.nodes[a]) && n.nodes[a].levels[2].Some? && n.nodes[a].outbox == []
    && Packet(a, w.envs[0].pp.peers[b], OwnMessage(w, a, 1)) in n.sent
    && Packet(a, w.envs[0].pp.peers[d], OwnMessage(w, a, 2)) in n.sent
  }

  lemma EarlyPhase(w: World, start: Net, n: Net, a: nat, b: nat, c: nat, d: nat, group: set<PeerId>) returns (n': Net)
    requires Seated(w, a, b, c, d) && Good(w, start, n) && |n.nodes| == 4 && |w.envs[a].pp.vp| == 3
    requires n.nodes[a] == Initial(w.envs[a], OwnOf(w, a)) && a in w.truth && c in w.truth
    requires QuietSent(Only(w, a, c), 2, group, n.sent)
    ensures Good(w, start, n') && OnlyMoved(n, n', a) && QuietSent(Only(w, a, c), 2, group, n'.sent)
    ensures EarlyDone(w, n', a, b, c, d)
  {
    var v := Only(w, a, c);
    OnlyIsPart(w, a, c);
    assert HostFits(w, a);
    EarlyStarts(w, v, a);
    var n1 := EarlyOpens(w, v, start, n, a, b, group);
    n' := EarlySends(w, v, start, n1, a, c, d, group);
    MovedTwice(n, n1, n', a);
  }

  // ----- the late host: it completes level 1 first -----

  /** The top level has just started from a completed level 1, knowing nothing of `c`. */
  ghost predicate Late(s: State, c: nat) {
    && |s.levels| == |s.pending| == 3 && s.levels[2].Some? && !s.levels[2].value.completed
    && s.levels[2].value.lastContacted.None? && s.pending[2] == map[] && s.completedLevels == map[]
    && |s.levels[2].value.best.contribution| >= 2 && c !in s.levels[2].value.best.contribution
    && (forall env :: env in s.outbox ==> env.message.level != 2)
  }

  // ----- the first message: level 1 completes and the top level starts -----

  lemma LateOpens(e: Env, t: State, c: nat)
    requires Indexed(e, t) && |t.levels| == 3 && t.levels[1].Some? && t.levels[2].None? && t.pending[2] == map[]
    requires |t.levels[1].value.best.contribution| >= 2 && c !in t.levels[1].value.best.contribution
    requires t.completedLevels == map[] && t.outbox == [] && e.pp.cvp[1] != [] && e.pp.vp[2] != []
    ensures Late(TryActivate(e, RunFastPath(e, t, 1), 2), c)
  {
    var lvl := t.levels[1].value;
    var targets := FastPathTargets(e.pp.cvp[1], t.completedLevels, 1, Offset(lvl.lastContacted), e.conf.fastPathWindow);
    SendAllTo(e, targets, Message(1, OwnContribution(t), lvl.best.contribution, false));
    ActivateShape(e, RunFastPath(e, t, 1), 2);
  }

  /** The late host after the early host's first message, before it aggregates. */
  function Told(w: World, b: nat, a: nat): State
    requires b < |w.envs| && |w.envs[b].pp.vp| == 3
  {
    Holding(Initial(w.envs[b], OwnOf(w, b)), a, 1, OwnOf(w, a))
  }

  lemma ToldOk(w: World, b: nat, a: nat)
    requires WellFormed(w) && b < |w.envs| && a < |w.envs| && w.k == 2 && a in w.truth
    ensures |w.envs[b].pp.vp| == 3 && NodeOk(w, b, Told(w, b, a))
    ensures
      HandleContribution(w.envs[b], Initial(w.envs[b], OwnOf(w, b)), w.envs[0].pp.peers[a], OwnMessage(w, a, 1)) ==
        (Told(w, b, a), true)
  {
    InitialNodeOk(w, b);
    var s0 := Initial(w.envs[b], OwnOf(w, b));
    LevelCount(w, b, s0);
    KnownPeer(w, b, a);
    StoresOwn(w.envs[b], s0, w.envs[0].pp.peers[a], a, 1, OwnOf(w, a));
    StoredHonest(w, b, s0, a, OwnMessage(w, a, 1));
  }

  lemma ToldShape(w: World, b: nat, a: nat)
    requires b < |w.envs| && |w.envs[b].pp.vp| == 3 && b in w.truth
    ensures
      var s := Told(w, b, a);
      && |s.levels| == |s.pending| == 3 && s.levels[1] == Some(NewLevel(Scored(1, OwnOf(w, b)), 1)) && s.levels[2].None?
      && s.pending[1] == map[a := Pending(a, OwnOf(w, a), Some(OwnOf(w, a)))] && s.pending[2] == map[]
      && s.completedLevels == map[] && s.outbox == []
  {
  }

  lemma Thresholds(t: Threshold)
    requires t == Threshold(3, 4)
    ensures t.Min(Pow2(1)) == 1 && t.Min(Pow2(2)) == 3
  {
    assert Pow2(1) == 2 && Pow2(2) == 4;
  }

  lemma LateWeighs(w: World, a: nat, b: nat)
    requires WellFormed(w) && a < |w.envs| && b < |w.envs| && AtLevel(b, a, 1) && a != b
    requires |w.envs[b].pp.vp| == 3 && NodeOk(w, b, Told(w, b, a))
    ensures |Told(w, b, a).levels| == |Told(w, b, a).pending| == 3 && Told(w, b, a).levels[1].Some?
    ensures |Aggregate(w.envs[b], Told(w, b, a), 1, Told(w, b, a).levels[1].value).1.best.contribution| >= 2
  {
    assert a in w.truth && b in w.truth;
    ToldShape(w, b, a);
    AggregatesOne(w, b, Told(w, b, a), a, 1);
  }

  lemma LateKnowsOwnSide(w: World, a: nat, b: nat, c: nat)
    requires WellFormed(w) && a < |w.envs| && b < |w.envs| && c != a && c != b
    requires |w.envs[b].pp.vp| == 3 && Inv(w.envs[b], Told(w, b, a)) && b in w.truth && a in w.truth
    ensures |Told(w, b, a).levels| == |Told(w, b, a).pending| == 3 && Told(w, b, a).levels[1].Some?
    ensures c !in Aggregate(w.envs[b], Told(w, b, a), 1, Told(w, b, a).levels[1].value).1.best.contribution
  {
    var u := Only(w, b, a);
    OnlyIsPart(w, b, a);
    ToldShape(w, b, a);
    assert HostFits(w, b);
    PartVerifies(w.envs[b].valid, u.truth, w.truth);
    AggregateWithin(u, w.envs[b], Told(w, b, a), 1);
  }

  lemma LateFirst(w: World, a: nat, b: nat, c: nat)
    requires WellFormed(w) && w.k == 2 && a < |w.envs| && b < |w.envs| && AtLevel(b, a, 1) && a != b && c != a && c != b
    requires w.envs[b].conf.threshold == Threshold(3, 4) && |w.envs[b].pp.vp| == 3 && NodeOk(w, b, Told(w, b, a))
    ensures |Told(w, b, a).levels| == 3 && AggregationSafe(w.envs[b], Told(w, b, a), 1)
    ensures Late(RunAggregation(w.envs[b], Told(w, b, a), 1), c)
  {
    var e, s := w.envs[b], Told(w, b, a);
    assert a in w.truth && b in w.truth;
    ToldShape(w, b, a);
    AlwaysSafe(w, b, s, 1);
    LevelNotEmpty(w, b, 1);
    LevelNotEmpty(w, b, 2);
    LateWeighs(w, a, b);
    LateKnowsOwnSide(w, a, b, c);
    Thresholds(e.conf.threshold);
    LateFirstAt(e, s, c);
  }

  lemma LateFirstAt(e: Env, s: State, c: nat)
    requires Inv(e, s) && |s.levels| == 3 && s.levels[1].Some? && !s.levels[1].value.completed && s.levels[2].None?
    requires s.pending[1] != map[] && s.pending[2] == map[] && s.completedLevels == map[] && s.outbox == []
    requires e.pp.cvp[1] != [] && e.pp.vp[2] != [] && AggregationSafe(e, s, 1)
    requires var best := Aggregate(e, s, 1, s.levels[1].value).1.best.contribution; |best| >= 2 && c !in best
    requires e.conf.threshold.Min(Pow2(1)) <= 2
    ensures Late(RunAggregation(e, s, 1), c)
  {
    CompletesIff(e, s, 1);
    AggregationShape(e, s, 1);
    AggregateFrame(e, s, 1);
    AggregateOther(e, s, 1, 2);
    LateOpens(e, Aggregate(e, s, 1, s.levels[1].value).0, c);
  }

  // ----- the second message: the top level completes and reports to its first peer only -----

  /** The top level is completed and has contacted nobody. */
  ghost predicate Shut(s: State) {
    && |s.levels| == |s.pending| == 3 && LevelCompleted(s.levels[2]) && s.levels[2].value.lastContacted.None?
    && s.completedLevels == map[]
  }

  predicate IsReport(m: Message) {
    m.level == 2 && !m.contactSender
  }

  /** At the top level a report is queued for one peer, and nothing for anyone else. */
  ghost predicate ReportsOnlyTo(to: PeerId, outbox: seq<Envelope>) {
    && (exists env :: env in outbox && env.to == to && IsReport(env.message))
    && (forall env :: env in outbox && env.message.level == 2 ==> env.to == to)
  }

  lemma ReportTargets(c: nat, d: nat)
    ensures FastPathTargets([d, c], map[], 2, 0, 1) == [d]
  {
    var ts := FastPathTargets([d, c], map[], 2, 0, 1);
    forall p ensures p in ts <==> p == d {
      FastPathExact([d, c], map[], 2, 0, 1, p);
      if p == d { assert p == [d, c][WindowAt(2, 0, 0)]; }
    }
    assert d in ts;
    assert ts[0] in ts;
    if |ts| > 1 {
      assert ts[1] in ts;
      FastPathExact([d, c], map[], 2, 0, 1, d);
    }
  }

  lemma LateCloses(e: Env, t: State, c: nat, d: nat)
    requires |t.levels| == |t.pending| == 3 == |e.pp.cvp| && LevelCompleted(t.levels[2]) && t.levels[2].value.lastContacted.None?
    requires e.pp.cvp[2] == [d, c] && d < |e.pp.peers| && e.conf.fastPathWindow == 1 && t.completedLevels == map[]
    requires forall env :: env in t.outbox ==> env.message.level != 2
    ensures var s' := RunFastPath(e, t, 2); Shut(s') && ReportsOnlyTo(e.pp.peers[d], s'.outbox)
  {
    var m := Message(2, OwnContribution(t), t.levels[2].value.best.contribution, false);
    ReportTargets(c, d);
    SendAllReaches(e, [d], m);
    var s' := RunFastPath(e, t, 2);
    assert s'.outbox == t.outbox + [Envelope(e.pp.peers[d], m)];
    assert Envelope(e.pp.peers[d], m) in s'.outbox && IsReport(m);
  }

  lemma HoldingOk(w: World, b: nat, s: State, c: nat)
    requires WellFormed(w) && b < |w.envs| && c < |w.envs| && w.k == 2 && NodeOk(w, b, s) && c in w.truth
    requires |s.levels| == |s.pending| == 3 && !LevelCompleted(s.levels[2]) && s.pending[2] == map[] && s.banned == {}
    ensures HandleContribution(w.envs[b], s, w.envs[0].pp.peers[c], OwnMessage(w, c, 2)) == (Holding(s, c, 2, OwnOf(w, c)), true)
    ensures NodeOk(w, b, Holding(s, c, 2, OwnOf(w, c)))
  {
    KnownPeer(w, b, c);
    OwnMessageHonest(w, c, 2);
    var m := OwnMessage(w, c, 2);
    StoresOwn(w.envs[b], s, w.envs[0].pp.peers[c], c, 2, OwnOf(w, c));
    assert HandleContribution(w.envs[b], s, w.envs[0].pp.peers[c], m) == (Holding(s, c, 2, OwnOf(w, c)), true);
    StoredHonest(w, b, s, c, m);
  }

  /** Hearing of one more host is enough for the threshold. */
  lemma LateReaches(w: World, b: nat, s: State, c: nat)
    requires WellFormed(w) && b < |w.envs| && c < |w.envs| && AtLevel(b, c, 2) && NodeOk(w, b, s)
    requires w.envs[b].conf.threshold == Threshold(3, 4)
    requires |s.levels| == |s.pending| == 3 && s.levels[2].Some? && !s.levels[2].value.completed
    requires s.pending[2] == map[c := Pending(c, OwnOf(w, c), Some(OwnOf(w, c)))]
    requires |s.levels[2].value.best.contribution| >= 2 && c !in s.levels[2].value.best.contribution
    ensures Aggregate(w.envs[b], s, 2, s.levels[2].value).1.completed
  {
    AggregatesOne(w, b, s, c, 2);
    Thresholds(w.envs[b].conf.threshold);
    CompletesIff(w.envs[b], s, 2);
  }

  lemma LateSecond(w: World, b: nat, s: State, c: nat, d: nat)
    requires WellFormed(w) && w.k == 2 && b < |w.envs| && c < |w.envs| && d < |w.envs| && AtLevel(b, c, 2) && Late(s, c)
    requires NodeOk(w, b, Holding(s, c, 2, OwnOf(w, c))) && |w.envs[b].pp.cvp| == 3 && w.envs[b].pp.cvp[2] == [d, c]
    requires w.envs[b].conf.threshold == Threshold(3, 4) && w.envs[b].conf.fastPathWindow == 1
    requires w.envs[b].pp.peers == w.envs[0].pp.peers
    ensures AggregationSafe(w.envs[b], Holding(s, c, 2, OwnOf(w, c)), 2)
    ensures
      var s' := RunAggregation(w.envs[b], Holding(s, c, 2, OwnOf(w, c)), 2);
      Shut(s') && ReportsOnlyTo(w.envs[0].pp.peers[d], s'.outbox)
  {
    var e, s1 := w.envs[b], Holding(s, c, 2, OwnOf(w, c));
    HoldingLate(s, c, OwnOf(w, c));
    KnownPeer(w, b, d);
    AlwaysSafe(w, b, s1, 2);
    LateReaches(w, b, s1, c);
    LateSecondAt(e, s1, c, d);
  }

  lemma HoldingLate(s: State, c: nat, own: Contrib)
    requires Late(s, c)
    ensures
      var s1 := Holding(s, c, 2, own);
      && |s1.levels| == |s1.pending| == 3 && s1.levels == s.levels && s1.outbox == s.outbox && s1.completedLevels == map[]
      && s1.pending[2] == map[c := Pending(c, own, Some(own))] && s1.pending[2] != map[]
  {
    assert c in Holding(s, c, 2, own).pending[2];
  }

  lemma LateSecondAt(e: Env, s: State, c: nat, d: nat)
    requires Inv(e, s) && |s.levels| == 3 && s.levels[2].Some? && !s.levels[2].value.completed && s.levels[2].value.lastContacted.None?
    requires s.pending[2] != map[] && s.completedLevels == map[] && forall env :: env in s.outbox ==> env.message.level != 2
    requires e.pp.cvp[2] == [d, c] && d < |e.pp.peers| && e.conf.fastPathWindow == 1 && AggregationSafe(e, s, 2)
    requires Aggregate(e, s, 2, s.levels[2].value).1.completed
    ensures var s' := RunAggregation(e, s, 2); Shut(s') && ReportsOnlyTo(e.pp.peers[d], s'.outbox)
  {
    AggregationShape(e, s, 2);
    AggregateFrame(e, s, 2);
    LateCloses(e, Aggregate(e, s, 2, s.levels[2].value).0, c, d);
  }

  // ----- the reports cross -----

  lemma ReportMutes(e: Env, s: State, from: PeerId, d: nat, m: Message)
    requires Inv(e, s) && Deliverable(e, s, from, m) && Shut(s) && s.outbox == [] && IsReport(m)
    requires Position(e.pp.peers, from) == Some(d) && |e.pp.cvp[2]| > 0 && e.pp.cvp[2][0] == d
    ensures var s' := Inject(e, s, from, m); |s'.levels| == 3 && Mute(e, s', 2) && s'.outbox == []
  {
    assert ReportedComplete(ReportCompleted(s.completedLevels, d, 2), d, 2);
  }

  // ----- the late host in the network -----

  lemma SeatedLate(w: World, a: nat, b: nat, c: nat, d: nat)
    requires Seated(w, a, b, c, d)
    ensures a != b && c != a && c != b && a in w.truth && b in w.truth && c in w.truth
    ensures w.envs[b].conf == w.envs[0].conf && w.envs[b].pp.peers == w.envs[0].pp.peers && |w.envs[b].pp.vp| == 3 && |w.envs[a].pp.vp| == 3
  {
    assert HostFits(w, a) && HostFits(w, b);
  }

  lemma LateHearsPartner(w: World, start: Net, n: Net, a: nat, b: nat, c: nat, d: nat) returns (n': Net)
    requires Seated(w, a, b, c, d) && Good(w, start, n) && |n.nodes| == 4 && Packet(a, w.envs[0].pp.peers[b], OwnMessage(w, a, 1)) in n.sent
    requires |w.envs[b].pp.vp| >= 2 && n.nodes[b] == Initial(w.envs[b], OwnOf(w, b))
    ensures Good(w, start, n') && OnlyMoved(n, n', b) && n'.sent == n.sent && Late(n'.nodes[b], c)
  {
    SeatedLate(w, a, b, c, d);
    n' := DeliverTo(w, start, n, b, a, OwnMessage(w, a, 1));
    ToldOk(w, b, a);
    LateFirst(w, a, b, c);
  }

  lemma NobodyBanned(w: World, b: nat, s: State)
    requires b < |w.envs| && NodeOk(w, b, s)
    ensures s.banned == {}
  {
  }

  lemma LateInjects(w: World, a: nat, b: nat, c: nat, d: nat, s: State)
    requires Seated(w, a, b, c, d) && NodeOk(w, b, s) && Late(s, c)
    requires Inv(w.envs[b], s) && Deliverable(w.envs[b], s, w.envs[0].pp.peers[c], OwnMessage(w, c, 2))
    ensures
      var s' := Inject(w.envs[b], s, w.envs[0].pp.peers[c], OwnMessage(w, c, 2));
      Shut(s') && ReportsOnlyTo(w.envs[0].pp.peers[d], s'.outbox)
  {
    SeatedLate(w, a, b, c, d);
    NobodyBanned(w, b, s);
    HoldingOk(w, b, s, c);
    LateSecond(w, b, s, c, d);
  }

  lemma LateHearsAcross(w: World, start: Net, n: Net, a: nat, b: nat, c: nat, d: nat) returns (n': Net)
    requires Seated(w, a, b, c, d) && Good(w, start, n) && |n.nodes| == 4 && Packet(c, w.envs[0].pp.peers[b], OwnMessage(w, c, 2)) in n.sent
    requires Late(n.nodes[b], c)
    ensures Good(w, start, n') && OnlyMoved(n, n', b) && n'.sent == n.sent
    ensures Shut(n'.nodes[b]) && ReportsOnlyTo(w.envs[0].pp.peers[d], n'.nodes[b].outbox)
  {
    n' := DeliverTo(w, start, n, b, c, OwnMessage(w, c, 2));
    LateInjects(w, a, b, c, d, n.nodes[b]);
  }

  /** A report from `b` to `d` is under way. */
  ghost predicate ReportSent(w: World, n: Net, b: nat, d: nat)
    requires Addressed(w) && d < |w.envs|
  {
    exists m :: IsReport(m) && Packet(b, w.envs[0].pp.peers[d], m) in n.sent
  }

  lemma LateFlushes(w: World, v: World, start: Net, n: Net, b: nat, d: nat, group: set<PeerId>)
    requires WellFormed(w) && Good(w, start, n) && b < |w.envs| == |n.nodes| && d < |w.envs|
    requires Shut(n.nodes[b]) && ReportsOnlyTo(w.envs[0].pp.peers[d], n.nodes[b].outbox)
    requires QuietSent(v, 2, group, n.sent) && w.envs[0].pp.peers[d] !in group
    ensures
      var n' := Flushed(n, b);
      && Good(w, start, n') && OnlyMoved(n, n', b) && QuietSent(v, 2, group, n'.sent)
      && Shut(n'.nodes[b]) && n'.nodes[b].outbox == [] && ReportSent(w, n', b, d)
  {
    Flush(w, start, n, b);
    FlushQuiet(v, n, b, 2, group);
    var env :| env in n.nodes[b].outbox && env.to == w.envs[0].pp.peers[d] && IsReport(env.message);
    SentPacket(b, n.nodes[b].outbox, env);
  }

  lemma LateIsMuted(w: World, start: Net, n: Net, a: nat, b: nat, c: nat, d: nat) returns (n': Net)
    requires Seated(w, a, b, c, d) && Good(w, start, n) && |n.nodes| == 4 && ReportSent(w, n, d, b)
    requires Shut(n.nodes[b]) && n.nodes[b].outbox == []
    ensures Good(w, start, n') && OnlyMoved(n, n', b) && n'.sent == n.sent
    ensures |n'.nodes[b].levels| == 3 && Mute(w.envs[b], n'.nodes[b], 2) && n'.nodes[b].outbox == []
  {
    var m :| IsReport(m) && Packet(d, w.envs[0].pp.peers[b], m) in n.sent;
    n' := DeliverTo(w, start, n, b, d, m);
    ShutIsMuted(w, a, b, c, d, n.nodes[b], m);
  }

  lemma ShutIsMuted(w: World, a: nat, b: nat, c: nat, d: nat, s: State, m: Message)
    requires Seated(w, a, b, c, d) && Shut(s) && s.outbox == [] && IsReport(m)
    requires Inv(w.envs[b], s) && Deliverable(w.envs[b], s, w.envs[0].pp.peers[d], m)
    ensures
      var s' := Inject(w.envs[b], s, w.envs[0].pp.peers[d], m);
      |s'.levels| == 3 && Mute(w.envs[b], s', 2) && s'.outbox == []
  {
    KnownPeer(w, b, d);
    ReportMutes(w.envs[b], s, w.envs[0].pp.peers[d], d, m);
  }

  // ----- all together -----

  /** Both pairs sit like that. */
  ghost predicate FourSeats(w: World) {
    Seated(w, 0, 1, 2, 3) && Seated(w, 2, 3, 0, 1)
  }

  function Group(w: World): set<PeerId>
    requires Addressed(w) && |w.envs| == 4
  {
    {w.envs[0].pp.peers[0], w.envs[0].pp.peers[2]}
  }

  lemma OnlySwaps(w: World, x: nat, y: nat)
    requires x in w.truth && y in w.truth
    ensures Only(w, x, y) == Only(w, y, x)
  {
    assert Only(w, x, y).truth == Only(w, y, x).truth;
  }

  lemma EarlyKept(w: World, n: Net, n': Net, h: nat, a: nat, b: nat, c: nat, d: nat)
    requires Addressed(w) && b < |w.envs| && d < |w.envs| && a in w.truth && c in w.truth
    requires EarlyDone(w, n, a, b, c, d) && OnlyMoved(n, n', h) && h != a
    ensures EarlyDone(w, n', a, b, c, d)
  {
  }

  ghost predicate IsInitial(w: World, n: Net, i: nat) {
    i < |n.nodes| == |w.envs| && |w.envs[i].pp.vp| >= 2 && n.nodes[i] == Initial(w.envs[i], OwnOf(w, i))
  }

  /** Both early hosts are held and their contributions are under way. */
  ghost predicate BothEarly(w: World, n: Net)
    requires Addressed(w) && |w.envs| == 4 && 0 in w.truth && 2 in w.truth
  {
    && |n.nodes| == 4 && EarlyDone(w, n, 0, 1, 2, 3) && EarlyDone(w, n, 2, 3, 0, 1)
    && QuietSent(Only(w, 0, 2), 2, Group(w), n.sent)
  }

  lemma BothStayEarly(w: World, n: Net, n': Net, h: nat)
    requires Addressed(w) && |w.envs| == 4 && 0 in w.truth && 2 in w.truth && BothEarly(w, n)
    requires OnlyMoved(n, n', h) && h != 0 && h != 2 && QuietSent(Only(w, 0, 2), 2, Group(w), n'.sent)
    ensures BothEarly(w, n')
  {
    EarlyKept(w, n, n', h, 0, 1, 2, 3);
    EarlyKept(w, n, n', h, 2, 3, 0, 1);
  }

  ghost predicate AllInitial(w: World, n: Net) {
    IsInitial(w, n, 0) && IsInitial(w, n, 1) && IsInitial(w, n, 2) && IsInitial(w, n, 3)
  }

  lemma InitialKept(w: World, n: Net, n': Net, h: nat, i: nat)
    requires IsInitial(w, n, i) && OnlyMoved(n, n', h) && h != i
    ensures IsInitial(w, n', i)
  {
  }

  lemma FirstStage(w: World, start: Net) returns (n: Net)
    requires FourSeats(w) && Good(w, start, start) && start.sent == {} && AllInitial(w, start)
    ensures 0 in w.truth && 2 in w.truth
    ensures Good(w, start, n) && BothEarly(w, n) && IsInitial(w, n, 1) && IsInitial(w, n, 3)
  {
    SeatedLate(w, 0, 1, 2, 3);
    SeatedLate(w, 2, 3, 0, 1);
    OnlySwaps(w, 0, 2);
    var n1 := EarlyPhase(w, start, start, 0, 1, 2, 3, Group(w));
    InitialKept(w, start, n1, 0, 1);
    InitialKept(w, start, n1, 0, 2);
    InitialKept(w, start, n1, 0, 3);
    n := EarlyPhase(w, start, n1, 2, 3, 0, 1, Group(w));
    InitialKept(w, n1, n, 2, 1);
    InitialKept(w, n1, n, 2, 3);
    EarlyKept(w, n1, n, 2, 0, 1, 2, 3);
  }

  lemma SecondStage(w: World, start: Net, n0: Net) returns (n: Net)
    requires FourSeats(w) && Good(w, start, n0) && 0 in w.truth && 2 in w.truth
    requires BothEarly(w, n0) && IsInitial(w, n0, 1) && IsInitial(w, n0, 3)
    ensures Good(w, start, n) && BothEarly(w, n) && Late(n.nodes[1], 2) && Late(n.nodes[3], 0)
  {
    var n1 := LateHearsPartner(w, start, n0, 0, 1, 2, 3);
    BothStayEarly(w, n0, n1, 1);
    n := LateHearsPartner(w, start, n1, 2, 3, 0, 1);
    BothStayEarly(w, n1, n, 3);
  }

  /** Late host `b` has completed the top level and its report to `d` is under way. */
  ghost predicate Reported(w: World, n: Net, b: nat, d: nat)
    requires Addressed(w) && d < |w.envs|
  {
    b < |n.nodes| && Shut(n.nodes[b]) && n.nodes[b].outbox == [] && ReportSent(w, n, b, d)
  }

  lemma ReportedKept(w: World, n: Net, n': Net, h: nat, b: nat, d: nat)
    requires Addressed(w) && d < |w.envs| && Reported(w, n, b, d) && OnlyMoved(n, n', h) && h != b
    ensures Reported(w, n', b, d)
  {
    var m :| IsReport(m) && Packet(b, w.envs[0].pp.peers[d], m) in n.sent;
    assert Packet(b, w.envs[0].pp.peers[d], m) in n'.sent;
  }

  /** One late host hears from across, completes and reports. */
  lemma LateTurn(w: World, start: Net, n: Net, a: nat, b: nat, c: nat, d: nat) returns (n': Net)
    requires Seated(w, a, b, c, d) && Good(w, start, n) && 0 in w.truth && 2 in w.truth && BothEarly(w, n)
    requires Late(n.nodes[b], c) && Packet(c, w.envs[0].pp.peers[b], OwnMessage(w, c, 2)) in n.sent
    requires b != 0 && b != 2 && w.envs[0].pp.peers[d] !in Group(w)
    ensures Good(w, start, n') && BothEarly(w, n') && OnlyMoved(n, n', b) && Reported(w, n', b, d)
  {
    var n1 := LateHearsAcross(w, start, n, a, b, c, d);
    LateFlushes(w, Only(w, 0, 2), start, n1, b, d, Group(w));
    n' := Flushed(n1, b);
    MovedTwice(n, n1, n', b);
    BothStayEarly(w, n, n', b);
  }

  lemma LateOutside(w: World, i: nat)
    requires WellFormed(w) && |w.envs| == 4 && (i == 1 || i == 3)
    ensures w.envs[0].pp.peers[i] !in Group(w)
  {
    SamePeerIndex(w, i, 0);
    SamePeerIndex(w, i, 2);
  }

  lemma SamePeerIndex(w: World, i: nat, j: nat)
    requires WellFormed(w) && i < |w.envs| && j < |w.envs| && i != j
    ensures w.envs[0].pp.peers[i] != w.envs[0].pp.peers[j]
  {
    assert HostFits(w, 0);
  }

  lemma ThirdStage(w: World, start: Net, n0: Net) returns (n: Net)
    requires FourSeats(w) && Good(w, start, n0) && 0 in w.truth && 2 in w.truth
    requires BothEarly(w, n0) && Late(n0.nodes[1], 2) && Late(n0.nodes[3], 0)
    ensures Good(w, start, n) && BothEarly(w, n) && Reported(w, n, 1, 3) && Reported(w, n, 3, 1)
  {
    LateOutside(w, 1);
    LateOutside(w, 3);
    var n1 := LateTurn(w, start, n0, 0, 1, 2, 3);
    n := LateTurn(w, start, n1, 2, 3, 0, 1);
    ReportedKept(w, n1, n, 3, 1, 3);
  }

  ghost predicate Muted(w: World, n: Net, b: nat)
    requires b < |w.envs|
  {
    b < |n.nodes| && |n.nodes[b].levels| == 3 == |w.envs[b].pp.cvp| && Mute(w.envs[b], n.nodes[b], 2) && n.nodes[b].outbox == []
  }

  lemma FourthStage(w: World, start: Net, n0: Net) returns (n: Net)
    requires FourSeats(w) && Good(w, start, n0) && 0 in w.truth && 2 in w.truth
    requires BothEarly(w, n0) && Reported(w, n0, 1, 3) && Reported(w, n0, 3, 1)
    ensures Good(w, start, n) && BothEarly(w, n) && Muted(w, n, 1) && Muted(w, n, 3)
  {
    var n1 := LateIsMuted(w, start, n0, 0, 1, 2, 3);
    BothStayEarly(w, n0, n1, 1);
    assert ReportSent(w, n1, 1, 3);
    n := LateIsMuted(w, start, n1, 2, 3, 0, 1);
    BothStayEarly(w, n1, n, 3);
  }

  // ----- the round never ends -----

  lemma FewKnown(w: World)
    requires FourSeats(w) && 0 in w.truth && 2 in w.truth
    ensures Lesser(Only(w, 0, 2), w, 2)
  {
    OnlyIsPart(w, 0, 2);
    Thresholds(w.envs[0].conf.threshold);
    forall i: nat | i < |w.envs| ensures w.envs[i].conf == w.envs[0].conf { assert HostFits(w, i); }
  }

  lemma EarlyIsHeld(w: World, v: World, a: nat, s: State)
    requires Early(w, v, a, s) && s.levels[2].Some? && Part(OwnOf(w, a), v.truth)
    ensures Held(v, s, 2)
  {
  }

  lemma EarlyJams(w: World, v: World, s: State, a: nat)
    requires Addressed(w) && |w.envs| == 4 && (a == 0 || a == 2) && Indexed(w.envs[a], s) && |s.levels| == 3
    requires Held(v, s, 2) && s.outbox == []
    ensures JamAt(w, v, s, a, 2, Group(w))
  {
  }

  lemma LateJams(w: World, v: World, s: State, b: nat)
    requires Addressed(w) && |w.envs| == 4 && b < 4 && Indexed(w.envs[b], s) && |s.levels| == 3
    requires w.envs[0].pp.peers[b] !in Group(w) && Mute(w.envs[b], s, 2) && s.outbox == []
    ensures JamAt(w, v, s, b, 2, Group(w))
  {
  }

  lemma JamHere(w: World, start: Net, n: Net)
    requires FourSeats(w) && Good(w, start, n) && 0 in w.truth && 2 in w.truth
    requires BothEarly(w, n) && Muted(w, n, 1) && Muted(w, n, 3)
    ensures Jammed(w, Only(w, 0, 2), n, 2, Group(w))
  {
    var v := Only(w, 0, 2);
    forall i: nat | i < |w.envs| ensures JamAt(w, v, n.nodes[i], i, 2, Group(w)) {
      GoodAt(w, start, n, i);
      if i == 1 || i == 3 {
        LateOutside(w, i);
        LateJams(w, v, n.nodes[i], i);
      } else {
        OnlyIsPart(w, 0, 2);
        OnlySwaps(w, 0, 2);
        EarlyIsHeld(w, v, i, n.nodes[i]);
        EarlyJams(w, v, n.nodes[i], i);
      }
    }
  }

  lemma FourStages(w: World, start: Net) returns (n: Net)
    requires FourSeats(w) && Good(w, start, start) && start.sent == {} && AllInitial(w, start)
    ensures 0 in w.truth && 2 in w.truth && Reach(w, start, n) && Jammed(w, Only(w, 0, 2), n, 2, Group(w))
  {
    var n1 := FirstStage(w, start);
    var n2 := SecondStage(w, start, n1);
    var n3 := ThirdStage(w, start, n2);
    n := FourthStage(w, start, n3);
    JamHere(w, start, n);
  }

  /** Nothing the network does from here on lets the host hand out an aggregate. */
  ghost predicate NeverFinishes(w: World, n: Net, i: nat)
    requires Addressed(w)
  {
    forall run, acts, t: nat :: AllSteps(w, run, acts) && run[0] == n && t < |run| ==> Unfinished(run[t], i)
  }

  ghost predicate Unfinished(n: Net, i: nat) {
    i < |n.nodes| && n.nodes[i].levels != [] && CompleteAggregate(n.nodes[i]).None?
  }

  lemma HeldIsUnfinished(w: World, v: World, n: Net, i: nat, group: set<PeerId>)
    requires WellFormed(w) && w.k == 2 && Jammed(w, v, n, 2, group) && i < |w.envs| && w.envs[0].pp.peers[i] in group
    ensures Unfinished(n, i)
  {
    assert JamAt(w, v, n.nodes[i], i, 2, group) && HostFits(w, i);
  }

  lemma JammedNeverFinishes(w: World, v: World, n: Net, i: nat, group: set<PeerId>)
    requires WellFormed(w) && w.k == 2 && Lesser(v, w, 2) && Jammed(w, v, n, 2, group)
    requires i < |w.envs| && w.envs[0].pp.peers[i] in group
    ensures NeverFinishes(w, n, i)
  {
    forall run, acts, t: nat | AllSteps(w, run, acts) && run[0] == n && t < |run| ensures Unfinished(run[t], i) {
      JammedForever(w, v, run, acts, 2, group, t);
      HeldIsUnfinished(w, v, run[t], i, group);
    }
  }

  /** From the construction of four honest hosts a state is reached from which two of them, whatever is
      delivered and however often anyone disseminates, never end the round. */
  lemma HonestDeadlock(w: World) returns (n: Net)
    requires FourSeats(w)
    ensures forall i: nat :: i < |w.envs| ==> |w.envs[i].pp.vp| >= 2
    ensures Reach(w, Start(w), n) && NeverFinishes(w, n, 0) && NeverFinishes(w, n, 2)
  {
    StartOk(w);
    var start := Start(w);
    ReachSelf(w, start);
    n := FourStages(w, start);
    FewKnown(w);
    JammedNeverFinishes(w, Only(w, 0, 2), n, 0, Group(w));
    JammedNeverFinishes(w, Only(w, 0, 2), n, 2, Group(w));
  }

  // ----- four such hosts exist -----

  /** Priorities under which opposite hosts of equal parity come first. */
  function Parity(i: nat, j: nat): int {
    (i + j) % 2
  }

  function Across(i: nat): seq<nat> {
    if i == 0 then [2, 3] else if i == 1 then [3, 2] else if i == 2 then [0, 1] else [1, 0]
  }

  function Partner(i: nat): nat {
    if i % 2 == 0 then i + 1 else i - 1
  }

  function FourLevels(i: nat): seq<seq<nat>> {
    [[], [Partner(i)], Across(i)]
  }

  lemma AtLevelOfFour(i: nat, j: nat, l: nat)
    requires i < 4 && l < 3
    ensures AtLevel(i, j, l) && j < 4 <==> j in FourLevels(i)[l]
  {
    assert Block(i, 1) == i / 2 && Block(j, 1) == j / 2;
    assert Block(i, 2) == i / 2 / 2 && Block(j, 2) == j / 2 / 2;
  }

  function FourEnv(peers: seq<PeerId>, i: nat): Env {
    Env(Config(Threshold(3, 4), 2, 4, 1), (j: nat, value: Value) => true, Partitions(peers, FourLevels(i), FourLevels(i)), i)
  }

  function FourWorld(peers: seq<PeerId>, value: Value): World {
    World(seq(4, (i: nat) => FourEnv(peers, i)), map[0 := value, 1 := value, 2 := value, 3 := value], 2)
  }

  lemma FourPartitioned(peers: seq<PeerId>, i: nat)
    requires |peers| == 4 && i < 4
    ensures Partitioned(FourEnv(peers, i).pp, Elements(peers), i, 2)
  {
    assert Pow2(2) == 4;
    forall l: nat | l < 3 ensures HoldsLevel(FourLevels(i)[l], Elements(peers), peers, i, l) {
      forall j: nat ensures j in FourLevels(i)[l] <==> j < |peers| && peers[j] in Elements(peers) && AtLevel(i, j, l) {
        AtLevelOfFour(i, j, l);
      }
    }
  }

  lemma FourFits(peers: seq<PeerId>, value: Value, i: nat)
    requires |peers| == 4 && Distinct(peers) && i < 4
    ensures HostFits(FourWorld(peers, value), i)
  {
    FourPartitioned(peers, i);
    var w := FourWorld(peers, value);
    assert OwnOf(w, i) == map[i := value] && |map[i := value]| == 1;
    assert |FourEnv(peers, i).pp.cvp[1]| == 1;
  }

  lemma SortTwo<T>(key: T -> int, x: T, y: T)
    ensures SortByKey(key, [x, y]) == if key(x) <= key(y) then [x, y] else [y, x]
  {
    assert [x, y][1..] == [y] && [y][1..] == [];
    assert Insert(key, y, []) == [y] && Insert(key, x, []) == [x];
    assert SortByKey(key, [y]) == Insert(key, y, SortByKey(key, []));
    assert SortByKey(key, [x, y]) == Insert(key, x, [y]);
  }

  lemma SortedTwo<T>(key: T -> int, x: T, y: T)
    requires key(x) <= key(y)
    ensures Sorted(key, [x, y])
  {
    assert [x, y][1..] == [y];
  }

  lemma LevelOfFour(i: nat)
    requires i < 4
    ensures Level(i, 2) == if i < 2 then [2, 3] else [0, 1]
  {
    var first := if i < 2 then 2 else 0;
    assert Block(i, 1) == (if i < 2 then 0 else 1) && Sibling(Block(i, 1)) == (if i < 2 then 1 else 0);
    assert BlockStart(Sibling(Block(i, 1)), 1) == first && Pow2(1) == 2;
    assert Range(first, first + 2) == [first, first + 1];
  }

  lemma ParityAcross(i: nat)
    requires i < 4
    ensures Parity(i, Across(i)[0]) == 0 && Parity(i, Across(i)[1]) == 1
  {
  }

  lemma RankOfFour(host: nat, pix: nat)
    requires host < 4 && pix < 4
    ensures HostRank(Parity, host, 2, pix) == Position(Across(pix), host)
  {
    LevelOfFour(pix);
    ParityAcross(pix);
    var x, y := Level(pix, 2)[0], Level(pix, 2)[1];
    assert Level(pix, 2) == [x, y];
    SortTwo(VpKey(Parity, pix), x, y);
  }

  lemma PositionOfTwo(x: nat, y: nat)
    requires x != y
    ensures Position([x, y], x) == Some(0) && Position([x, y], y) == Some(1)
  {
    assert [x, y][1..] == [y];
    assert Position([y], y) == Some(0);
  }

  /** Each host is first with the host it would contact first, and second with the other. */
  lemma PlaceAcross(i: nat)
    requires i < 4
    ensures Position(Across(Across(i)[0]), i) == Some(0) && Position(Across(Across(i)[1]), i) == Some(1)
  {
    var first, second := Across(Across(i)[0]), Across(Across(i)[1]);
    PositionOfTwo(first[0], first[1]);
    PositionOfTwo(second[0], second[1]);
    assert first == [first[0], first[1]] && second == [second[0], second[1]];
  }

  lemma RankSorted(i: nat)
    requires i < 4
    ensures Sorted(CvpKey(Parity, i, 2), Across(i))
  {
    var x, y := Across(i)[0], Across(i)[1];
    RankOfFour(i, x);
    RankOfFour(i, y);
    PlaceAcross(i);
    SortedTwo(CvpKey(Parity, i, 2), x, y);
    assert Across(i) == [x, y];
  }

  lemma AcrossSorted(i: nat)
    requires i < 4
    ensures Sorted(VpKey(Parity, i), Across(i)) && Sorted(CvpKey(Parity, i, 2), Across(i))
  {
    RankSorted(i);
    ParityAcross(i);
    SortedTwo(VpKey(Parity, i), Across(i)[0], Across(i)[1]);
    assert Across(i) == [Across(i)[0], Across(i)[1]];
  }

  lemma FourRanked(i: nat, l: nat)
    requires i < 4 && l < 3
    ensures Ranked(Parity, i, l, FourLevels(i)[l])
  {
    forall j: nat | j in FourLevels(i)[l] ensures HostRank(Parity, i, l, j).Some? {
      AtLevelOfFour(i, j, l);
      LevelMembers(i, l, j);
      HostRankExists(Parity, i, l, j);
    }
  }

  /** The order is one the partitions are built in. */
  lemma FourByPriority(i: nat)
    requires i < 4
    ensures ByPriority(Parity, i, FourLevels(i), FourLevels(i))
  {
    var levels := FourLevels(i);
    AcrossSorted(i);
    forall l: nat | l < |levels| ensures Sorted(VpKey(Parity, i), levels[l]) {
      assert l < 2 ==> |levels[l]| <= 1;
    }
    forall l: nat | l < |levels| ensures Sorted(CvpKey(Parity, i, l), levels[l]) && Ranked(Parity, i, l, levels[l]) {
      assert l < 2 ==> |levels[l]| <= 1;
      FourRanked(i, l);
    }
  }

  /** Any four peers can be seated that way. */
  lemma FourSeatsExist(peers: seq<PeerId>, value: Value)
    requires |peers| == 4 && Distinct(peers)
    ensures FourSeats(FourWorld(peers, value))
  {
    var w := FourWorld(peers, value);
    assert Pow2(2) == 4;
    forall i: nat | i < |w.envs| ensures i in w.truth && HostFits(w, i) { FourFits(peers, value, i); }
    AtLevelOfFour(1, 0, 1);
    AtLevelOfFour(1, 2, 2);
    AtLevelOfFour(3, 2, 1);
    AtLevelOfFour(3, 0, 2);
  }
}
