/** Completion reports among honest nodes are true. */
module HandelTruth {
  import opened Prelude
  import opened Partitioning
  import opened HandelSpec
  import opened HandelSafety
  import opened HandelHonest
  import opened HandelNetwork

  // ----- one node -----

  /** A message that asks for no further contact is of a completed level. */
  ghost predicate Told(levels: seq<Option<ActiveLevel>>, m: Message) {
    m.contactSender || (m.level < |levels| && LevelCompleted(levels[m.level]))
  }

  ghost predicate Truthful(levels: seq<Option<ActiveLevel>>, outbox: seq<Envelope>) {
    forall env :: env in outbox ==> Told(levels, env.message)
  }

  ghost predicate Finishing(a: seq<Option<ActiveLevel>>, b: seq<Option<ActiveLevel>>) {
    |a| == |b| && forall l: nat :: l < |a| && LevelCompleted(a[l]) ==> LevelCompleted(b[l])
  }

  lemma TruthLasts(a: seq<Option<ActiveLevel>>, b: seq<Option<ActiveLevel>>, outbox: seq<Envelope>)
    requires Truthful(a, outbox) && Finishing(a, b)
    ensures Truthful(b, outbox)
  {
  }

  lemma {:induction false} SendAllSame(e: Env, targets: seq<nat>, m: Message)
    ensures forall env :: env in SendAll(e, targets, m) ==> env.message == m
  {
    if targets != [] { SendAllSame(e, targets[1..], m); }
  }

  lemma FastPathTells(e: Env, s: State, level: nat)
    requires level < |s.levels| == |e.pp.cvp| && LevelCompleted(s.levels[level]) && Truthful(s.levels, s.outbox)
    requires e.pp.cvp[level] == [] ==> e.conf.fastPathWindow == 0
    ensures Truthful(s.levels, RunFastPath(e, s, level).outbox)
  {
    var lvl := s.levels[level].value;
    var targets := FastPathTargets(e.pp.cvp[level], s.completedLevels, level, Offset(lvl.lastContacted), e.conf.fastPathWindow);
    SendAllSame(e, targets, Message(level, OwnContribution(s), lvl.best.contribution, false));
  }

  lemma {:induction false} ActivateFinishes(e: Env, s: State, level: nat)
    requires Indexed(e, s) && level > 0
    ensures var s' := TryActivate(e, s, level); s' == s.(levels := s'.levels) && Finishing(s.levels, s'.levels)
    decreases |s.levels| - level
  {
    if level < |s.levels| && s.levels[level].None? && s.levels[level - 1].Some? && e.pp.vp[level] == [] {
      var s1 := s.(levels := s.levels[level := Some(UnitLevel(s.levels[level - 1].value.best))]);
      ActivateFinishes(e, s1, level + 1);
      assert Finishing(s.levels, s1.levels);
    }
  }

  lemma AggregationTells(e: Env, s: State, level: nat)
    requires Indexed(e, s) && level < |s.levels| && e.conf.shrinkFactor > 0 && e.conf.threshold.denom > 0
    requires AggregationSafe(e, s, level) && Truthful(s.levels, s.outbox)
    ensures
      var s' := RunAggregation(e, s, level);
      Truthful(s'.levels, s'.outbox) && s'.completedLevels == s.completedLevels
  {
    if s.levels[level].Some? && s.pending[level] != map[] {
      var (s1, lvl) := Aggregate(e, s, level, s.levels[level].value);
      assert Finishing(s.levels, s1.levels);
      TruthLasts(s.levels, s1.levels, s.outbox);
      if IsComplete(|lvl.best.contribution|, level, e.conf.threshold) {
        FastPathTells(e, s1, level);
        var s2 := RunFastPath(e, s1, level);
        ActivateFinishes(e, s2, level + 1);
        TruthLasts(s2.levels, TryActivate(e, s2, level + 1).levels, s2.outbox);
      }
    }
  }

  /** A delivery records at most the report of the message itself. */
  lemma InjectTells(e: Env, s: State, from: PeerId, m: Message)
    requires Inv(e, s) && Deliverable(e, s, from, m) && Truthful(s.levels, s.outbox)
    ensures
      var s', ix := Inject(e, s, from, m), Position(e.pp.peers, from);
      && Truthful(s'.levels, s'.outbox)
      && s'.completedLevels == (if ix.Some? && !m.contactSender then ReportCompleted(s.completedLevels, ix.value, m.level)
                                else s.completedLevels)
  {
    DeliverableIff(e, s, from, m);
    var (s1, kept) := HandleContribution(e, s, from, m);
    if kept { AggregationTells(e, s1, m.level); }
  }

  lemma TurnTells(e: Env, s: State, l: nat)
    requires 0 < l < |s.levels| == |e.pp.cvp| && AllContactable(e, s) && Truthful(s.levels, s.outbox)
    ensures var s' := DisseminateAt(e, s, l); Truthful(s'.levels, s'.outbox)
  {
    var s' := DisseminateAt(e, s, l);
    assert Finishing(s.levels, s'.levels);
    TruthLasts(s.levels, s'.levels, s.outbox);
    if s.levels[l].Some? {
      var lvl := s.levels[l].value;
      var next := NextContact(DoneAt(e.pp.cvp[l], s.completedLevels, l), lvl.lastContacted);
      if next.Some? {
        SendAllSame(e, [e.pp.cvp[l][next.value]], Message(l, OwnContribution(s), lvl.best.contribution, !lvl.completed));
      }
    }
  }

  lemma {:induction false} RoundTells(e: Env, s: State, l: nat)
    requires 0 < l <= |s.levels| == |e.pp.cvp| && AllContactable(e, s) && Truthful(s.levels, s.outbox)
    ensures var s' := DisseminateFrom(e, s, l); Truthful(s'.levels, s'.outbox)
    decreases |s.levels| - l
  {
    if l < |s.levels| {
      TurnTells(e, s, l);
      RoundTells(e, DisseminateAt(e, s, l), l + 1);
    }
  }

  lemma TickTells(e: Env, s: State, disseminate: bool, activate: bool)
    requires Inv(e, s) && Truthful(s.levels, s.outbox)
    ensures
      var s' := Tick(e, s, disseminate, activate);
      Truthful(s'.levels, s'.outbox) && s'.completedLevels == s.completedLevels
  {
    InvContactable(e, s);
    DisseminateOk(e, s, 1, {});
    RoundTells(e, s, 1);
    var s1 := if disseminate then DisseminateFrom(e, s, 1) else s;
    var next := NextNonActive(s1.levels);
    if activate && next.Some? {
      ActivateFinishes(e, s1, next.value);
      TruthLasts(s1.levels, TryActivate(e, s1, next.value).levels, s1.outbox);
    }
  }

  /** A poll records no report, and what it hands out is true. */
  lemma PollTells(e: Env, s: State, ev: Event)
    requires Inv(e, s) && ev.Poll? && Truthful(s.levels, s.outbox)
    ensures
      var s', r := Step(e, s, ev), Output(e, s, ev);
      && Truthful(s'.levels, s'.outbox) && s'.completedLevels == s.completedLevels
      && (r.Send? ==> Told(s'.levels, r.envelope.message))
  {
    TickTells(e, s, ev.disseminate, ev.activate);
  }

  // ----- the network -----

  ghost predicate OutboxesTrue(nodes: seq<State>) {
    forall i: nat :: i < |nodes| ==> Truthful(nodes[i].levels, nodes[i].outbox)
  }

  ghost predicate SentTrue(nodes: seq<State>, sent: set<Packet>) {
    forall p :: p in sent ==> p.from < |nodes| && Told(nodes[p.from].levels, p.message)
  }

  /** The host has completed the level. */
  ghost predicate HasCompleted(nodes: seq<State>, i: nat, l: nat) {
    i < |nodes| && l < |nodes[i].levels| && LevelCompleted(nodes[i].levels[l])
  }

  ghost predicate ReportsTrue(nodes: seq<State>, done: map<nat, set<nat>>) {
    forall p, l :: ReportedComplete(done, p, l) ==> HasCompleted(nodes, p, l)
  }

  ghost predicate AllReportsTrue(nodes: seq<State>) {
    forall i: nat :: i < |nodes| ==> ReportsTrue(nodes, nodes[i].completedLevels)
  }

  ghost predicate NetTrue(n: Net) {
    OutboxesTrue(n.nodes) && SentTrue(n.nodes, n.sent) && AllReportsTrue(n.nodes)
  }

  lemma GrowsFinishes(a: State, b: State)
    requires Grows(a, b)
    ensures Finishing(a.levels, b.levels)
  {
    forall l: nat | l < |a.levels| && LevelCompleted(a.levels[l]) ensures LevelCompleted(b.levels[l]) {
      assert LevelGrows(a.levels[l], b.levels[l]);
    }
  }

  lemma CompletedLasts(a: seq<State>, b: seq<State>, i: nat, l: nat)
    requires AllGrow(a, b) && HasCompleted(a, i, l)
    ensures HasCompleted(b, i, l)
  {
    GrowsFinishes(a[i], b[i]);
  }

  lemma ReportsLast(a: seq<State>, b: seq<State>, done: map<nat, set<nat>>)
    requires AllGrow(a, b) && ReportsTrue(a, done)
    ensures ReportsTrue(b, done)
  {
    forall p, l | ReportedComplete(done, p, l) ensures HasCompleted(b, p, l) { CompletedLasts(a, b, p, l); }
  }

  lemma SentLasts(a: seq<State>, b: seq<State>, sent: set<Packet>)
    requires AllGrow(a, b) && SentTrue(a, sent)
    ensures SentTrue(b, sent)
  {
    forall p | p in sent ensures p.from < |b| && Told(b[p.from].levels, p.message) {
      if !p.message.contactSender { CompletedLasts(a, b, p.from, p.message.level); }
    }
  }

  /** A change at one host that keeps its own outbox and reports true keeps all true. */
  lemma OneTrue(a: seq<State>, h: nat, s: State)
    requires h < |a| && OutboxesTrue(a) && AllReportsTrue(a) && AllGrow(a, a[h := s])
    requires Truthful(s.levels, s.outbox) && ReportsTrue(a[h := s], s.completedLevels)
    ensures OutboxesTrue(a[h := s]) && AllReportsTrue(a[h := s])
  {
    var b := a[h := s];
    forall i: nat | i < |b| ensures ReportsTrue(b, b[i].completedLevels) {
      if i != h { ReportsLast(a, b, a[i].completedLevels); }
    }
  }

  lemma ReportAdds(nodes: seq<State>, done: map<nat, set<nat>>, p: nat, l: nat)
    requires ReportsTrue(nodes, done) && HasCompleted(nodes, p, l)
    ensures ReportsTrue(nodes, ReportCompleted(done, p, l))
  {
    var done' := ReportCompleted(done, p, l);
    forall q, m | ReportedComplete(done', q, m) ensures HasCompleted(nodes, q, m) {
      assert (q == p && m == l) || ReportedComplete(done, q, m);
    }
  }

  /** The report a delivered message makes is true. */
  lemma DeliveredTrue(nodes: seq<State>, after: seq<State>, sent: set<Packet>, p: Packet, done: map<nat, set<nat>>)
    requires AllGrow(nodes, after) && SentTrue(nodes, sent) && p in sent && ReportsTrue(nodes, done)
    ensures ReportsTrue(after, if p.message.contactSender then done else ReportCompleted(done, p.from, p.message.level))
  {
    ReportsLast(nodes, after, done);
    if !p.message.contactSender {
      CompletedLasts(nodes, after, p.from, p.message.level);
      ReportAdds(after, done, p.from, p.message.level);
    }
  }

  lemma DeliverTrue(w: World, a: Net, b: Net, act: Act)
    requires WellFormed(w) && NetStep(w, a, b, act) && act.ev.Deliver? && NetTrue(a) && AllGrow(a.nodes, b.nodes)
    ensures Truthful(b.nodes[act.host].levels, b.nodes[act.host].outbox)
    ensures ReportsTrue(b.nodes, b.nodes[act.host].completedLevels)
  {
    var from, m := act.ev.from, act.ev.message;
    var j: nat :| j < |w.envs| && from == w.envs[0].pp.peers[j] && Packet(j, w.envs[0].pp.peers[act.host], m) in a.sent;
    KnownPeer(w, act.host, j);
    InjectTells(w.envs[act.host], a.nodes[act.host], from, m);
    DeliveredTrue(a.nodes, b.nodes, a.sent, Packet(j, w.envs[0].pp.peers[act.host], m), a.nodes[act.host].completedLevels);
  }

  lemma PollTrue(w: World, a: Net, b: Net, act: Act)
    requires Addressed(w) && NetStep(w, a, b, act) && act.ev.Poll? && NetTrue(a) && AllGrow(a.nodes, b.nodes)
    ensures Truthful(b.nodes[act.host].levels, b.nodes[act.host].outbox)
    ensures ReportsTrue(b.nodes, b.nodes[act.host].completedLevels) && SentTrue(b.nodes, b.sent)
  {
    SentLasts(a.nodes, b.nodes, a.sent);
    PollTells(w.envs[act.host], a.nodes[act.host], act.ev);
    ReportsLast(a.nodes, b.nodes, a.nodes[act.host].completedLevels);
  }

  lemma NetStepTrue(w: World, a: Net, b: Net, act: Act)
    requires WellFormed(w) && NetStep(w, a, b, act) && NetTrue(a) && AllGrow(a.nodes, b.nodes)
    ensures NetTrue(b)
  {
    if act.ev.Poll? {
      PollTrue(w, a, b, act);
    } else {
      SentLasts(a.nodes, b.nodes, a.sent);
      DeliverTrue(w, a, b, act);
    }
    OneTrue(a.nodes, act.host, b.nodes[act.host]);
  }
}

/** Hosts that disseminate and whose messages arrive complete the round. */
module HandelSchedule {
  import opened Sorting
  import opened Partitioning
  import opened Contributions
  import opened HandelSpec
  import opened HandelSafety
  import opened HandelFairness
  import opened HandelHonest
  import opened HandelNetwork
  import opened HandelTruth

  // ----- one host's share of a run -----

  /** What host `i` sees from step `a` to step `b`. */
  function EventsOf(acts: seq<Act>, i: nat, a: nat, b: nat): seq<Event>
    requires a <= b <= |acts|
    decreases b - a
  {
    if a == b then [] else (if acts[a].host == i then [acts[a].ev] else []) + EventsOf(acts, i, a + 1, b)
  }

  ghost predicate FollowsAt(e: Env, run: seq<Net>, acts: seq<Act>, i: nat, t: nat)
    requires t < |acts| && |run| == |acts| + 1
  {
    && i < |run[t].nodes| == |run[t + 1].nodes| && Inv(e, run[t].nodes[i]) && Inv(e, run[t + 1].nodes[i])
    && (acts[t].host == i ==>
          Enabled(e, run[t].nodes[i], acts[t].ev) && run[t + 1].nodes[i] == Step(e, run[t].nodes[i], acts[t].ev))
    && (acts[t].host != i ==> run[t + 1].nodes[i] == run[t].nodes[i])
  }

  /** The host's states are a run of its own. */
  ghost predicate Follows(e: Env, run: seq<Net>, acts: seq<Act>, i: nat) {
    && |run| == |acts| + 1 && i < |run[0].nodes| && Inv(e, run[0].nodes[i])
    && forall t: nat :: t < |acts| ==> FollowsAt(e, run, acts, i, t)
  }

  lemma HostFollows(w: World, run: seq<Net>, acts: seq<Act>, i: nat)
    requires WellFormed(w) && IsRun(w, run, acts) && i < |w.envs|
    ensures Follows(w.envs[i], run, acts, i)
  {
    RunNetOk(w, run, acts, 0);
    assert OkAt(w, run[0].nodes, i);
    forall t: nat | t < |acts| ensures FollowsAt(w.envs[i], run, acts, i, t) { HostFollowsAt(w, run, acts, i, t); }
  }

  lemma HostFollowsAt(w: World, run: seq<Net>, acts: seq<Act>, i: nat, t: nat)
    requires WellFormed(w) && IsRun(w, run, acts) && i < |w.envs| && t < |acts|
    ensures FollowsAt(w.envs[i], run, acts, i, t)
  {
    RunNetOk(w, run, acts, t);
    RunNetOk(w, run, acts, t + 1);
    assert StepAt(w, run, acts, t) && OkAt(w, run[t].nodes, i) && OkAt(w, run[t + 1].nodes, i);
  }

  lemma FollowsInv(e: Env, run: seq<Net>, acts: seq<Act>, i: nat, t: nat)
    requires Follows(e, run, acts, i) && t < |run|
    ensures i < |run[t].nodes| && Inv(e, run[t].nodes[i])
  {
    if t > 0 { assert FollowsAt(e, run, acts, i, t - 1); }
  }

  lemma EventsSplit(acts: seq<Act>, i: nat, a: nat, b: nat)
    requires a < b <= |acts|
    ensures
      var rest := EventsOf(acts, i, a + 1, b);
      EventsOf(acts, i, a, b) == if acts[a].host == i then [acts[a].ev] + rest else rest
  {
  }

  lemma QueuedCons(e: Env, s: State, ev: Event, rest: seq<Event>, l: nat, pos: nat)
    requires Inv(e, s) && Enabled(e, s, ev) && Inv(e, Step(e, s, ev)) && l < |e.pp.cvp| && pos < |e.pp.cvp[l]|
    requires AllEnabled(e, s, [ev] + rest) && QueuedInRun(e, s, [ev] + rest, l, pos)
    ensures AllEnabled(e, Step(e, s, ev), rest)
    ensures Queues(e, s, ev, l, pos) || QueuedInRun(e, Step(e, s, ev), rest, l, pos)
  {
    assert ([ev] + rest)[1..] == rest;
  }

  lemma ProjectStep(e: Env, run: seq<Net>, acts: seq<Act>, i: nat, a: nat, b: nat)
    requires a < b <= |acts| && |run| == |acts| + 1 && FollowsAt(e, run, acts, i, a)
    requires AllEnabled(e, run[a + 1].nodes[i], EventsOf(acts, i, a + 1, b))
    ensures AllEnabled(e, run[a].nodes[i], EventsOf(acts, i, a, b))
    ensures Run(e, run[a].nodes[i], EventsOf(acts, i, a, b)) == Run(e, run[a + 1].nodes[i], EventsOf(acts, i, a + 1, b))
  {
    EventsSplit(acts, i, a, b);
    if acts[a].host == i { RunCons(e, run[a].nodes[i], acts[a].ev, EventsOf(acts, i, a + 1, b)); }
  }

  lemma {:induction false} Project(e: Env, run: seq<Net>, acts: seq<Act>, i: nat, a: nat, b: nat)
    requires Follows(e, run, acts, i) && a <= b <= |acts|
    ensures i < |run[a].nodes| && i < |run[b].nodes| && Inv(e, run[a].nodes[i])
    ensures AllEnabled(e, run[a].nodes[i], EventsOf(acts, i, a, b))
    ensures Run(e, run[a].nodes[i], EventsOf(acts, i, a, b)) == run[b].nodes[i]
    decreases b - a
  {
    FollowsInv(e, run, acts, i, a);
    if a < b {
      Project(e, run, acts, i, a + 1, b);
      assert FollowsAt(e, run, acts, i, a);
      ProjectStep(e, run, acts, i, a, b);
    }
  }

  lemma QueuedLater(e: Env, run: seq<Net>, acts: seq<Act>, i: nat, a: nat, b: nat, l: nat, pos: nat)
    requires Follows(e, run, acts, i) && a < b <= |acts| && l < |e.pp.cvp| && pos < |e.pp.cvp[l]|
    requires i < |run[a].nodes| && Inv(e, run[a].nodes[i]) && AllEnabled(e, run[a].nodes[i], EventsOf(acts, i, a, b))
    requires QueuedInRun(e, run[a].nodes[i], EventsOf(acts, i, a, b), l, pos)
    requires acts[a].host == i ==> !Queues(e, run[a].nodes[i], acts[a].ev, l, pos)
    ensures i < |run[a + 1].nodes| && Inv(e, run[a + 1].nodes[i])
    ensures AllEnabled(e, run[a + 1].nodes[i], EventsOf(acts, i, a + 1, b))
    ensures QueuedInRun(e, run[a + 1].nodes[i], EventsOf(acts, i, a + 1, b), l, pos)
  {
    assert FollowsAt(e, run, acts, i, a);
    EventsSplit(acts, i, a, b);
    if acts[a].host == i { QueuedCons(e, run[a].nodes[i], acts[a].ev, EventsOf(acts, i, a + 1, b), l, pos); }
  }

  /** The step of the network at which a message was queued. */
  lemma {:induction false} QueuedWhen(e: Env, run: seq<Net>, acts: seq<Act>, i: nat, a: nat, b: nat, l: nat, pos: nat) returns (t: nat)
    requires Follows(e, run, acts, i) && a <= b <= |acts| && l < |e.pp.cvp| && pos < |e.pp.cvp[l]|
    requires i < |run[a].nodes| && Inv(e, run[a].nodes[i]) && AllEnabled(e, run[a].nodes[i], EventsOf(acts, i, a, b))
    requires QueuedInRun(e, run[a].nodes[i], EventsOf(acts, i, a, b), l, pos)
    ensures a <= t < b && acts[t].host == i && i < |run[t].nodes| && Inv(e, run[t].nodes[i])
    ensures Queues(e, run[t].nodes[i], acts[t].ev, l, pos)
    decreases b - a
  {
    if acts[a].host == i && i < |run[a].nodes| && Queues(e, run[a].nodes[i], acts[a].ev, l, pos) {
      t := a;
    } else {
      QueuedLater(e, run, acts, i, a, b, l, pos);
      t := QueuedWhen(e, run, acts, i, a + 1, b, l, pos);
    }
  }

  /** What is queued at a level carries the level's best. */
  lemma QueuedCarries(e: Env, s: State, ev: Event, l: nat, pos: nat) returns (env: Envelope)
    requires Inv(e, s) && ActiveAt(s, l) && pos < |e.pp.cvp[l]| && Queues(e, s, ev, l, pos)
    ensures e.pp.cvp[l][pos] < |e.pp.peers| && env in NewlySent(e, s) && env.to == e.pp.peers[e.pp.cvp[l][pos]]
    ensures env.message.level == l && env.message.aggregate == s.levels[l].value.best.contribution
  {
    InvContactable(e, s);
    assert e.pp.cvp[l][pos] in e.pp.cvp[l];
    RoundTurns(e, s, 1, l);
    env :| env in NewlySent(e, s) && env.to == e.pp.peers[e.pp.cvp[l][pos]] && env.message.level == l;
    assert env == TurnEnvelope(e, s, l, NextAt(e, s, l).value);
  }

  // ----- working stretches -----

  /** The message is handed to its addressee after step `t` and before step `b`. */
  ghost predicate Arrives(w: World, acts: seq<Act>, t: nat, b: nat, i: nat, env: Envelope)
    requires Addressed(w) && i < |w.envs| && b <= |acts|
  {
    exists u: nat :: t < u < b && acts[u].host < |w.envs| && w.envs[0].pp.peers[acts[u].host] == env.to
                  && acts[u].ev == Deliver(w.envs[0].pp.peers[i], env.message)
  }

  /** Everything queued by the dissemination of step `t`, if it is one, arrives. */
  ghost predicate AllArriveAt(w: World, run: seq<Net>, acts: seq<Act>, t: nat, b: nat)
    requires Addressed(w) && t < b <= |acts| && |run| == |acts| + 1
  {
    var i := acts[t].host;
    IsCall(acts[t].ev) && i < |w.envs| && i < |run[t].nodes| && Inv(w.envs[i], run[t].nodes[i]) ==>
      forall env :: env in NewlySent(w.envs[i], run[t].nodes[i]) ==> Arrives(w, acts, t, b, i, env)
  }

  /** Some contact was made at the level, or its first peer had not reported when the first one was due,
      or all its peers report completion in the end. */
  ghost predicate Unstuck(e: Env, s: State, events: seq<Event>, l: nat)
    requires Inv(e, s) && AllEnabled(e, s, events) && ActiveAt(s, l)
  {
    || s.levels[l].value.lastContacted.Some?
    || (var ds := DonesOf(e, s, events, l); ds != [] && ds[0] != [] && !ds[0][0])
    || AllReported(e, Run(e, s, events), l)
  }

  /** The host disseminates at least once per peer of the level. */
  ghost predicate Works(e: Env, s: State, events: seq<Event>, l: nat)
    requires Inv(e, s) && AllEnabled(e, s, events) && ActiveAt(s, l)
  {
    |DonesOf(e, s, events, l)| >= |e.pp.cvp[l]|
  }

  ghost predicate HostWorks(w: World, run: seq<Net>, acts: seq<Act>, i: nat, l: nat, a: nat, mid: nat)
    requires i < |w.envs| && a <= mid <= |acts| && |run| == |acts| + 1
  {
    var e, events := w.envs[i], EventsOf(acts, i, a, mid);
    && i < |run[a].nodes| && Inv(e, run[a].nodes[i]) && AllEnabled(e, run[a].nodes[i], events)
    && (ActiveAt(run[a].nodes[i], l) ==> Works(e, run[a].nodes[i], events, l))
  }

  /** From `a` to `mid` every host works at every active level, and by `b` everything it queued has arrived. */
  ghost predicate Working(w: World, run: seq<Net>, acts: seq<Act>, a: nat, mid: nat, b: nat)
    requires Addressed(w) && |run| == |acts| + 1
  {
    && a <= mid <= b <= |acts|
    && (forall i: nat, l: nat :: i < |w.envs| && l <= w.k ==> HostWorks(w, run, acts, i, l, a, mid))
    && (forall t: nat :: a <= t < mid ==> AllArriveAt(w, run, acts, t, b))
  }

  /** No active level of the host is stuck in the stretch. */
  ghost predicate HostUnstuck(w: World, run: seq<Net>, acts: seq<Act>, i: nat, l: nat, a: nat, mid: nat)
    requires i < |w.envs| && a <= mid <= |acts| && |run| == |acts| + 1
  {
    var e, events := w.envs[i], EventsOf(acts, i, a, mid);
    && i < |run[a].nodes| && Inv(e, run[a].nodes[i]) && AllEnabled(e, run[a].nodes[i], events)
    && (ActiveAt(run[a].nodes[i], l) ==> Unstuck(e, run[a].nodes[i], events, l))
  }

  ghost predicate NoneStuck(w: World, run: seq<Net>, acts: seq<Act>, a: nat, mid: nat)
    requires |run| == |acts| + 1
  {
    a <= mid <= |acts| && forall i: nat, l: nat :: i < |w.envs| && l <= w.k ==> HostUnstuck(w, run, acts, i, l, a, mid)
  }

  /** Every peer of the level is served in the stretch. */
  lemma WorkServes(e: Env, s: State, events: seq<Event>, l: nat)
    requires Inv(e, s) && AllEnabled(e, s, events) && ActiveAt(s, l) && Works(e, s, events, l) && Unstuck(e, s, events, l)
    requires Distinct(e.pp.peers) && Distinct(e.pp.cvp[l])
    ensures ServedInRun(e, s, events, l)
  {
    forall pos: nat | pos < |e.pp.cvp[l]| ensures QueuedInRun(e, s, events, l, pos) || ReportedAt(e, Run(e, s, events), l, pos) {
      if s.levels[l].value.lastContacted.Some? {
        RoundRobinOverRun(e, s, events, l, pos);
      } else {
        DonesGrow(e, s, events, l);
        if !AllReported(e, Run(e, s, events), l) { StartServes(e, s, events, l, pos); }
      }
    }
  }

  // ----- stuck levels -----

  /** The level has contacted nobody and its first peer has reported. */
  ghost predicate StuckAt(e: Env, s: State, l: nat)
    requires |s.levels| == |e.pp.cvp|
  {
    ActiveAt(s, l) && s.levels[l].value.lastContacted.None? && e.pp.cvp[l] != [] && ReportedAt(e, s, l, 0)
  }

  lemma StuckStep(e: Env, s: State, ev: Event, l: nat)
    requires Inv(e, s) && Enabled(e, s, ev) && StuckAt(e, s, l)
    ensures Inv(e, Step(e, s, ev)) && StuckAt(e, Step(e, s, ev), l)
  {
    StepContacts(e, s, ev, l);
    StepOk(e, s, ev, {});
    assert DoneAt(e.pp.cvp[l], s.completedLevels, l)[0];
  }

  lemma {:induction false} StuckLasts(e: Env, s: State, events: seq<Event>, l: nat)
    requires Inv(e, s) && AllEnabled(e, s, events) && StuckAt(e, s, l)
    ensures StuckAt(e, Run(e, s, events), l)
    decreases |events|
  {
    if events != [] {
      StuckStep(e, s, events[0], l);
      StuckLasts(e, Step(e, s, events[0]), events[1..], l);
    }
  }

  /** A level whose first peer has reported when its first contact is due ends the run stuck. */
  lemma {:induction false} StuckArises(e: Env, s: State, events: seq<Event>, l: nat)
    requires Inv(e, s) && AllEnabled(e, s, events) && ActiveAt(s, l) && s.levels[l].value.lastContacted.None?
    requires var ds := DonesOf(e, s, events, l); ds != [] && ds[0] != [] && ds[0][0]
    ensures StuckAt(e, Run(e, s, events), l)
    decreases |events|
  {
    if IsCall(events[0]) {
      StuckLasts(e, s, events, l);
    } else {
      StepContacts(e, s, events[0], l);
      assert DonesOf(e, s, events, l) == DonesOf(e, Step(e, s, events[0]), events[1..], l);
      StuckArises(e, Step(e, s, events[0]), events[1..], l);
    }
  }

  lemma UnstuckUnless(e: Env, s: State, events: seq<Event>, l: nat)
    requires Inv(e, s) && AllEnabled(e, s, events) && ActiveAt(s, l) && Works(e, s, events, l) && e.pp.cvp[l] != []
    ensures Unstuck(e, s, events, l) || StuckAt(e, Run(e, s, events), l)
  {
    DonesGrow(e, s, events, l);
    var ds := DonesOf(e, s, events, l);
    assert |ds[0]| == |e.pp.cvp[l]|;
    if s.levels[l].value.lastContacted.None? && ds[0][0] { StuckArises(e, s, events, l); }
  }

  ghost predicate StuckIn(w: World, n: Net, i: nat, l: nat) {
    i < |w.envs| && i < |n.nodes| && |n.nodes[i].levels| == |w.envs[i].pp.cvp| && StuckAt(w.envs[i], n.nodes[i], l)
  }

  ghost predicate StuckSomewhere(w: World, n: Net) {
    exists i: nat, l: nat :: StuckIn(w, n, i, l)
  }

  lemma StuckToTheEnd(w: World, run: seq<Net>, acts: seq<Act>, i: nat, l: nat, t: nat)
    requires i < |w.envs| && Follows(w.envs[i], run, acts, i) && t <= |acts| && StuckIn(w, run[t], i, l)
    ensures StuckIn(w, run[|acts|], i, l)
  {
    Project(w.envs[i], run, acts, i, t, |acts|);
    StuckLasts(w.envs[i], run[t].nodes[i], EventsOf(acts, i, t, |acts|), l);
  }

  /** If nothing is stuck in the end, nothing was in the stretch. */
  lemma WorkUnstuck(w: World, run: seq<Net>, acts: seq<Act>, a: nat, mid: nat, b: nat, i: nat, l: nat)
    requires WellFormed(w) && IsRun(w, run, acts) && Working(w, run, acts, a, mid, b) && i < |w.envs| && l <= w.k
    requires !StuckSomewhere(w, run[|acts|])
    ensures HostUnstuck(w, run, acts, i, l, a, mid)
  {
    assert HostWorks(w, run, acts, i, l, a, mid);
    var e, s, events := w.envs[i], run[a].nodes[i], EventsOf(acts, i, a, mid);
    if ActiveAt(s, l) {
      LevelNotEmpty(w, i, l);
      HostFollows(w, run, acts, i);
      Project(e, run, acts, i, a, mid);
      UnstuckUnless(e, s, events, l);
      if !Unstuck(e, s, events, l) {
        StuckToTheEnd(w, run, acts, i, l, mid);
      }
    }
  }

  lemma NothingStuck(w: World, run: seq<Net>, acts: seq<Act>, a: nat, mid: nat, b: nat)
    requires WellFormed(w) && IsRun(w, run, acts) && Working(w, run, acts, a, mid, b) && !StuckSomewhere(w, run[|acts|])
    ensures NoneStuck(w, run, acts, a, mid)
  {
    forall i: nat, l: nat | i < |w.envs| && l <= w.k ensures HostUnstuck(w, run, acts, i, l, a, mid) {
      WorkUnstuck(w, run, acts, a, mid, b, i, l);
    }
  }

  // ----- a working stretch is fair -----

  lemma {:induction false} RunTrue(w: World, run: seq<Net>, acts: seq<Act>, t: nat)
    requires WellFormed(w) && IsRun(w, run, acts) && NetTrue(run[0]) && Gaining(run) && t < |run|
    ensures NetTrue(run[t])
  {
    if t > 0 {
      RunTrue(w, run, acts, t - 1);
      assert StepAt(w, run, acts, t - 1) && GainAt(run, t - 1);
      NetStepTrue(w, run[t - 1], run[t], acts[t - 1]);
    }
  }

  /** Once a report of `j` is held, `j` has the level completed. */
  lemma ReportedDone(w: World, run: seq<Net>, acts: seq<Act>, i: nat, j: nat, l: nat, mid: nat, b: nat)
    requires WellFormed(w) && IsRun(w, run, acts) && NetTrue(run[0]) && Gaining(run) && mid <= b < |run|
    requires i < |run[mid].nodes| && ReportedComplete(run[mid].nodes[i].completedLevels, j, l)
    ensures HasCompleted(run[b].nodes, j, l)
  {
    RunTrue(w, run, acts, mid);
    assert ReportsTrue(run[mid].nodes, run[mid].nodes[i].completedLevels);
    GrowsBetween(run, mid, b);
    CompletedLasts(run[mid].nodes, run[b].nodes, j, l);
  }

  lemma SamePeer(w: World, i: nat, j: nat, h: nat)
    requires WellFormed(w) && i < |w.envs| && j < |w.envs| && h < |w.envs|
    ensures w.envs[i].pp.peers == w.envs[0].pp.peers && Distinct(w.envs[i].pp.peers)
    ensures w.envs[0].pp.peers[h] == w.envs[0].pp.peers[j] ==> h == j
  {
    assert HostFits(w, i);
  }

  /** A message queued for `j` in the stretch is heard. */
  lemma QueuedIsHeard(w: World, run: seq<Net>, acts: seq<Act>, a: nat, t: nat, b: nat, i: nat, l: nat, pos: nat)
    requires WellFormed(w) && Gaining(run) && |run| == |acts| + 1 && a <= t < b <= |acts| && acts[t].host == i < |w.envs|
    requires i < |run[a].nodes| && ActiveAt(run[a].nodes[i], l) && i < |run[t].nodes| && Inv(w.envs[i], run[t].nodes[i])
    requires l < |w.envs[i].pp.cvp| && pos < |w.envs[i].pp.cvp[l]| && w.envs[i].pp.cvp[l][pos] < |w.envs|
    requires Queues(w.envs[i], run[t].nodes[i], acts[t].ev, l, pos) && AllArriveAt(w, run, acts, t, b)
    ensures
      exists u: nat :: a <= u < b && Hears(w, acts[u], i, w.envs[i].pp.cvp[l][pos], l, run[a].nodes[i].levels[l].value.best.contribution)
  {
    var e, j := w.envs[i], w.envs[i].pp.cvp[l][pos];
    GrowsBetween(run, a, t);
    assert Grows(run[a].nodes[i], run[t].nodes[i]);
    assert LevelGrows(run[a].nodes[i].levels[l], run[t].nodes[i].levels[l]);
    var env := QueuedCarries(e, run[t].nodes[i], acts[t].ev, l, pos);
    assert Arrives(w, acts, t, b, i, env);
    var u: nat :| t < u < b && acts[u].host < |w.envs| && w.envs[0].pp.peers[acts[u].host] == env.to
               && acts[u].ev == Deliver(w.envs[0].pp.peers[i], env.message);
    SamePeer(w, i, j, acts[u].host);
    assert Hears(w, acts[u], i, j, l, run[a].nodes[i].levels[l].value.best.contribution);
  }

  /** What a host holds at a level reaches each peer of it, or that peer has completed the level. */
  lemma WorkReaches(w: World, run: seq<Net>, acts: seq<Act>, a: nat, mid: nat, b: nat, i: nat, j: nat, l: nat)
    requires WellFormed(w) && IsRun(w, run, acts) && NetTrue(run[0]) && Gaining(run) && Working(w, run, acts, a, mid, b)
    requires Shaped(w, run[a]) && Shaped(w, run[b]) && i < |w.envs| && j < |w.envs| && 0 < l <= w.k && AtLevel(i, j, l)
    requires NoneStuck(w, run, acts, a, mid)
    ensures Reaches(w, run, acts, a, b, i, j, l)
  {
    var e, events, s := w.envs[i], EventsOf(acts, i, a, mid), run[a].nodes[i];
    if s.levels[l].Some? {
      assert HostWorks(w, run, acts, i, l, a, mid) && HostUnstuck(w, run, acts, i, l, a, mid);
      LevelPeers(w, i, l, j);
      SamePeer(w, i, j, j);
      var pos: nat :| pos < |e.pp.cvp[l]| && e.pp.cvp[l][pos] == j;
      WorkServes(e, s, events, l);
      HostFollows(w, run, acts, i);
      Project(e, run, acts, i, a, mid);
      if QueuedInRun(e, s, events, l, pos) {
        var t := QueuedWhen(e, run, acts, i, a, mid, l, pos);
        QueuedIsHeard(w, run, acts, a, t, b, i, l, pos);
      } else {
        ReportedDone(w, run, acts, i, j, l, mid, b);
      }
    }
  }

  lemma WorkIsFair(w: World, run: seq<Net>, acts: seq<Act>, a: nat, mid: nat, b: nat)
    requires WellFormed(w) && IsRun(w, run, acts) && NetTrue(run[0]) && Gaining(run) && Working(w, run, acts, a, mid, b)
    requires NoneStuck(w, run, acts, a, mid)
    ensures FairRound(w, run, acts, a, b)
  {
    RunNetOk(w, run, acts, a);
    RunNetOk(w, run, acts, b);
    NetShaped(w, run[a]);
    NetShaped(w, run[b]);
    forall i: nat, j: nat, l: nat | i < |w.envs| && j < |w.envs| && l <= w.k && AtLevel(i, j, l)
      ensures Reaches(w, run, acts, a, b, i, j, l)
    {
      WorkReaches(w, run, acts, a, mid, b, i, j, l);
    }
  }

  // ----- the round -----

  /** A run of the network from the construction of its hosts. */
  ghost predicate IsRound(w: World, run: seq<Net>, acts: seq<Act>)
    requires WellFormed(w)
  {
    AllSteps(w, run, acts) && (StartOk(w); run[0] == Start(w))
  }

  lemma RoundIsRun(w: World, run: seq<Net>, acts: seq<Act>)
    requires WellFormed(w) && IsRound(w, run, acts)
    ensures IsRun(w, run, acts) && NetTrue(run[0]) && Gaining(run)
  {
    StartOk(w);
    var nodes := run[0].nodes;
    forall i: nat | i < |nodes| ensures Truthful(nodes[i].levels, nodes[i].outbox) && ReportsTrue(nodes, nodes[i].completedLevels) {
      assert nodes[i].outbox == [] && nodes[i].completedLevels == map[];
    }
    RunGrows(w, run, acts);
  }

  ghost predicate WorkingAt(w: World, run: seq<Net>, acts: seq<Act>, cuts: seq<nat>, mids: seq<nat>, r: nat)
    requires Addressed(w) && |run| == |acts| + 1 && r + 1 < |cuts| == |mids|
  {
    Working(w, run, acts, cuts[r], mids[r], cuts[r + 1])
  }

  /** Consecutive working stretches: from each cut over `mids` to the next cut. */
  ghost predicate WorkingRounds(w: World, run: seq<Net>, acts: seq<Act>, cuts: seq<nat>, mids: seq<nat>)
    requires Addressed(w) && |run| == |acts| + 1
  {
    && |mids| == |cuts| && (forall r: nat :: r < |cuts| ==> cuts[r] <= |acts|)
    && (forall r: nat :: r + 1 < |cuts| ==> WorkingAt(w, run, acts, cuts, mids, r))
  }

  /** The host hands out an aggregate of the honest contributions that verifies and reaches the threshold. */
  ghost predicate Finished(w: World, i: nat, s: State)
    requires i < |w.envs|
  {
    && s.levels != [] && CompleteAggregate(s).Some? && w.envs[i].conf.threshold.denom > 0
    && Verifies(w.envs[i].valid, CompleteAggregate(s).value) && Part(CompleteAggregate(s).value, w.truth)
    && |CompleteAggregate(s).value| >= w.envs[i].conf.threshold.Min(|w.envs|)
  }

  lemma DoneIsFinished(w: World, i: nat, s: State)
    requires WellFormed(w) && i < |w.envs| && NodeOk(w, i, s) && CompleteAggregate(s).Some?
    ensures Finished(w, i, s)
  {
    LevelCount(w, i, s);
    LevelNotEmpty(w, i, w.k);
    var top := s.levels[w.k].value;
    assert HonestLevel(w, i, top) && LevelOk(w.envs[i], w.k, top);
  }

  lemma AllFinished(w: World, n: Net)
    requires WellFormed(w) && NodesOk(w, n.nodes) && EveryoneDone(w, n)
    ensures forall i: nat :: i < |w.envs| ==> Finished(w, i, n.nodes[i])
  {
    forall i: nat | i < |w.envs| ensures Finished(w, i, n.nodes[i]) {
      assert OkAt(w, n.nodes, i) && CompleteAggregate(n.nodes[i]).Some?;
      DoneIsFinished(w, i, n.nodes[i]);
    }
  }

  ghost predicate UnstuckStretch(w: World, run: seq<Net>, acts: seq<Act>, cuts: seq<nat>, mids: seq<nat>, r: nat)
    requires |run| == |acts| + 1 && r < |cuts| == |mids|
  {
    NoneStuck(w, run, acts, cuts[r], mids[r])
  }

  /** In no stretch of the run a level is stuck. */
  ghost predicate NeverStuck(w: World, run: seq<Net>, acts: seq<Act>, cuts: seq<nat>, mids: seq<nat>)
    requires |run| == |acts| + 1 && |mids| == |cuts|
  {
    forall r: nat :: r + 1 < |cuts| ==> UnstuckStretch(w, run, acts, cuts, mids, r)
  }

  ghost predicate EveryoneFinished(w: World, n: Net) {
    |n.nodes| == |w.envs| && forall i: nat :: i < |w.envs| ==> Finished(w, i, n.nodes[i])
  }

  lemma UnstuckRoundCompletes(w: World, run: seq<Net>, acts: seq<Act>, cuts: seq<nat>, mids: seq<nat>)
    requires WellFormed(w) && IsRound(w, run, acts)
    requires WorkingRounds(w, run, acts, cuts, mids) && |cuts| > MostGain(w) + 1 && NeverStuck(w, run, acts, cuts, mids)
    ensures EveryoneFinished(w, run[|acts|])
  {
    RoundIsRun(w, run, acts);
    forall r: nat | r + 1 < |cuts| ensures FairAt(w, run, acts, cuts, r) {
      assert WorkingAt(w, run, acts, cuts, mids, r) && UnstuckStretch(w, run, acts, cuts, mids, r);
      WorkIsFair(w, run, acts, cuts[r], mids[r], cuts[r + 1]);
    }
    EveryoneCompletes(w, run, acts, cuts);
    RunNetOk(w, run, acts, |acts|);
    AllFinished(w, run[|acts|]);
  }

  /** With `2^k` honest hosts, no padding and a window that takes them all: in every run in which hosts keep
      disseminating and what is queued arrives, all of them finish the round, or a level is stuck in the end. */
  lemma RoundCompletes(w: World, run: seq<Net>, acts: seq<Act>, cuts: seq<nat>, mids: seq<nat>)
    requires WellFormed(w) && IsRound(w, run, acts)
    requires WorkingRounds(w, run, acts, cuts, mids) && |cuts| > MostGain(w) + 1
    ensures EveryoneFinished(w, run[|acts|]) || StuckSomewhere(w, run[|acts|])
  {
    if !StuckSomewhere(w, run[|acts|]) {
      RoundIsRun(w, run, acts);
      forall r: nat | r + 1 < |cuts| ensures UnstuckStretch(w, run, acts, cuts, mids, r) {
        assert WorkingAt(w, run, acts, cuts, mids, r);
        NothingStuck(w, run, acts, cuts[r], mids[r], cuts[r + 1]);
      }
      UnstuckRoundCompletes(w, run, acts, cuts, mids);
    }
  }
}
