/** A network of honest nodes: every node completes the round. */
module HandelNetwork {
  import opened Prelude
  import opened Sorting
  import opened Partitioning
  import opened Contributions
  import opened HandelSpec
  import opened HandelSafety
  import opened HandelHonest

  /** A message handed to the network; it may be delivered late, repeatedly and in any order. */
  datatype Packet = Packet(from: nat, to: PeerId, message: Message)

  datatype Net = Net(nodes: seq<State>, sent: set<Packet>)

  /** One host sees one event. */
  datatype Act = Act(host: nat, ev: Event)

  ghost predicate OkAt(w: World, nodes: seq<State>, i: nat)
    requires i < |nodes| == |w.envs|
  {
    NodeOk(w, i, nodes[i])
  }

  ghost predicate NodesOk(w: World, nodes: seq<State>) {
    |nodes| == |w.envs| && forall i: nat :: i < |nodes| ==> OkAt(w, nodes, i)
  }

  ghost predicate SentOk(w: World, sent: set<Packet>) {
    forall p :: p in sent ==> p.from < |w.envs| && HonestMessage(w, p.message)
  }

  ghost predicate NetOk(w: World, n: Net) {
    NodesOk(w, n.nodes) && SentOk(w, n.sent)
  }

  /** Some host sent the message to this one. */
  ghost predicate WasSent(w: World, n: Net, host: nat, from: PeerId, m: Message)
    requires Addressed(w) && host < |w.envs|
  {
    exists j: nat :: j < |w.envs| && from == w.envs[0].pp.peers[j] && Packet(j, w.envs[0].pp.peers[host], m) in n.sent
  }

  /** The host's event, seen from the network: deliveries were sent, and what a poll hands out is sent. */
  ghost predicate NetStep(w: World, a: Net, b: Net, act: Act)
    requires Addressed(w)
  {
    && act.host < |a.nodes| == |w.envs|
    && Inv(w.envs[act.host], a.nodes[act.host]) && Enabled(w.envs[act.host], a.nodes[act.host], act.ev)
    && b.nodes == a.nodes[act.host := Step(w.envs[act.host], a.nodes[act.host], act.ev)]
    && (act.ev.Deliver? ==> WasSent(w, a, act.host, act.ev.from, act.ev.message) && b.sent == a.sent)
    && (act.ev.Poll? ==>
          var out := Output(w.envs[act.host], a.nodes[act.host], act.ev);
          b.sent == a.sent + if out.Send? then {Packet(act.host, out.envelope.to, out.envelope.message)} else {})
  }

  ghost predicate AllGrow(a: seq<State>, b: seq<State>) {
    |a| == |b| && forall i: nat :: i < |a| ==> Grows(a[i], b[i])
  }

  lemma GrowsSelf(s: State)
    ensures Grows(s, s)
  {
  }

  lemma AllGrowTransitive(a: seq<State>, b: seq<State>, c: seq<State>)
    requires AllGrow(a, b) && AllGrow(b, c)
    ensures AllGrow(a, c)
  {
    forall i: nat | i < |a| ensures Grows(a[i], c[i]) { GrowsTransitive(a[i], b[i], c[i]); }
  }

  lemma OneGrows(nodes: seq<State>, h: nat, s: State)
    requires h < |nodes| && Grows(nodes[h], s)
    ensures AllGrow(nodes, nodes[h := s])
  {
    forall i: nat | i < |nodes| ensures Grows(nodes[i], nodes[h := s][i]) { GrowsSelf(nodes[i]); }
  }

  lemma OneOk(w: World, nodes: seq<State>, h: nat, s: State)
    requires NodesOk(w, nodes) && h < |nodes| && NodeOk(w, h, s)
    ensures NodesOk(w, nodes[h := s])
  {
    var after := nodes[h := s];
    forall i: nat | i < |after| ensures OkAt(w, after, i) { assert OkAt(w, nodes, i); }
  }

  /** What the event does to the host it happens at. */
  lemma HostStepOk(w: World, a: Net, b: Net, act: Act)
    requires WellFormed(w) && NetOk(w, a) && NetStep(w, a, b, act)
    ensures NodeOk(w, act.host, b.nodes[act.host]) && Grows(a.nodes[act.host], b.nodes[act.host]) && SentOk(w, b.sent)
  {
    var i, s := act.host, a.nodes[act.host];
    assert OkAt(w, a.nodes, i);
    match act.ev
    case Deliver(from, m) =>
      var j: nat :| j < |w.envs| && from == w.envs[0].pp.peers[j] && Packet(j, w.envs[0].pp.peers[i], m) in a.sent;
      InjectHonest(w, i, s, j, m);
    case Poll(_, _, _) =>
      PollNodeOk(w, i, s, act.ev);
  }

  lemma NetStepOk(w: World, a: Net, b: Net, act: Act)
    requires WellFormed(w) && NetOk(w, a) && NetStep(w, a, b, act)
    ensures NetOk(w, b) && AllGrow(a.nodes, b.nodes)
  {
    HostStepOk(w, a, b, act);
    OneOk(w, a.nodes, act.host, b.nodes[act.host]);
    OneGrows(a.nodes, act.host, b.nodes[act.host]);
  }

  // ----- runs -----

  ghost predicate StepAt(w: World, run: seq<Net>, acts: seq<Act>, t: nat)
    requires Addressed(w) && t < |acts| && |run| == |acts| + 1
  {
    NetStep(w, run[t], run[t + 1], acts[t])
  }

  ghost predicate AllSteps(w: World, run: seq<Net>, acts: seq<Act>)
    requires Addressed(w)
  {
    |run| == |acts| + 1 && forall t: nat :: t < |acts| ==> StepAt(w, run, acts, t)
  }

  /** A run of the network from a state all of whose nodes are in order, such as the start of the round. */
  ghost predicate IsRun(w: World, run: seq<Net>, acts: seq<Act>)
    requires Addressed(w)
  {
    AllSteps(w, run, acts) && NetOk(w, run[0])
  }

  function Start(w: World): Net
    requires forall i: nat :: i < |w.envs| ==> |w.envs[i].pp.vp| >= 2
  {
    Net(seq(|w.envs|, (i: nat) requires i < |w.envs| => Initial(w.envs[i], OwnOf(w, i))), {})
  }

  lemma StartOk(w: World)
    requires WellFormed(w)
    ensures forall i: nat :: i < |w.envs| ==> |w.envs[i].pp.vp| >= 2
    ensures NetOk(w, Start(w))
  {
    forall i: nat | i < |w.envs| ensures |w.envs[i].pp.vp| >= 2 { InitialNodeOk(w, i); }
    var nodes := Start(w).nodes;
    forall i: nat | i < |nodes| ensures OkAt(w, nodes, i) { InitialNodeOk(w, i); }
  }

  lemma {:induction false} RunNetOk(w: World, run: seq<Net>, acts: seq<Act>, t: nat)
    requires WellFormed(w) && IsRun(w, run, acts) && t < |run|
    ensures NetOk(w, run[t])
  {
    if t > 0 {
      RunNetOk(w, run, acts, t - 1);
      assert StepAt(w, run, acts, t - 1);
      NetStepOk(w, run[t - 1], run[t], acts[t - 1]);
    }
  }

  ghost predicate GainAt(run: seq<Net>, t: nat)
    requires t + 1 < |run|
  {
    AllGrow(run[t].nodes, run[t + 1].nodes)
  }

  ghost predicate Gaining(run: seq<Net>) {
    forall t: nat :: t + 1 < |run| ==> GainAt(run, t)
  }

  lemma RunGrows(w: World, run: seq<Net>, acts: seq<Act>)
    requires WellFormed(w) && IsRun(w, run, acts)
    ensures Gaining(run)
  {
    forall t: nat | t + 1 < |run| ensures GainAt(run, t) {
      RunNetOk(w, run, acts, t);
      assert StepAt(w, run, acts, t);
      NetStepOk(w, run[t], run[t + 1], acts[t]);
    }
  }

  lemma {:induction false} GrowsBetween(run: seq<Net>, a: nat, b: nat)
    requires Gaining(run) && a <= b < |run|
    ensures AllGrow(run[a].nodes, run[b].nodes)
    decreases b
  {
    if a == b {
      forall i: nat | i < |run[a].nodes| ensures Grows(run[a].nodes[i], run[b].nodes[i]) { GrowsSelf(run[a].nodes[i]); }
    } else {
      GrowsBetween(run, a, b - 1);
      assert GainAt(run, b - 1);
      AllGrowTransitive(run[a].nodes, run[b - 1].nodes, run[b].nodes);
    }
  }

  // ----- how far the network is -----

  function LevelScore(o: Option<ActiveLevel>): nat {
    if o.None? then 0 else 1 + |o.value.best.contribution| + if o.value.completed then 1 else 0
  }

  function LevelsScore(levels: seq<Option<ActiveLevel>>): nat {
    if levels == [] then 0 else LevelScore(levels[0]) + LevelsScore(levels[1..])
  }

  function NetScore(nodes: seq<State>): nat {
    if nodes == [] then 0 else LevelsScore(nodes[0].levels) + NetScore(nodes[1..])
  }

  /** The same best, completion and activity. */
  ghost predicate LevelSame(a: Option<ActiveLevel>, b: Option<ActiveLevel>) {
    && (a.Some? <==> b.Some?)
    && (a.Some? ==> a.value.best.contribution == b.value.best.contribution && a.value.completed == b.value.completed)
  }

  ghost predicate StateSame(a: State, b: State) {
    |a.levels| == |b.levels| && forall l: nat :: l < |a.levels| ==> LevelSame(a.levels[l], b.levels[l])
  }

  lemma LevelScoreGrows(a: Option<ActiveLevel>, b: Option<ActiveLevel>)
    requires LevelGrows(a, b)
    ensures LevelScore(a) <= LevelScore(b) && (LevelScore(a) == LevelScore(b) ==> LevelSame(a, b))
  {
    if a.Some? { PartWeighs(a.value.best.contribution, b.value.best.contribution); }
  }

  lemma {:induction false} LevelsScoreGrows(a: seq<Option<ActiveLevel>>, b: seq<Option<ActiveLevel>>)
    requires |a| == |b| && forall l: nat :: l < |a| ==> LevelGrows(a[l], b[l])
    ensures LevelsScore(a) <= LevelsScore(b)
    ensures LevelsScore(a) == LevelsScore(b) ==> forall l: nat :: l < |a| ==> LevelSame(a[l], b[l])
  {
    if a != [] {
      LevelScoreGrows(a[0], b[0]);
      forall l: nat | l < |a[1..]| ensures LevelGrows(a[1..][l], b[1..][l]) { assert LevelGrows(a[l + 1], b[l + 1]); }
      LevelsScoreGrows(a[1..], b[1..]);
      if LevelsScore(a) == LevelsScore(b) {
        forall l: nat | l < |a| ensures LevelSame(a[l], b[l]) {
          if l > 0 { assert LevelSame(a[1..][l - 1], b[1..][l - 1]); }
        }
      }
    }
  }

  lemma {:induction false} NetScoreGrows(a: seq<State>, b: seq<State>)
    requires AllGrow(a, b)
    ensures NetScore(a) <= NetScore(b)
    ensures NetScore(a) == NetScore(b) ==> forall i: nat :: i < |a| ==> StateSame(a[i], b[i])
  {
    if a != [] {
      assert Grows(a[0], b[0]);
      LevelsScoreGrows(a[0].levels, b[0].levels);
      assert AllGrow(a[1..], b[1..]) by {
        forall i: nat | i < |a[1..]| ensures Grows(a[1..][i], b[1..][i]) { assert Grows(a[i + 1], b[i + 1]); }
      }
      NetScoreGrows(a[1..], b[1..]);
      if NetScore(a) == NetScore(b) {
        forall i: nat | i < |a| ensures StateSame(a[i], b[i]) {
          if i > 0 { assert StateSame(a[1..][i - 1], b[1..][i - 1]); }
        }
      }
    }
  }

  /** In a stretch of a run without gain nothing changes at any point of it. */
  lemma QuietThroughout(run: seq<Net>, a: nat, t: nat, b: nat, i: nat)
    requires Gaining(run) && a <= t <= b < |run| && NetScore(run[a].nodes) == NetScore(run[b].nodes) && i < |run[a].nodes|
    ensures |run[a].nodes| == |run[t].nodes| && StateSame(run[a].nodes[i], run[t].nodes[i])
  {
    GrowsBetween(run, a, t);
    GrowsBetween(run, t, b);
    NetScoreGrows(run[a].nodes, run[t].nodes);
    NetScoreGrows(run[t].nodes, run[b].nodes);
  }

  // ----- fair delivery -----

  /** Host `j` is handed a message of level `l` from host `i` that carries at least `c`. */
  ghost predicate Hears(w: World, act: Act, i: nat, j: nat, l: nat, c: Contrib)
    requires Addressed(w) && i < |w.envs|
  {
    && act.host == j && act.ev.Deliver? && act.ev.from == w.envs[0].pp.peers[i]
    && act.ev.message.level == l && Part(c, act.ev.message.aggregate)
  }

  /** What `i` holds at level `l` when the stretch starts reaches `j` in it, or `j` needs it no more. */
  ghost predicate Reaches(w: World, run: seq<Net>, acts: seq<Act>, a: nat, b: nat, i: nat, j: nat, l: nat)
    requires Addressed(w) && i < |w.envs| && a <= b <= |acts| && |run| == |acts| + 1
    requires i < |run[a].nodes| && j < |run[b].nodes| && l < |run[a].nodes[i].levels| && l < |run[b].nodes[j].levels|
  {
    run[a].nodes[i].levels[l].Some? ==>
      || LevelCompleted(run[b].nodes[j].levels[l])
      || exists t: nat :: a <= t < b && Hears(w, acts[t], i, j, l, run[a].nodes[i].levels[l].value.best.contribution)
  }

  ghost predicate Shaped(w: World, n: Net) {
    |n.nodes| == |w.envs| && forall i: nat :: i < |n.nodes| ==> |n.nodes[i].levels| == w.k + 1
  }

  /** Between `a` and `b` every host with an open level hears from every host at that level. */
  ghost predicate Fair(w: World, run: seq<Net>, acts: seq<Act>, a: nat, b: nat)
    requires Addressed(w) && a <= b <= |acts| && |run| == |acts| + 1
  {
    && Shaped(w, run[a]) && Shaped(w, run[b])
    && forall i: nat, j: nat, l: nat :: i < |w.envs| && j < |w.envs| && l <= w.k && AtLevel(i, j, l) ==>
         Reaches(w, run, acts, a, b, i, j, l)
  }

  lemma NetShaped(w: World, n: Net)
    requires WellFormed(w) && NetOk(w, n)
    ensures Shaped(w, n)
  {
    forall i: nat | i < |n.nodes| ensures |n.nodes[i].levels| == w.k + 1 {
      assert OkAt(w, n.nodes, i);
      LevelPeers(w, i, 0, 0);
    }
  }

  // ----- a stretch without gain -----

  /** What hearing teaches one host. */
  lemma HearingLearns(w: World, a: Net, b: Net, act: Act, i: nat, j: nat, l: nat, c: Contrib)
    requires WellFormed(w) && NetOk(w, a) && NetStep(w, a, b, act)
    requires i < |w.envs| && j < |w.envs| && AtLevel(j, i, l) && Hears(w, act, i, j, l, c)
    requires l < |a.nodes[j].levels| && a.nodes[j].levels[l].Some? && !a.nodes[j].levels[l].value.completed
    requires StateSame(a.nodes[j], b.nodes[j])
    ensures Part(c, a.nodes[j].levels[l].value.best.contribution)
    ensures w.envs[j].conf.threshold.denom > 0
    ensures |a.nodes[j].levels[l].value.best.contribution| < w.envs[j].conf.threshold.Min(Pow2(l))
  {
    var m, s, s' := act.ev.message, a.nodes[j], b.nodes[j];
    assert OkAt(w, a.nodes, j);
    var sender: nat :| sender < |w.envs| && act.ev.from == w.envs[0].pp.peers[sender] && Packet(sender, w.envs[0].pp.peers[j], m) in a.sent;
    InjectHonest(w, j, s, i, m);
    assert Learns(w.envs[j], s, s', l, m.aggregate) && LevelSame(s.levels[l], s'.levels[l]);
    NothingNew(m.aggregate, s.levels[l].value.best.contribution);
    PartTransitive(c, m.aggregate, s.levels[l].value.best.contribution);
  }

  /** An open level already holds what the other side of it holds, and still not enough. */
  ghost predicate Settled(w: World, n: Net, i: nat, j: nat, l: nat)
    requires i < |n.nodes| && j < |n.nodes| && l < |n.nodes[i].levels| && l < |n.nodes[j].levels| && j < |w.envs|
    requires n.nodes[i].levels[l].Some? && n.nodes[j].levels[l].Some?
  {
    !n.nodes[j].levels[l].value.completed ==>
    && Part(n.nodes[i].levels[l].value.best.contribution, n.nodes[j].levels[l].value.best.contribution)
    && w.envs[j].conf.threshold.denom > 0
    && |n.nodes[j].levels[l].value.best.contribution| < w.envs[j].conf.threshold.Min(Pow2(l))
  }

  ghost predicate AllSettled(w: World, n: Net)
    requires Shaped(w, n)
  {
    forall i: nat, j: nat, l: nat ::
      i < |w.envs| && j < |w.envs| && l <= w.k && AtLevel(i, j, l) && n.nodes[i].levels[l].Some? && n.nodes[j].levels[l].Some? ==>
        Settled(w, n, i, j, l)
  }

  lemma QuietSettles(w: World, run: seq<Net>, acts: seq<Act>, a: nat, b: nat, i: nat, j: nat, l: nat)
    requires WellFormed(w) && IsRun(w, run, acts) && a <= b <= |acts|
    requires Gaining(run) && Fair(w, run, acts, a, b) && NetScore(run[a].nodes) == NetScore(run[b].nodes)
    requires i < |w.envs| && j < |w.envs| && l <= w.k && AtLevel(i, j, l)
    requires run[a].nodes[i].levels[l].Some? && run[a].nodes[j].levels[l].Some?
    ensures Settled(w, run[a], i, j, l)
  {
    if !run[a].nodes[j].levels[l].value.completed {
      var t := QuietHears(w, run, acts, a, b, i, j, l);
      QuietThroughout(run, a, t, b, j);
      QuietThroughout(run, a, t + 1, b, j);
      QuietStep(run[a].nodes[j], run[t].nodes[j], run[t + 1].nodes[j], l);
      RunNetOk(w, run, acts, t);
      assert StepAt(w, run, acts, t);
      HearingLearns(w, run[t], run[t + 1], acts[t], i, j, l, run[a].nodes[i].levels[l].value.best.contribution);
    }
  }

  /** A host whose level stays open hears, without the level completing. */
  lemma QuietHears(w: World, run: seq<Net>, acts: seq<Act>, a: nat, b: nat, i: nat, j: nat, l: nat) returns (t: nat)
    requires Addressed(w) && |run| == |acts| + 1 && a <= b <= |acts|
    requires Gaining(run) && Fair(w, run, acts, a, b) && NetScore(run[a].nodes) == NetScore(run[b].nodes)
    requires i < |w.envs| && j < |w.envs| && l <= w.k && AtLevel(i, j, l)
    requires run[a].nodes[i].levels[l].Some? && run[a].nodes[j].levels[l].Some? && !run[a].nodes[j].levels[l].value.completed
    ensures a <= t < b && Hears(w, acts[t], i, j, l, run[a].nodes[i].levels[l].value.best.contribution)
  {
    assert Reaches(w, run, acts, a, b, i, j, l);
    QuietThroughout(run, a, b, b, j);
    assert LevelSame(run[a].nodes[j].levels[l], run[b].nodes[j].levels[l]);
    t :| a <= t < b && Hears(w, acts[t], i, j, l, run[a].nodes[i].levels[l].value.best.contribution);
  }

  lemma QuietStep(a: State, b: State, c: State, l: nat)
    requires StateSame(a, b) && StateSame(a, c) && l < |a.levels|
    ensures StateSame(b, c) && LevelSame(a.levels[l], b.levels[l])
  {
    forall m: nat | m < |b.levels| ensures LevelSame(b.levels[m], c.levels[m]) {
      assert LevelSame(a.levels[m], b.levels[m]) && LevelSame(a.levels[m], c.levels[m]);
    }
  }

  // ----- a settled network is done -----

  /** The threshold never asks for more than everyone. */
  lemma MinWithin(t: Threshold, n: nat)
    requires t.denom > 0 && t.num <= t.denom
    ensures t.Min(n) <= n
  {
    MulMonotone(t.num, t.denom, n);
    Bits.DivisionBounds(n * t.num, t.denom, n + 1);
    assert (n + 1) * t.denom == n * t.denom + t.denom;
  }

  /** A set with all indices of a block is at least as large as the block. */
  lemma HoldsBlock(c: Contrib, b: nat, l: nat)
    requires forall x: nat :: Block(x, l) == b ==> x in c
    ensures |c| >= Pow2(l)
  {
    var lo := BlockStart(b, l);
    var block := Range(lo, lo + Pow2(l));
    DistinctSize(block);
    forall x: nat | x in block ensures x in c { InBlock(x, l, b); }
    assert Elements(block) <= c.Keys;
    SupersetSize(Elements(block), c.Keys);
  }

  ghost predicate AllActive(w: World, n: Net, l: nat)
    requires Shaped(w, n) && l <= w.k
  {
    forall i: nat :: i < |w.envs| ==> n.nodes[i].levels[l].Some?
  }

  /** Facts about one active level of an honest host. */
  lemma LevelFacts(w: World, n: Net, i: nat, l: nat)
    requires WellFormed(w) && NodesOk(w, n.nodes) && Shaped(w, n) && i < |w.envs| && 0 < l <= w.k && n.nodes[i].levels[l].Some?
    ensures var t := w.envs[i].conf.threshold; t == w.envs[0].conf.threshold && t.denom > 0 && t.num <= t.denom
    ensures i in n.nodes[i].levels[l].value.best.contribution
    ensures
      n.nodes[i].levels[l].value.completed ==>
        |n.nodes[i].levels[l].value.best.contribution| >= w.envs[i].conf.threshold.Min(Pow2(l))
  {
    assert OkAt(w, n.nodes, i) && HostFits(w, i);
    assert HonestLevel(w, i, n.nodes[i].levels[l].value) && LevelOk(w.envs[i], l, n.nodes[i].levels[l].value);
    LevelNotEmpty(w, i, l);
  }

  /** Nobody across the level is done while this host is open. */
  lemma AcrossIsOpen(w: World, n: Net, i: nat, j: nat, l: nat)
    requires WellFormed(w) && NodesOk(w, n.nodes) && Shaped(w, n) && AllSettled(w, n)
    requires i < |w.envs| && j < |w.envs| && 0 < l <= w.k && AllActive(w, n, l) && AtLevel(i, j, l)
    requires !n.nodes[j].levels[l].value.completed
    ensures !n.nodes[i].levels[l].value.completed
    ensures Part(n.nodes[i].levels[l].value.best.contribution, n.nodes[j].levels[l].value.best.contribution)
  {
    assert Settled(w, n, i, j, l);
    LevelFacts(w, n, i, l);
    LevelFacts(w, n, j, l);
    PartWeighs(n.nodes[i].levels[l].value.best.contribution, n.nodes[j].levels[l].value.best.contribution);
  }

  /** Every host of the block is known to a host with the level open. */
  lemma KnowsBlock(w: World, n: Net, j: nat, l: nat, x: nat)
    requires WellFormed(w) && NodesOk(w, n.nodes) && Shaped(w, n) && AllSettled(w, n)
    requires j < |w.envs| && 0 < l <= w.k && AllActive(w, n, l) && !n.nodes[j].levels[l].value.completed
    requires x < |w.envs| && Block(x, l) == Block(j, l)
    ensures x in n.nodes[j].levels[l].value.best.contribution
  {
    LevelFacts(w, n, x, l);
    if Block(x, l - 1) != Block(j, l - 1) {
      AcrossIsOpen(w, n, x, j, l);
    } else {
      var i := LevelInhabited(w, j, l);
      AcrossIsOpen(w, n, i, j, l);
      AcrossIsOpen(w, n, x, i, l);
    }
  }

  lemma BlockInRange(w: World, j: nat, l: nat, x: nat)
    requires WellFormed(w) && j < |w.envs| && l <= w.k && Block(x, l) == Block(j, l)
    ensures x < |w.envs|
  {
    BlocksStayShared(x, j, l, w.k);
    WholeBlock(x, w.k);
    WholeBlock(j, w.k);
  }

  lemma OpenKnowsAll(w: World, n: Net, j: nat, l: nat)
    requires WellFormed(w) && NodesOk(w, n.nodes) && Shaped(w, n) && AllSettled(w, n)
    requires j < |w.envs| && 0 < l <= w.k && AllActive(w, n, l) && !n.nodes[j].levels[l].value.completed
    ensures |n.nodes[j].levels[l].value.best.contribution| >= Pow2(l)
  {
    var best := n.nodes[j].levels[l].value.best.contribution;
    forall x: nat | Block(x, l) == Block(j, l) ensures x in best {
      BlockInRange(w, j, l, x);
      KnowsBlock(w, n, j, l, x);
    }
    HoldsBlock(best, Block(j, l), l);
  }

  lemma SettledShort(w: World, n: Net, i: nat, j: nat, l: nat)
    requires i < |n.nodes| && j < |n.nodes| && l < |n.nodes[i].levels| && l < |n.nodes[j].levels| && j < |w.envs|
    requires n.nodes[i].levels[l].Some? && n.nodes[j].levels[l].Some? && Settled(w, n, i, j, l)
    requires !n.nodes[j].levels[l].value.completed && w.envs[j].conf.threshold.num <= w.envs[j].conf.threshold.denom
    ensures |n.nodes[j].levels[l].value.best.contribution| < Pow2(l)
  {
    MinWithin(w.envs[j].conf.threshold, Pow2(l));
  }

  lemma OpenIsShort(w: World, n: Net, j: nat, l: nat)
    requires WellFormed(w) && NodesOk(w, n.nodes) && Shaped(w, n) && AllSettled(w, n)
    requires j < |w.envs| && 0 < l <= w.k && AllActive(w, n, l) && !n.nodes[j].levels[l].value.completed
    ensures |n.nodes[j].levels[l].value.best.contribution| < Pow2(l)
  {
    var i := LevelInhabited(w, j, l);
    LevelFacts(w, n, j, l);
    SettledShort(w, n, i, j, l);
  }

  lemma LevelDone(w: World, n: Net, j: nat, l: nat)
    requires WellFormed(w) && NodesOk(w, n.nodes) && Shaped(w, n) && AllSettled(w, n)
    requires j < |w.envs| && 0 < l <= w.k && AllActive(w, n, l)
    ensures LevelCompleted(n.nodes[j].levels[l])
  {
    if !n.nodes[j].levels[l].value.completed {
      OpenKnowsAll(w, n, j, l);
      OpenIsShort(w, n, j, l);
    }
  }

  lemma {:induction false} SettledDone(w: World, n: Net, l: nat)
    requires WellFormed(w) && NodesOk(w, n.nodes) && Shaped(w, n) && AllSettled(w, n) && l <= w.k
    ensures forall j: nat :: j < |w.envs| ==> LevelCompleted(n.nodes[j].levels[l])
  {
    if l == 0 {
      forall j: nat | j < |w.envs| ensures LevelCompleted(n.nodes[j].levels[0]) { assert OkAt(w, n.nodes, j); }
    } else {
      SettledDone(w, n, l - 1);
      NextActive(w, n, l);
      forall j: nat | j < |w.envs| ensures LevelCompleted(n.nodes[j].levels[l]) { LevelDone(w, n, j, l); }
    }
  }

  lemma NextActive(w: World, n: Net, l: nat)
    requires NodesOk(w, n.nodes) && Shaped(w, n) && 0 < l <= w.k
    requires forall j: nat :: j < |w.envs| ==> LevelCompleted(n.nodes[j].levels[l - 1])
    ensures AllActive(w, n, l)
  {
    forall i: nat | i < |w.envs| ensures n.nodes[i].levels[l].Some? {
      assert OkAt(w, n.nodes, i) && LevelCompleted(n.nodes[i].levels[l - 1]);
      assert l - 1 + 1 < |n.nodes[i].levels|;
    }
  }

  // ----- every node completes -----

  ghost predicate EveryoneDone(w: World, n: Net) {
    |n.nodes| == |w.envs| && forall i: nat :: i < |n.nodes| ==> n.nodes[i].levels != [] && CompleteAggregate(n.nodes[i]).Some?
  }

  lemma QuietAllSettled(w: World, run: seq<Net>, acts: seq<Act>, a: nat, b: nat)
    requires WellFormed(w) && IsRun(w, run, acts) && a <= b <= |acts|
    requires Gaining(run) && Fair(w, run, acts, a, b) && NetScore(run[a].nodes) == NetScore(run[b].nodes)
    ensures AllSettled(w, run[a])
  {
    var n := run[a];
    forall i: nat, j: nat, l: nat |
      i < |w.envs| && j < |w.envs| && l <= w.k && AtLevel(i, j, l) && n.nodes[i].levels[l].Some? && n.nodes[j].levels[l].Some?
      ensures Settled(w, n, i, j, l)
    {
      QuietSettles(w, run, acts, a, b, i, j, l);
    }
  }

  lemma TopDone(w: World, n: Net)
    requires Shaped(w, n) && forall j: nat :: j < |w.envs| ==> LevelCompleted(n.nodes[j].levels[w.k])
    ensures EveryoneDone(w, n)
  {
    forall i: nat | i < |n.nodes| ensures n.nodes[i].levels != [] && CompleteAggregate(n.nodes[i]).Some? {
      assert LevelCompleted(n.nodes[i].levels[w.k]);
    }
  }

  /** A fair stretch that gains nothing starts from a network that is done. */
  lemma QuietMeansDone(w: World, run: seq<Net>, acts: seq<Act>, a: nat, b: nat)
    requires WellFormed(w) && IsRun(w, run, acts) && a <= b <= |acts|
    requires Gaining(run) && Fair(w, run, acts, a, b) && NetScore(run[a].nodes) == NetScore(run[b].nodes)
    ensures EveryoneDone(w, run[a])
  {
    RunNetOk(w, run, acts, a);
    QuietAllSettled(w, run, acts, a, b);
    SettledDone(w, run[a], w.k);
    TopDone(w, run[a]);
  }

  /** A network that is done stays done. */
  lemma DoneLasts(w: World, run: seq<Net>, a: nat, b: nat)
    requires Gaining(run) && a <= b < |run| && EveryoneDone(w, run[a])
    ensures EveryoneDone(w, run[b])
  {
    GrowsBetween(run, a, b);
    forall i: nat | i < |run[b].nodes| ensures run[b].nodes[i].levels != [] && CompleteAggregate(run[b].nodes[i]).Some? {
      var x, y := run[a].nodes[i], run[b].nodes[i];
      assert Grows(x, y) && CompleteAggregate(x).Some?;
      assert LevelGrows(x.levels[|x.levels| - 1], y.levels[|x.levels| - 1]);
    }
  }

  // ----- the bound on the number of fair stretches -----

  lemma {:induction false} LevelsScoreBound(levels: seq<Option<ActiveLevel>>, m: nat)
    requires forall l: nat :: l < |levels| ==> LevelScore(levels[l]) <= m
    ensures LevelsScore(levels) <= |levels| * m
  {
    if levels != [] {
      LevelsScoreBound(levels[1..], m);
      assert |levels| * m == m + |levels[1..]| * m;
    }
  }

  lemma {:induction false} NetScoreBound(nodes: seq<State>, m: nat)
    requires forall i: nat :: i < |nodes| ==> LevelsScore(nodes[i].levels) <= m
    ensures NetScore(nodes) <= |nodes| * m
  {
    if nodes != [] {
      NetScoreBound(nodes[1..], m);
      assert |nodes| * m == m + |nodes[1..]| * m;
    }
  }

  /** The most a network can gain: every level of every host active, complete and holding everything. */
  function MostGain(w: World): nat {
    |w.envs| * ((w.k + 1) * (|w.truth| + 2))
  }

  lemma NodeScoreBound(w: World, n: Net, i: nat)
    requires NodesOk(w, n.nodes) && Shaped(w, n) && i < |w.envs|
    ensures LevelsScore(n.nodes[i].levels) <= (w.k + 1) * (|w.truth| + 2)
  {
    var levels := n.nodes[i].levels;
    assert OkAt(w, n.nodes, i);
    forall l: nat | l < |levels| ensures LevelScore(levels[l]) <= |w.truth| + 2 {
      if levels[l].Some? {
        assert HonestLevel(w, i, levels[l].value);
        PartWeighs(levels[l].value.best.contribution, w.truth);
      }
    }
    LevelsScoreBound(levels, |w.truth| + 2);
  }

  lemma GainBound(w: World, n: Net)
    requires NodesOk(w, n.nodes) && Shaped(w, n)
    ensures NetScore(n.nodes) <= MostGain(w)
  {
    forall i: nat | i < |n.nodes| ensures LevelsScore(n.nodes[i].levels) <= (w.k + 1) * (|w.truth| + 2) { NodeScoreBound(w, n, i); }
    NetScoreBound(n.nodes, (w.k + 1) * (|w.truth| + 2));
  }

  ghost predicate FairRound(w: World, run: seq<Net>, acts: seq<Act>, a: nat, b: nat)
    requires Addressed(w) && |run| == |acts| + 1
  {
    a <= b <= |acts| && Fair(w, run, acts, a, b)
  }

  ghost predicate FairAt(w: World, run: seq<Net>, acts: seq<Act>, cuts: seq<nat>, r: nat)
    requires Addressed(w) && |run| == |acts| + 1 && r + 1 < |cuts|
  {
    FairRound(w, run, acts, cuts[r], cuts[r + 1])
  }

  /** Consecutive fair stretches of the run, from each cut to the next. */
  ghost predicate FairRounds(w: World, run: seq<Net>, acts: seq<Act>, cuts: seq<nat>)
    requires Addressed(w) && |run| == |acts| + 1
  {
    (forall r: nat :: r < |cuts| ==> cuts[r] <= |acts|) && forall r: nat :: r + 1 < |cuts| ==> FairAt(w, run, acts, cuts, r)
  }

  /** A fair stretch gains, unless the network is done. */
  lemma FairGains(w: World, run: seq<Net>, acts: seq<Act>, a: nat, b: nat)
    requires WellFormed(w) && IsRun(w, run, acts) && Gaining(run) && FairRound(w, run, acts, a, b)
    ensures EveryoneDone(w, run[b]) || NetScore(run[b].nodes) > NetScore(run[a].nodes)
    ensures EveryoneDone(w, run[a]) ==> EveryoneDone(w, run[b])
  {
    GrowsBetween(run, a, b);
    NetScoreGrows(run[a].nodes, run[b].nodes);
    if NetScore(run[a].nodes) == NetScore(run[b].nodes) { QuietMeansDone(w, run, acts, a, b); }
    if EveryoneDone(w, run[a]) { DoneLasts(w, run, a, b); }
  }

  /** After `r` fair stretches the network is done or has gained at least `r`. */
  lemma {:induction false} RoundsGain(w: World, run: seq<Net>, acts: seq<Act>, cuts: seq<nat>, r: nat)
    requires WellFormed(w) && IsRun(w, run, acts) && Gaining(run) && FairRounds(w, run, acts, cuts) && r < |cuts|
    ensures EveryoneDone(w, run[cuts[r]]) || NetScore(run[cuts[r]].nodes) >= r
  {
    if r > 0 {
      RoundsGain(w, run, acts, cuts, r - 1);
      assert FairAt(w, run, acts, cuts, r - 1);
      FairGains(w, run, acts, cuts[r - 1], cuts[r]);
    }
  }

  lemma EveryoneCompletes(w: World, run: seq<Net>, acts: seq<Act>, cuts: seq<nat>)
    requires WellFormed(w) && IsRun(w, run, acts) && FairRounds(w, run, acts, cuts) && |cuts| > MostGain(w) + 1
    ensures EveryoneDone(w, run[|acts|])
  {
    RunGrows(w, run, acts);
    var r := MostGain(w) + 1;
    RoundsGain(w, run, acts, cuts, r);
    RunNetOk(w, run, acts, cuts[r]);
    NetShaped(w, run[cuts[r]]);
    GainBound(w, run[cuts[r]]);
    DoneLasts(w, run, cuts[r], |acts|);
  }
}
