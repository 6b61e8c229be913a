/** A run of two honest hosts in which everybody keeps disseminating and everything arrives. */
module HandelPair {
  import opened Prelude
  import opened Sorting
  import opened Partitioning
  import opened Contributions
  import opened HandelSpec
  import opened HandelSafety
  import opened HandelFairness
  import opened HandelHonest
  import opened HandelNetwork
  import opened HandelSchedule

  // ----- two hosts -----

  function Other(i: nat): nat {
    if i == 0 then 1 else 0
  }

  function PairEnv(peers: seq<PeerId>, i: nat): Env {
    Env(Config(Threshold(1, 1), 2, 2, 0), (j: nat, value: Value) => true, Partitions(peers, [[], [Other(i)]], [[], [Other(i)]]), i)
  }

  function PairWorld(peers: seq<PeerId>, value: Value): World {
    World(seq(2, (i: nat) => PairEnv(peers, i)), map[0 := value, 1 := value], 1)
  }

  lemma AtLevelOfTwo(i: nat, j: nat, l: nat)
    requires i < 2 && l < 2
    ensures AtLevel(i, j, l) && j < 2 <==> j in [[], [Other(i)]][l]
  {
    assert Block(i, 1) == i / 2 && Block(j, 1) == j / 2;
  }

  lemma PairFits(peers: seq<PeerId>, value: Value, i: nat)
    requires |peers| == 2 && Distinct(peers) && i < 2
    ensures HostFits(PairWorld(peers, value), i)
  {
    var w, levels := PairWorld(peers, value), [[], [Other(i)]];
    assert Pow2(1) == 2;
    forall l: nat | l < 2 ensures HoldsLevel(levels[l], Elements(peers), peers, i, l) {
      forall j: nat ensures j in levels[l] <==> j < |peers| && peers[j] in Elements(peers) && AtLevel(i, j, l) {
        AtLevelOfTwo(i, j, l);
      }
    }
    assert OwnOf(w, i) == map[i := value] && |map[i := value]| == 1;
  }

  lemma PairWellFormed(peers: seq<PeerId>, value: Value)
    requires |peers| == 2 && Distinct(peers)
    ensures WellFormed(PairWorld(peers, value))
  {
    var w := PairWorld(peers, value);
    assert Pow2(1) == 2;
    forall i: nat | i < |w.envs| ensures i in w.truth && HostFits(w, i) { PairFits(peers, value, i); }
  }

  // ----- what one host goes through -----

  const CALL: Event := Poll(true, false, true)
  const QUIET: Event := Poll(true, false, false)

  /** What a host sends once it has completed. */
  function Report(w: World, i: nat): Message {
    Message(1, Some(OwnOf(w, i)), w.truth, false)
  }

  /** A host of a pair. */
  ghost predicate Paired(w: World, i: nat) {
    && WellFormed(w) && w.k == 1 && |w.envs| == 2 && i < 2 && |w.truth| == 2 && AtLevel(i, Other(i), 1)
    && |w.envs[i].pp.cvp| == |w.envs[i].pp.vp| == 2 && w.envs[i].pp.cvp[1] == w.envs[i].pp.vp[1] == [Other(i)]
    && |w.envs[i].pp.peers| == 2 && w.envs[i].pp.peers == w.envs[0].pp.peers
    && w.envs[i].conf.threshold == Threshold(1, 1) && w.envs[i].conf.fastPathWindow == 0
  }

  /** The event that hands host `i` a message of the other one. */
  function Hand(w: World, i: nat, m: Message): Event
    requires w.envs != [] && |w.envs[0].pp.peers| == 2
  {
    Deliver(w.envs[0].pp.peers[Other(i)], m)
  }

  /** A dissemination with two levels is one turn. */
  lemma OneTurn(e: Env, s: State)
    requires Inv(e, s) && |s.levels| == 2 && s.levels[1].Some? && |e.pp.cvp[1]| == 1
    ensures AllContactable(e, s) && Contactable(e, 1, s.levels[1].value)
    ensures
      var next := NextAt(e, s, 1);
      && DisseminateFrom(e, s, 1) == s.(
           levels := if next.Some? then s.levels[1 := Some(Contacted(s.levels[1].value, next.value))] else s.levels,
           outbox := s.outbox + if next.Some? then [TurnEnvelope(e, s, 1, next.value)] else [])
      && NewlySent(e, s) == if next.Some? then [TurnEnvelope(e, s, 1, next.value)] else []
  {
    InvContactable(e, s);
    OwnTurn(e, s, 1);
    assert DisseminateFrom(e, s, 1) == DisseminateFrom(e, DisseminateAt(e, s, 1), 2);
    assert DisseminateFrom(e, s, 1) == DisseminateAt(e, s, 1);
  }

  /** The next contact of a level with one peer. */
  lemma OnlyContact(e: Env, s: State)
    requires |s.levels| == |e.pp.cvp| == 2 && s.levels[1].Some? && |e.pp.cvp[1]| == 1 && Contactable(e, 1, s.levels[1].value)
    ensures NextAt(e, s, 1) == if ReportedComplete(s.completedLevels, e.pp.cvp[1][0], 1) then None else Some(0)
  {
    var done := DoneAt(e.pp.cvp[1], s.completedLevels, 1);
    assert done == [ReportedComplete(s.completedLevels, e.pp.cvp[1][0], 1)];
  }

  /** Level 1 holds `c`, completed or not, with its last contact, the other's report if `told`, and nothing waits. */
  ghost predicate Shape(w: World, i: nat, s: State, c: Contrib, done: bool, last: Option<nat>, told: bool) {
    && |s.levels| == |s.pending| == 2 && s.outbox == [] && s.pending[1] == map[] && OwnContribution(s) == Some(OwnOf(w, i))
    && s.levels[1].Some? && s.levels[1].value.best.contribution == c && s.levels[1].value.completed == done
    && s.levels[1].value.lastContacted == last
    && s.completedLevels == if told then ReportCompleted(map[], Other(i), 1) else map[]
  }

  lemma StartShape(w: World, i: nat)
    requires i < |w.envs| && |w.envs[i].pp.vp| == 2
    ensures Shape(w, i, Initial(w.envs[i], OwnOf(w, i)), OwnOf(w, i), false, None, false)
  {
  }

  lemma TickIsRound(e: Env, s: State)
    requires Inv(e, s)
    ensures AllContactable(e, s) && Tick(e, s, true, false) == DisseminateFrom(e, s, 1)
  {
    InvContactable(e, s);
  }

  /** A poll that disseminates at a level with one silent peer hands out the message to it. */
  lemma CallAt(e: Env, s: State)
    requires Inv(e, s) && |s.levels| == 2 && s.levels[1].Some? && |e.pp.cvp[1]| == 1 && s.outbox == []
    requires !ReportedComplete(s.completedLevels, e.pp.cvp[1][0], 1)
    ensures
      var env := TurnEnvelope(e, s, 1, 0);
      && |s.levels[1].value.sentScores| > 0 && Step(e, s, CALL) == s.(levels := s.levels[1 := Some(Contacted(s.levels[1].value, 0))])
      && Output(e, s, CALL) == Send(env) && NewlySent(e, s) == [env]
  {
    OneTurn(e, s);
    OnlyContact(e, s);
    TickIsRound(e, s);
  }

  lemma QuietAt(e: Env, s: State)
    requires Inv(e, s) && |s.levels| == 2 && s.levels[1].Some? && |e.pp.cvp[1]| == 1
    requires ReportedComplete(s.completedLevels, e.pp.cvp[1][0], 1)
    ensures Step(e, s, QUIET) == s && NewlySent(e, s) == []
  {
    OneTurn(e, s);
    OnlyContact(e, s);
    TickIsRound(e, s);
    assert s.outbox + [] == s.outbox;
  }

  /** A dissemination sends what is held, as long as the other has not reported. */
  lemma CallSends(w: World, i: nat, s: State, c: Contrib, done: bool, last: Option<nat>)
    requires Paired(w, i) && Inv(w.envs[i], s) && Shape(w, i, s, c, done, last, false)
    ensures
      var e, env := w.envs[i], Envelope(w.envs[0].pp.peers[Other(i)], Message(1, Some(OwnOf(w, i)), c, !done));
      && Shape(w, i, Step(e, s, CALL), c, done, Some(0), false)
      && Output(e, s, CALL) == Send(env) && NewlySent(e, s) == [env]
  {
    CallAt(w.envs[i], s);
    CallShape(w, i, s, c, done, last);
  }

  lemma CallShape(w: World, i: nat, s: State, c: Contrib, done: bool, last: Option<nat>)
    requires Shape(w, i, s, c, done, last, false) && |s.levels[1].value.sentScores| > 0
    ensures Shape(w, i, s.(levels := s.levels[1 := Some(Contacted(s.levels[1].value, 0))]), c, done, Some(0), false)
  {
  }

  /** Once the other has reported, nothing happens any more. */
  lemma QuietCall(w: World, i: nat, s: State, c: Contrib, done: bool, last: Option<nat>)
    requires Paired(w, i) && Inv(w.envs[i], s) && Shape(w, i, s, c, done, last, true)
    ensures Step(w.envs[i], s, QUIET) == s && NewlySent(w.envs[i], s) == []
  {
    QuietAt(w.envs[i], s);
  }

  lemma NoFastPath(e: Env, s: State, level: nat)
    requires level < |s.levels| == |e.pp.cvp| && e.conf.fastPathWindow == 0
    ensures RunFastPath(e, s, level) == s
  {
    if s.levels[level].Some? {
      var lvl := s.levels[level].value;
      var peers := FastPathPeers(e.pp.cvp[level], s.completedLevels, level, Offset(lvl.lastContacted), 0);
      assert peers == [];
      assert s.outbox + [] == s.outbox;
    }
  }

  lemma OnePicked(peers: seq<nat>, pending: map<nat, Pending>, x: nat, p: Pending, window: nat)
    requires peers == [x] && pending == map[x := p] && window > 0
    ensures Prioritize(peers, pending, [], window).1 == map[]
  {
    assert pending - {x} == map[];
    assert [x][1..] == [];
  }

  /** The whole truth is known when both contributions are. */
  lemma BothIsAll(w: World, c: Contrib)
    requires |w.truth| == 2 && Part(c, w.truth) && |c| >= 2
    ensures c == w.truth
  {
    PartWeighs(c, w.truth);
  }

  /** One aggregation completes the level with everything. */
  lemma PairAggregates(w: World, i: nat, s: State)
    requires Paired(w, i) && NodeOk(w, i, s) && |s.levels| == |s.pending| == 2 && s.levels[1].Some?
    requires s.pending[1] == map[Other(i) := Pending(Other(i), OwnOf(w, Other(i)), Some(OwnOf(w, Other(i))))]
    requires s.levels[1].value.best.contribution == OwnOf(w, i) && !s.levels[1].value.completed
    ensures
      var (t, lvl) := Aggregate(w.envs[i], s, 1, s.levels[1].value);
      lvl.completed && lvl.best.contribution == w.truth && t.pending[1] == map[]
  {
    var e := w.envs[i];
    assert i in w.truth && Other(i) in w.truth;
    AggregatesOne(w, i, s, Other(i), 1);
    HonestBestAt(w, i, s, 1);
    var (t, lvl) := Aggregate(e, s, 1, s.levels[1].value);
    BothIsAll(w, lvl.best.contribution);
    CompletesIff(e, s, 1);
    assert Pow2(1) == 2;
    assert LevelOk(e, 1, s.levels[1].value);
    OnePicked(e.pp.vp[1], s.pending[1], Other(i), s.pending[1][Other(i)], s.window);
  }

  /** Hearing the other's contribution completes the level. */
  lemma HearsFirst(w: World, i: nat, s: State)
    requires Paired(w, i) && NodeOk(w, i, s) && Shape(w, i, s, OwnOf(w, i), false, Some(0), false)
    ensures Inv(w.envs[i], s) && Enabled(w.envs[i], s, Hand(w, i, OwnMessage(w, Other(i), 1)))
    ensures Shape(w, i, Step(w.envs[i], s, Hand(w, i, OwnMessage(w, Other(i), 1))), w.truth, true, Some(0), false)
  {
    var e, j, from := w.envs[i], Other(i), w.envs[0].pp.peers[Other(i)];
    assert j in w.truth;
    KnownPeer(w, i, j);
    OwnMessageHonest(w, j, 1);
    InjectHonest(w, i, s, j, OwnMessage(w, j, 1));
    StoresOwn(e, s, from, j, 1, OwnOf(w, j));
    StoredHonest(w, i, s, j, OwnMessage(w, j, 1));
    HearsFirstAt(w, i, Holding(s, j, 1, OwnOf(w, j)));
  }

  lemma HearsFirstAt(w: World, i: nat, s: State)
    requires Paired(w, i) && NodeOk(w, i, s) && |s.levels| == |s.pending| == 2 && s.levels[1].Some? && s.outbox == []
    requires s.pending[1] == map[Other(i) := Pending(Other(i), OwnOf(w, Other(i)), Some(OwnOf(w, Other(i))))]
    requires s.levels[1].value.best.contribution == OwnOf(w, i) && !s.levels[1].value.completed
    requires s.levels[1].value.lastContacted == Some(0) && s.completedLevels == map[] && OwnContribution(s) == Some(OwnOf(w, i))
    ensures AggregationSafe(w.envs[i], s, 1)
    ensures Shape(w, i, RunAggregation(w.envs[i], s, 1), w.truth, true, Some(0), false)
  {
    AlwaysSafe(w, i, s, 1);
    PairAggregates(w, i, s);
    assert Other(i) in s.pending[1];
    CompletesAt(w.envs[i], s);
    var (t, lvl) := Aggregate(w.envs[i], s, 1, s.levels[1].value);
    CompletedShape(w, i, s, t, lvl);
  }

  lemma CompletedShape(w: World, i: nat, s: State, t: State, lvl: ActiveLevel)
    requires |s.levels| == |s.pending| == |t.pending| == 2 && OwnContribution(s) == Some(OwnOf(w, i)) && s.completedLevels == map[]
    requires t.levels == s.levels[1 := Some(lvl)] && t.outbox == [] && t.completedLevels == s.completedLevels && t.pending[1] == map[]
    requires lvl.completed && lvl.best.contribution == w.truth && lvl.lastContacted == Some(0)
    ensures Shape(w, i, t, w.truth, true, Some(0), false)
  {
  }

  /** An aggregation that completes the top level is the aggregation alone. */
  lemma CompletesAt(e: Env, s: State)
    requires Inv(e, s) && |s.levels| == 2 && s.levels[1].Some? && !s.levels[1].value.completed && s.pending[1] != map[]
    requires e.pp.cvp[1] != [] && e.conf.fastPathWindow == 0 && AggregationSafe(e, s, 1)
    ensures
      var (t, lvl) := Aggregate(e, s, 1, s.levels[1].value);
      && RunAggregation(e, s, 1) == t && t.levels == s.levels[1 := Some(lvl)] && |t.pending| == |s.pending| && t.outbox == s.outbox
      && t.completedLevels == s.completedLevels && lvl.lastContacted == s.levels[1].value.lastContacted
  {
    AggregationShape(e, s, 1);
    AggregateFrame(e, s, 1);
    NoFastPath(e, Aggregate(e, s, 1, s.levels[1].value).0, 1);
  }

  lemma ReportAt(e: Env, s: State, from: PeerId, j: nat, m: Message)
    requires Inv(e, s) && Deliverable(e, s, from, m) && Position(e.pp.peers, from) == Some(j)
    requires m.level < |s.levels| && LevelCompleted(s.levels[m.level]) && !m.contactSender
    ensures Inject(e, s, from, m) == s.(completedLevels := ReportCompleted(s.completedLevels, j, m.level))
  {
  }

  /** A report is recorded and changes nothing else. */
  lemma HearsReport(w: World, i: nat, s: State)
    requires Paired(w, i) && NodeOk(w, i, s) && Shape(w, i, s, w.truth, true, Some(0), false)
    ensures Inv(w.envs[i], s) && Enabled(w.envs[i], s, Hand(w, i, Report(w, Other(i))))
    ensures Shape(w, i, Step(w.envs[i], s, Hand(w, i, Report(w, Other(i)))), w.truth, true, Some(0), true)
  {
    var j := Other(i);
    KnownPeer(w, i, j);
    assert j in w.truth;
    ReportHonest(w, j);
    InjectHonest(w, i, s, j, Report(w, j));
    ReportAt(w.envs[i], s, w.envs[0].pp.peers[j], j, Report(w, j));
    ReportShape(w, i, s);
  }

  lemma ReportHonest(w: World, j: nat)
    requires j in w.truth && w.k == 1
    ensures HonestMessage(w, Report(w, j))
  {
  }

  lemma ReportShape(w: World, i: nat, s: State)
    requires Shape(w, i, s, w.truth, true, Some(0), false)
    ensures Shape(w, i, s.(completedLevels := ReportCompleted(s.completedLevels, Other(i), 1)), w.truth, true, Some(0), true)
  {
  }

  /** The states a host goes through. */
  datatype Stages = Stages(s0: State, s1: State, s2: State, s3: State, s4: State)

  ghost predicate Sends(e: Env, s: State, s': State, env: Envelope) {
    Inv(e, s) && s' == Step(e, s, CALL) && Output(e, s, CALL) == Send(env) && NewlySent(e, s) == [env]
  }

  ghost predicate Takes(e: Env, s: State, s': State, ev: Event) {
    Inv(e, s) && Enabled(e, s, ev) && s' == Step(e, s, ev)
  }

  function Letter(w: World, i: nat, m: Message): Envelope
    requires w.envs != [] && |w.envs[0].pp.peers| == 2
  {
    Envelope(w.envs[0].pp.peers[Other(i)], m)
  }

  /** From each state to the next, and the last one stays. */
  ghost predicate StageFact(w: World, i: nat, st: Stages, k: nat)
    requires i < |w.envs| && |w.envs[0].pp.peers| == 2
  {
    var e, j := w.envs[i], Other(i);
    if k == 0 then
      |e.pp.vp| >= 2 && st.s0 == Initial(e, OwnOf(w, i)) && Sends(e, st.s0, st.s1, Letter(w, i, OwnMessage(w, i, 1)))
    else if k == 1 then Takes(e, st.s1, st.s2, Hand(w, i, OwnMessage(w, j, 1)))
    else if k == 2 then Sends(e, st.s2, st.s3, Letter(w, i, Report(w, i)))
    else if k == 3 then Takes(e, st.s3, st.s4, Hand(w, i, Report(w, j)))
    else if k == 4 then Inv(e, st.s4) && Step(e, st.s4, QUIET) == st.s4 && NewlySent(e, st.s4) == []
    else Shape(w, i, st.s4, w.truth, true, Some(0), true)
  }

  ghost predicate StagesOk(w: World, i: nat, st: Stages)
    requires i < |w.envs| && |w.envs[0].pp.peers| == 2
  {
    forall k: nat :: StageFact(w, i, st, k)
  }

  /** What a poll leaves an honest node. */
  lemma CallOk(w: World, i: nat, s: State)
    requires WellFormed(w) && i < |w.envs| && NodeOk(w, i, s)
    ensures Inv(w.envs[i], s) && NodeOk(w, i, Step(w.envs[i], s, CALL))
  {
    PollNodeOk(w, i, s, CALL);
  }

  lemma HandOk(w: World, i: nat, s: State, m: Message)
    requires Paired(w, i) && NodeOk(w, i, s) && HonestMessage(w, m)
    ensures Inv(w.envs[i], s) && Enabled(w.envs[i], s, Hand(w, i, m)) && NodeOk(w, i, Step(w.envs[i], s, Hand(w, i, m)))
  {
    InjectHonest(w, i, s, Other(i), m);
  }

  lemma FirstStages(w: World, i: nat) returns (s0: State, s1: State, s2: State)
    requires Paired(w, i)
    ensures
      var e := w.envs[i];
      && |e.pp.vp| >= 2 && s0 == Initial(e, OwnOf(w, i)) && Sends(e, s0, s1, Letter(w, i, OwnMessage(w, i, 1)))
      && Takes(e, s1, s2, Hand(w, i, OwnMessage(w, Other(i), 1)))
      && NodeOk(w, i, s2) && Shape(w, i, s2, w.truth, true, Some(0), false)
  {
    var e, own := w.envs[i], OwnOf(w, i);
    assert Other(i) in w.truth;
    InitialNodeOk(w, i);
    StartShape(w, i);
    s0 := Initial(e, own);
    CallOk(w, i, s0);
    CallSends(w, i, s0, own, false, None);
    s1 := Step(e, s0, CALL);
    HearsFirst(w, i, s1);
    OwnMessageHonest(w, Other(i), 1);
    HandOk(w, i, s1, OwnMessage(w, Other(i), 1));
    s2 := Step(e, s1, Hand(w, i, OwnMessage(w, Other(i), 1)));
  }

  lemma LaterStages(w: World, i: nat, s2: State) returns (s3: State, s4: State)
    requires Paired(w, i) && NodeOk(w, i, s2) && Shape(w, i, s2, w.truth, true, Some(0), false)
    ensures
      var e := w.envs[i];
      && Sends(e, s2, s3, Letter(w, i, Report(w, i))) && Takes(e, s3, s4, Hand(w, i, Report(w, Other(i))))
      && Inv(e, s4) && Step(e, s4, QUIET) == s4 && NewlySent(e, s4) == [] && Shape(w, i, s4, w.truth, true, Some(0), true)
  {
    var e := w.envs[i];
    assert Other(i) in w.truth;
    CallOk(w, i, s2);
    CallSends(w, i, s2, w.truth, true, Some(0));
    s3 := Step(e, s2, CALL);
    HearsReport(w, i, s3);
    ReportHonest(w, Other(i));
    HandOk(w, i, s3, Report(w, Other(i)));
    s4 := Step(e, s3, Hand(w, i, Report(w, Other(i))));
    QuietCall(w, i, s4, w.truth, true, Some(0));
  }

  lemma HostStages(w: World, i: nat) returns (st: Stages)
    requires Paired(w, i)
    ensures StagesOk(w, i, st)
  {
    var s0, s1, s2 := FirstStages(w, i);
    var s3, s4 := LaterStages(w, i, s2);
    st := Stages(s0, s1, s2, s3, s4);
    forall k: nat ensures StageFact(w, i, st, k) { }
  }

  // ----- the run -----

  function NodesAt(a: Stages, b: Stages, t: nat): seq<State> {
    if t == 0 then [a.s0, b.s0] else if t == 1 then [a.s1, b.s0] else if t == 2 then [a.s1, b.s1]
    else if t == 3 then [a.s1, b.s2] else if t == 4 then [a.s2, b.s2] else if t == 5 then [a.s3, b.s2]
    else if t == 6 then [a.s3, b.s3] else if t == 7 then [a.s3, b.s4] else [a.s4, b.s4]
  }

  function PacketFrom(w: World, i: nat, m: Message): Packet
    requires w.envs != [] && |w.envs[0].pp.peers| == 2
  {
    Packet(i, w.envs[0].pp.peers[Other(i)], m)
  }

  function SentAt(w: World, t: nat): set<Packet>
    requires w.envs != [] && |w.envs[0].pp.peers| == 2
  {
    (if t >= 1 then {PacketFrom(w, 0, OwnMessage(w, 0, 1))} else {}) + (if t >= 2 then {PacketFrom(w, 1, OwnMessage(w, 1, 1))} else {})
    + (if t >= 5 then {PacketFrom(w, 0, Report(w, 0))} else {}) + (if t >= 6 then {PacketFrom(w, 1, Report(w, 1))} else {})
  }

  function ActAt(w: World, t: nat): Act
    requires w.envs != [] && |w.envs[0].pp.peers| == 2
  {
    if t == 0 || t == 4 then Act(0, CALL) else if t == 1 || t == 5 then Act(1, CALL)
    else if t == 2 then Act(1, Hand(w, 1, OwnMessage(w, 0, 1))) else if t == 3 then Act(0, Hand(w, 0, OwnMessage(w, 1, 1)))
    else if t == 6 then Act(1, Hand(w, 1, Report(w, 0))) else if t == 7 then Act(0, Hand(w, 0, Report(w, 1)))
    else Act(t % 2, QUIET)
  }

  function NetAt(w: World, a: Stages, b: Stages, t: nat): Net
    requires w.envs != [] && |w.envs[0].pp.peers| == 2
  {
    Net(NodesAt(a, b, t), SentAt(w, t))
  }

  function MessageAt(w: World, t: nat): Message
    requires w.envs != [] && |w.envs[0].pp.peers| == 2
  {
    var i := if t % 2 == 0 then 0 else 1;
    if t < 4 then OwnMessage(w, i, 1) else Report(w, i)
  }

  lemma CallNet(w: World, a: Stages, b: Stages, t: nat)
    requires w.envs != [] && |w.envs[0].pp.peers| == 2 && t in {0, 1, 4, 5}
    ensures
      && ActAt(w, t) == Act(t % 2, CALL)
      && NetAt(w, a, b, t + 1) == Net(NodesAt(a, b, t)[t % 2 := NodesAt(a, b, t + 1)[t % 2]],
                                      SentAt(w, t) + {PacketFrom(w, t % 2, MessageAt(w, t))})
  {
  }

  lemma HandNet(w: World, a: Stages, b: Stages, t: nat)
    requires w.envs != [] && |w.envs[0].pp.peers| == 2 && t in {2, 3, 6, 7}
    ensures
      && var i := Other(t % 2);
      && ActAt(w, t) == Act(i, Hand(w, i, MessageAt(w, t)))
      && NetAt(w, a, b, t + 1) == Net(NodesAt(a, b, t)[i := NodesAt(a, b, t + 1)[i]], SentAt(w, t))
      && PacketFrom(w, t % 2, MessageAt(w, t)) in SentAt(w, t)
  {
  }

  lemma CallStep(w: World, n: Net, n': Net, i: nat, s': State, env: Envelope)
    requires Addressed(w) && i < |n.nodes| == |w.envs| && Sends(w.envs[i], n.nodes[i], s', env)
    requires n' == Net(n.nodes[i := s'], n.sent + {Packet(i, env.to, env.message)})
    ensures NetStep(w, n, n', Act(i, CALL))
  {
  }

  lemma HandStep(w: World, n: Net, n': Net, i: nat, s': State, m: Message)
    requires Addressed(w) && |w.envs| == |n.nodes| == 2 && i < 2 && Takes(w.envs[i], n.nodes[i], s', Hand(w, i, m))
    requires n' == Net(n.nodes[i := s'], n.sent) && Packet(Other(i), w.envs[0].pp.peers[i], m) in n.sent
    ensures NetStep(w, n, n', Act(i, Hand(w, i, m)))
  {
    assert WasSent(w, n, i, w.envs[0].pp.peers[Other(i)], m);
  }

  lemma QuietStep(w: World, n: Net, i: nat)
    requires Addressed(w) && i < |n.nodes| == |w.envs| && Inv(w.envs[i], n.nodes[i]) && Step(w.envs[i], n.nodes[i], QUIET) == n.nodes[i]
    ensures NetStep(w, n, n, Act(i, QUIET))
  {
    assert n.nodes[i := n.nodes[i]] == n.nodes;
  }

  ghost predicate PairStep(w: World, a: Stages, b: Stages, t: nat)
    requires Addressed(w) && |w.envs| == 2
  {
    NetStep(w, NetAt(w, a, b, t), NetAt(w, a, b, t + 1), ActAt(w, t))
  }

  ghost predicate SendsAt(w: World, a: Stages, b: Stages, t: nat)
    requires |w.envs| == 2 && |w.envs[0].pp.peers| == 2
  {
    Sends(w.envs[t % 2], NodesAt(a, b, t)[t % 2], NodesAt(a, b, t + 1)[t % 2], Letter(w, t % 2, MessageAt(w, t)))
  }

  ghost predicate TakesAt(w: World, a: Stages, b: Stages, t: nat)
    requires |w.envs| == 2 && |w.envs[0].pp.peers| == 2
  {
    var i := Other(t % 2);
    Takes(w.envs[i], NodesAt(a, b, t)[i], NodesAt(a, b, t + 1)[i], Hand(w, i, MessageAt(w, t)))
  }

  lemma SendsFirst(w: World, i: nat, a: Stages, b: Stages)
    requires |w.envs| == 2 && |w.envs[0].pp.peers| == 2 && i < 2 && StagesOk(w, i, if i == 0 then a else b)
    ensures SendsAt(w, a, b, i)
  {
    var st := if i == 0 then a else b;
    assert NodesAt(a, b, i)[i] == st.s0 && NodesAt(a, b, i + 1)[i] == st.s1;
    assert StageFact(w, i, st, 0);
  }

  lemma SendsReport(w: World, i: nat, a: Stages, b: Stages)
    requires |w.envs| == 2 && |w.envs[0].pp.peers| == 2 && i < 2 && StagesOk(w, i, if i == 0 then a else b)
    ensures SendsAt(w, a, b, 4 + i)
  {
    var t, st := 4 + i, if i == 0 then a else b;
    assert t % 2 == i && NodesAt(a, b, t)[i] == st.s2 && NodesAt(a, b, t + 1)[i] == st.s3;
    assert StageFact(w, i, st, 2);
  }

  lemma SendsThen(w: World, i: nat, a: Stages, b: Stages, t: nat)
    requires |w.envs| == 2 && |w.envs[0].pp.peers| == 2 && i < 2 && StagesOk(w, i, if i == 0 then a else b)
    requires t == i || t == 4 + i
    ensures SendsAt(w, a, b, t)
  {
    if t == i { SendsFirst(w, i, a, b); } else { SendsReport(w, i, a, b); }
  }

  lemma TakesFirst(w: World, i: nat, a: Stages, b: Stages)
    requires |w.envs| == 2 && |w.envs[0].pp.peers| == 2 && i < 2 && StagesOk(w, i, if i == 0 then a else b)
    ensures TakesAt(w, a, b, 3 - i)
  {
    if i == 0 {
      assert StageFact(w, 0, a, 1);
      assert TakesAt(w, a, b, 3);
    } else {
      assert StageFact(w, 1, b, 1);
      assert TakesAt(w, a, b, 2);
    }
  }

  lemma TakesReport(w: World, i: nat, a: Stages, b: Stages)
    requires |w.envs| == 2 && |w.envs[0].pp.peers| == 2 && i < 2 && StagesOk(w, i, if i == 0 then a else b)
    ensures TakesAt(w, a, b, 7 - i)
  {
    if i == 0 {
      assert StageFact(w, 0, a, 3);
      assert TakesAt(w, a, b, 7);
    } else {
      assert StageFact(w, 1, b, 3);
      assert TakesAt(w, a, b, 6);
    }
  }

  lemma SendsStep(w: World, a: Stages, b: Stages, t: nat)
    requires Addressed(w) && |w.envs| == 2 && t in {0, 1, 4, 5} && SendsAt(w, a, b, t)
    ensures PairStep(w, a, b, t)
  {
    CallNet(w, a, b, t);
    CallStep(w, NetAt(w, a, b, t), NetAt(w, a, b, t + 1), t % 2, NodesAt(a, b, t + 1)[t % 2], Letter(w, t % 2, MessageAt(w, t)));
  }

  lemma TakesStep(w: World, a: Stages, b: Stages, t: nat)
    requires Addressed(w) && |w.envs| == 2 && t in {2, 3, 6, 7} && TakesAt(w, a, b, t)
    ensures PairStep(w, a, b, t)
  {
    HandNet(w, a, b, t);
    var i := Other(t % 2);
    HandStep(w, NetAt(w, a, b, t), NetAt(w, a, b, t + 1), i, NodesAt(a, b, t + 1)[i], MessageAt(w, t));
  }

  lemma StaysStep(w: World, i: nat, a: Stages, b: Stages, t: nat)
    requires Addressed(w) && |w.envs| == 2 && i < 2 && StagesOk(w, i, if i == 0 then a else b) && t >= 8 && t % 2 == i
    ensures PairStep(w, a, b, t)
  {
    assert StageFact(w, i, if i == 0 then a else b, 4);
    QuietStep(w, NetAt(w, a, b, t), i);
  }

  ghost predicate PairSteps(w: World, a: Stages, b: Stages)
    requires Addressed(w) && |w.envs| == 2
  {
    forall t: nat :: PairStep(w, a, b, t)
  }

  lemma CallAct(w: World, i: nat, a: Stages, b: Stages, t: nat)
    requires Addressed(w) && |w.envs| == 2 && i < 2 && StagesOk(w, i, if i == 0 then a else b) && (t == i || t == 4 + i)
    ensures PairStep(w, a, b, t)
  {
    SendsThen(w, i, a, b, t);
    SendsStep(w, a, b, t);
  }

  lemma HandAct(w: World, i: nat, a: Stages, b: Stages, t: nat)
    requires Addressed(w) && |w.envs| == 2 && i < 2 && StagesOk(w, i, if i == 0 then a else b) && (t == 3 - i || t == 7 - i)
    ensures PairStep(w, a, b, t)
  {
    if t == 3 - i { TakesFirst(w, i, a, b); } else { TakesReport(w, i, a, b); }
    TakesStep(w, a, b, t);
  }

  lemma AllPairSteps(w: World, a: Stages, b: Stages)
    requires Addressed(w) && |w.envs| == 2 && StagesOk(w, 0, a) && StagesOk(w, 1, b)
    ensures PairSteps(w, a, b)
  {
    forall t: nat ensures PairStep(w, a, b, t) {
      if t == 0 || t == 4 {
        CallAct(w, 0, a, b, t);
      } else if t == 1 || t == 5 {
        CallAct(w, 1, a, b, t);
      } else if t == 2 || t == 6 {
        HandAct(w, 1, a, b, t);
      } else if t == 3 || t == 7 {
        HandAct(w, 0, a, b, t);
      } else {
        StaysStep(w, t % 2, a, b, t);
      }
    }
  }

  ghost function RunOf(w: World, a: Stages, b: Stages, len: nat): seq<Net>
    requires Addressed(w) && |w.envs| == 2
  {
    seq(len + 1, (t: nat) => NetAt(w, a, b, t))
  }

  function ActsOf(w: World, len: nat): seq<Act>
    requires Addressed(w) && |w.envs| == 2
  {
    seq(len, (t: nat) => ActAt(w, t))
  }

  lemma StartsThere(w: World, a: Stages, b: Stages)
    requires |w.envs| == 2 && |w.envs[0].pp.peers| == 2 && StagesOk(w, 0, a) && StagesOk(w, 1, b)
    requires forall i: nat :: i < |w.envs| ==> |w.envs[i].pp.vp| >= 2
    ensures Start(w) == NetAt(w, a, b, 0)
  {
    assert StageFact(w, 0, a, 0) && StageFact(w, 1, b, 0);
    assert Start(w).nodes == [a.s0, b.s0];
  }

  lemma PairRuns(w: World, a: Stages, b: Stages, len: nat)
    requires Addressed(w) && |w.envs| == 2 && PairSteps(w, a, b)
    ensures AllSteps(w, RunOf(w, a, b, len), ActsOf(w, len))
  {
    var run, acts := RunOf(w, a, b, len), ActsOf(w, len);
    forall t: nat | t < |acts| ensures StepAt(w, run, acts, t) {
      assert PairStep(w, a, b, t);
    }
  }

  // ----- its stretches -----

  function CutAt(r: nat): nat {
    if r == 0 then 0 else if r == 1 then 4 else 4 + 2 * r
  }

  lemma CutActs(w: World, r: nat)
    requires Addressed(w) && |w.envs| == 2
    ensures var a, b := ActAt(w, CutAt(r)), ActAt(w, CutAt(r) + 1); a.host == 0 && b.host == 1 && IsCall(a.ev) && IsCall(b.ev)
  {
    assert r > 1 ==> CutAt(r) >= 8 && CutAt(r) % 2 == 0;
  }

  lemma TwoEvents(acts: seq<Act>, c: nat)
    requires c + 2 <= |acts| && acts[c].host == 0 && acts[c + 1].host == 1
    ensures EventsOf(acts, 0, c, c + 2) == [acts[c].ev] && EventsOf(acts, 1, c, c + 2) == [acts[c + 1].ev]
  {
    EventsSplit(acts, 0, c, c + 2);
    EventsSplit(acts, 0, c + 1, c + 2);
    EventsSplit(acts, 1, c, c + 2);
    EventsSplit(acts, 1, c + 1, c + 2);
  }

  /** Each stretch starts with one dissemination of each host. */
  lemma CallsFirst(w: World, len: nat, r: nat)
    requires Addressed(w) && |w.envs| == 2 && CutAt(r) + 2 <= len
    ensures
      var acts, c := ActsOf(w, len), CutAt(r);
      && IsCall(ActAt(w, c).ev) && IsCall(ActAt(w, c + 1).ev)
      && EventsOf(acts, 0, c, c + 2) == [ActAt(w, c).ev] && EventsOf(acts, 1, c, c + 2) == [ActAt(w, c + 1).ev]
  {
    CutActs(w, r);
    TwoEvents(ActsOf(w, len), CutAt(r));
  }

  /** One dissemination is enough for a level with one peer. */
  lemma OneCallWorks(e: Env, s: State, ev: Event, l: nat)
    requires Inv(e, s) && IsCall(ev) && |e.pp.cvp| == 2 && |e.pp.cvp[1]| == 1
    ensures AllEnabled(e, s, [ev]) && (ActiveAt(s, l) ==> Works(e, s, [ev], l))
  {
    assert [ev][1..] == [];
    StepOk(e, s, ev, {});
    if ActiveAt(s, l) { assert |DonesOf(e, s, [ev], l)| == 1 + |DonesOf(e, Step(e, s, ev), [], l)|; }
  }

  /** The message of step `t` arrives two steps later. */
  lemma TwoLater(w: World, len: nat, t: nat, end: nat)
    requires Addressed(w) && |w.envs| == 2 && t in {0, 1, 4, 5} && t + 2 < end <= len
    ensures ActAt(w, t).host == t % 2 && Arrives(w, ActsOf(w, len), t, end, t % 2, Letter(w, t % 2, MessageAt(w, t)))
  {
    var i, acts := t % 2, ActsOf(w, len);
    assert acts[t + 2] == Act(Other(i), Hand(w, Other(i), MessageAt(w, t)));
  }

  lemma OneArrives(w: World, run: seq<Net>, acts: seq<Act>, t: nat, end: nat, i: nat, s: State, env: Envelope)
    requires Addressed(w) && t < end <= |acts| && |run| == |acts| + 1 && i < |w.envs| && i < |run[t].nodes|
    requires acts[t].host == i && run[t].nodes[i] == s && Inv(w.envs[i], s) && NewlySent(w.envs[i], s) == [env]
    requires Arrives(w, acts, t, end, i, env)
    ensures AllArriveAt(w, run, acts, t, end)
  {
  }

  lemma PairArrives(w: World, a: Stages, b: Stages, len: nat, t: nat, end: nat)
    requires Addressed(w) && |w.envs| == 2 && t < end <= len && SendsAt(w, a, b, t) && ActAt(w, t).host == t % 2
    requires Arrives(w, ActsOf(w, len), t, end, t % 2, Letter(w, t % 2, MessageAt(w, t)))
    ensures AllArriveAt(w, RunOf(w, a, b, len), ActsOf(w, len), t, end)
  {
    OneArrives(w, RunOf(w, a, b, len), ActsOf(w, len), t, end, t % 2, NodesAt(a, b, t)[t % 2], Letter(w, t % 2, MessageAt(w, t)));
  }

  lemma SentArrives(w: World, a: Stages, b: Stages, len: nat, t: nat, end: nat)
    requires Addressed(w) && |w.envs| == 2 && t in {0, 1, 4, 5} && t + 2 < end <= len && SendsAt(w, a, b, t)
    ensures AllArriveAt(w, RunOf(w, a, b, len), ActsOf(w, len), t, end)
  {
    TwoLater(w, len, t, end);
    PairArrives(w, a, b, len, t, end);
  }

  lemma NoneArrive(w: World, run: seq<Net>, acts: seq<Act>, t: nat, end: nat, i: nat, s: State)
    requires Addressed(w) && t < end <= |acts| && |run| == |acts| + 1 && i < |w.envs| && i < |run[t].nodes|
    requires acts[t].host == i && run[t].nodes[i] == s && Inv(w.envs[i], s) && NewlySent(w.envs[i], s) == []
    ensures AllArriveAt(w, run, acts, t, end)
  {
  }

  lemma NothingToArrive(w: World, a: Stages, b: Stages, len: nat, t: nat, end: nat, i: nat)
    requires Addressed(w) && |w.envs| == 2 && i < 2 && 8 <= t < end <= len && t % 2 == i
    requires StageFact(w, i, if i == 0 then a else b, 4)
    ensures AllArriveAt(w, RunOf(w, a, b, len), ActsOf(w, len), t, end)
  {
    NoneArrive(w, RunOf(w, a, b, len), ActsOf(w, len), t, end, i, (if i == 0 then a else b).s4);
  }

  lemma FirstArrives(w: World, i: nat, a: Stages, b: Stages, len: nat)
    requires Addressed(w) && |w.envs| == 2 && i < 2 && StagesOk(w, i, if i == 0 then a else b) && len >= 4
    ensures AllArriveAt(w, RunOf(w, a, b, len), ActsOf(w, len), i, 4)
  {
    SendsFirst(w, i, a, b);
    SentArrives(w, a, b, len, i, 4);
  }

  lemma ReportArrives(w: World, i: nat, a: Stages, b: Stages, len: nat)
    requires Addressed(w) && |w.envs| == 2 && i < 2 && StagesOk(w, i, if i == 0 then a else b) && len >= 8
    ensures AllArriveAt(w, RunOf(w, a, b, len), ActsOf(w, len), 4 + i, 8)
  {
    SendsReport(w, i, a, b);
    SentArrives(w, a, b, len, 4 + i, 8);
  }

  lemma LaterArrives(w: World, i: nat, a: Stages, b: Stages, len: nat, r: nat)
    requires Addressed(w) && |w.envs| == 2 && i < 2 && StagesOk(w, i, if i == 0 then a else b) && r >= 2 && CutAt(r + 1) <= len
    ensures AllArriveAt(w, RunOf(w, a, b, len), ActsOf(w, len), CutAt(r) + i, CutAt(r + 1))
  {
    assert StageFact(w, i, if i == 0 then a else b, 4);
    NothingToArrive(w, a, b, len, CutAt(r) + i, CutAt(r + 1), i);
  }

  lemma CutArrives(w: World, i: nat, a: Stages, b: Stages, len: nat, r: nat)
    requires Addressed(w) && |w.envs| == 2 && i < 2 && StagesOk(w, i, if i == 0 then a else b) && CutAt(r + 1) <= len
    ensures AllArriveAt(w, RunOf(w, a, b, len), ActsOf(w, len), CutAt(r) + i, CutAt(r + 1))
  {
    if r == 0 {
      FirstArrives(w, i, a, b, len);
    } else if r == 1 {
      ReportArrives(w, i, a, b, len);
    } else {
      LaterArrives(w, i, a, b, len, r);
    }
  }

  lemma CutInv(w: World, i: nat, a: Stages, b: Stages, r: nat)
    requires |w.envs| == 2 && |w.envs[0].pp.peers| == 2 && i < 2 && StagesOk(w, i, if i == 0 then a else b)
    ensures Inv(w.envs[i], NodesAt(a, b, CutAt(r))[i])
  {
    assert StageFact(w, i, if i == 0 then a else b, if r == 0 then 0 else if r == 1 then 2 else 4);
  }

  lemma CutWorks(w: World, a: Stages, b: Stages, len: nat, r: nat, i: nat, l: nat)
    requires Addressed(w) && |w.envs| == 2 && i < 2 && CutAt(r + 1) <= len && StagesOk(w, i, if i == 0 then a else b)
    requires |w.envs[i].pp.cvp| == 2 && |w.envs[i].pp.cvp[1]| == 1
    ensures HostWorks(w, RunOf(w, a, b, len), ActsOf(w, len), i, l, CutAt(r), CutAt(r) + 2)
  {
    CutInv(w, i, a, b, r);
    CallsFirst(w, len, r);
    OneCallWorks(w.envs[i], NodesAt(a, b, CutAt(r))[i], ActAt(w, CutAt(r) + i).ev, l);
  }

  lemma CutHosts(w: World, a: Stages, b: Stages, len: nat, r: nat, mid: nat)
    requires Addressed(w) && |w.envs| == 2 && CutAt(r + 1) <= len && mid == CutAt(r) + 2 && StagesOk(w, 0, a) && StagesOk(w, 1, b)
    requires forall i: nat :: i < 2 ==> |w.envs[i].pp.cvp| == 2 && |w.envs[i].pp.cvp[1]| == 1
    ensures forall i: nat, l: nat :: i < |w.envs| && l <= w.k ==> HostWorks(w, RunOf(w, a, b, len), ActsOf(w, len), i, l, CutAt(r), mid)
  {
    forall i: nat, l: nat | i < |w.envs| && l <= w.k ensures HostWorks(w, RunOf(w, a, b, len), ActsOf(w, len), i, l, CutAt(r), mid) {
      CutWorks(w, a, b, len, r, i, l);
    }
  }

  lemma TwoSteps(w: World, run: seq<Net>, acts: seq<Act>, c: nat, mid: nat, end: nat)
    requires Addressed(w) && |run| == |acts| + 1 && mid == c + 2 <= end <= |acts|
    requires forall i: nat, l: nat :: i < |w.envs| && l <= w.k ==> HostWorks(w, run, acts, i, l, c, mid)
    requires AllArriveAt(w, run, acts, c, end) && AllArriveAt(w, run, acts, c + 1, end)
    ensures Working(w, run, acts, c, mid, end)
  {
    forall t: nat | c <= t < mid ensures AllArriveAt(w, run, acts, t, end) {
      if t != c { assert t == c + 1; }
    }
  }

  lemma CutWorking(w: World, a: Stages, b: Stages, len: nat, r: nat)
    requires Addressed(w) && |w.envs| == 2 && StagesOk(w, 0, a) && StagesOk(w, 1, b) && CutAt(r + 1) <= len
    requires forall i: nat :: i < 2 ==> |w.envs[i].pp.cvp| == 2 && |w.envs[i].pp.cvp[1]| == 1
    ensures Working(w, RunOf(w, a, b, len), ActsOf(w, len), CutAt(r), CutAt(r) + 2, CutAt(r + 1))
  {
    CutHosts(w, a, b, len, r, CutAt(r) + 2);
    CutArrives(w, 0, a, b, len, r);
    CutArrives(w, 1, a, b, len, r);
    TwoSteps(w, RunOf(w, a, b, len), ActsOf(w, len), CutAt(r), CutAt(r) + 2, CutAt(r + 1));
  }

  function Cuts(n: nat): seq<nat> {
    seq(n + 1, (r: nat) => CutAt(r))
  }

  function Mids(n: nat): seq<nat> {
    seq(n + 1, (r: nat) => CutAt(r) + 2)
  }

  lemma {:induction false} CutsGrow(r: nat, n: nat)
    requires r <= n
    ensures CutAt(r) <= CutAt(n)
  {
  }

  lemma PairWorks(w: World, a: Stages, b: Stages, n: nat)
    requires Addressed(w) && |w.envs| == 2 && StagesOk(w, 0, a) && StagesOk(w, 1, b)
    requires forall i: nat :: i < 2 ==> |w.envs[i].pp.cvp| == 2 && |w.envs[i].pp.cvp[1]| == 1
    ensures WorkingRounds(w, RunOf(w, a, b, CutAt(n)), ActsOf(w, CutAt(n)), Cuts(n), Mids(n))
  {
    var len := CutAt(n);
    forall r: nat | r + 1 < |Cuts(n)| ensures WorkingAt(w, RunOf(w, a, b, len), ActsOf(w, len), Cuts(n), Mids(n), r) {
      CutsGrow(r + 1, n);
      CutWorking(w, a, b, len, r);
    }
  }

  // ----- the round completes -----

  lemma PairUnstuck(w: World, a: Stages, b: Stages, t: nat)
    requires |w.envs| == 2 && |w.envs[0].pp.peers| == 2 && StageFact(w, 0, a, 5) && StageFact(w, 1, b, 5) && t >= 8
    requires forall i: nat :: i < 2 ==> |w.envs[i].pp.cvp| == 2 && w.envs[i].pp.cvp[0] == []
    ensures !StuckSomewhere(w, NetAt(w, a, b, t))
  {
    forall i: nat, l: nat ensures !StuckIn(w, NetAt(w, a, b, t), i, l) {
      if i < 2 && l == 1 { assert NodesAt(a, b, t)[i].levels[1].value.lastContacted == Some(0); }
    }
  }

  lemma PairedHosts(peers: seq<PeerId>, value: Value, i: nat)
    requires |peers| == 2 && Distinct(peers) && i < 2
    ensures Paired(PairWorld(peers, value), i)
  {
    PairWellFormed(peers, value);
    AtLevelOfTwo(i, Other(i), 1);
    var w := PairWorld(peers, value);
    assert w.truth.Keys == {0, 1};
    assert |w.truth| == 2;
  }

  lemma PairHeld(w: World, a: Stages, b: Stages, n: nat) returns (run: seq<Net>, acts: seq<Act>)
    requires Addressed(w) && |w.envs| == 2 && StagesOk(w, 0, a) && StagesOk(w, 1, b) && n >= 2
    requires forall i: nat :: i < 2 ==> |w.envs[i].pp.cvp| == 2 && w.envs[i].pp.cvp[0] == [] && |w.envs[i].pp.cvp[1]| == 1
    ensures AllSteps(w, run, acts) && run[0] == NetAt(w, a, b, 0)
    ensures WorkingRounds(w, run, acts, Cuts(n), Mids(n)) && !StuckSomewhere(w, run[|acts|])
  {
    run, acts := RunOf(w, a, b, CutAt(n)), ActsOf(w, CutAt(n));
    AllPairSteps(w, a, b);
    PairRuns(w, a, b, CutAt(n));
    PairWorks(w, a, b, n);
    assert StageFact(w, 0, a, 5) && StageFact(w, 1, b, 5);
    PairUnstuck(w, a, b, CutAt(n));
  }

  lemma PairRound(w: World, a: Stages, b: Stages, n: nat) returns (run: seq<Net>, acts: seq<Act>)
    requires WellFormed(w) && |w.envs| == 2 && StagesOk(w, 0, a) && StagesOk(w, 1, b) && n >= 2
    requires forall i: nat :: i < 2 ==> |w.envs[i].pp.cvp| == 2 && w.envs[i].pp.cvp[0] == [] && |w.envs[i].pp.cvp[1]| == 1
    ensures IsRound(w, run, acts) && WorkingRounds(w, run, acts, Cuts(n), Mids(n)) && !StuckSomewhere(w, run[|acts|])
  {
    run, acts := PairHeld(w, a, b, n);
    StartOk(w);
    StartsThere(w, a, b);
  }

  /** Any two hosts have a run as `RoundCompletes` asks for, and both finish in it. */
  lemma PairCompletes(peers: seq<PeerId>, value: Value) returns (run: seq<Net>, acts: seq<Act>, cuts: seq<nat>, mids: seq<nat>)
    requires |peers| == 2 && Distinct(peers)
    ensures
      var w := PairWorld(peers, value);
      && WellFormed(w) && IsRound(w, run, acts) && WorkingRounds(w, run, acts, cuts, mids) && |cuts| > MostGain(w) + 1
      && EveryoneFinished(w, run[|acts|]) && !StuckSomewhere(w, run[|acts|])
  {
    var w := PairWorld(peers, value);
    PairedHosts(peers, value, 0);
    PairedHosts(peers, value, 1);
    cuts, mids := Cuts(MostGain(w) + 2), Mids(MostGain(w) + 2);
    var a := HostStages(w, 0);
    var b := HostStages(w, 1);
    run, acts := PairRound(w, a, b, MostGain(w) + 2);
    RoundCompletes(w, run, acts, cuts, mids);
  }
}
