/** One node among honest ones: nothing is refused for good, and every message is learnt. */
module HandelHonest {
  import opened Prelude
  import opened Sorting
  import opened Partitioning
  import opened Contributions
  import opened HandelSpec
  import opened HandelSafety

  /** All hosts of a round without padding, and the contributions they hold together. */
  datatype World = World(envs: seq<Env>, truth: Contrib, k: nat)

  function OwnOf(w: World, i: nat): Contrib {
    if i in w.truth then map[i := w.truth[i]] else map[]
  }

  ghost predicate HostFits(w: World, i: nat)
    requires i < |w.envs|
  {
    var e := w.envs[i];
    && e.own == i && Starts(e, OwnOf(w, i)) && Verifies(e.valid, w.truth)
    && Partitioned(e.pp, Elements(e.pp.peers), i, w.k) && Distinct(e.pp.peers)
    && e.pp.peers == w.envs[0].pp.peers && e.conf == w.envs[0].conf
    && e.conf.initialWindow >= |w.envs| && e.conf.threshold.num <= e.conf.threshold.denom
  }

  /** Each host has its address. */
  ghost predicate Addressed(w: World) {
    w.envs != [] && |w.envs[0].pp.peers| == |w.envs|
  }

  ghost predicate WellFormed(w: World) {
    && w.k > 0 && |w.envs| == Pow2(w.k) && Addressed(w)
    && (forall i: nat :: i < |w.envs| ==> i in w.truth && HostFits(w, i))
  }

  /** Without padding a level lists exactly the indices at that level. */
  lemma LevelPeers(w: World, i: nat, l: nat, j: nat)
    requires WellFormed(w) && i < |w.envs| && l <= w.k
    ensures var pp := w.envs[i].pp; |pp.vp| == |pp.cvp| == w.k + 1 && |pp.peers| == |w.envs|
    ensures var pp := w.envs[i].pp; Distinct(pp.vp[l]) && Distinct(pp.cvp[l])
    ensures var pp := w.envs[i].pp; (j in pp.vp[l] <==> j < |w.envs| && AtLevel(i, j, l)) && (j in pp.cvp[l] <==> j in pp.vp[l])
  {
    assert HostFits(w, i);
    var pp := w.envs[i].pp;
    assert HoldsLevel(pp.vp[l], Elements(pp.peers), pp.peers, i, l);
    assert HoldsLevel(pp.cvp[l], Elements(pp.peers), pp.peers, i, l);
  }

  // ----- what honest hosts hold -----

  ghost predicate HonestMessage(w: World, m: Message) {
    && m.level <= w.k && Part(m.aggregate, w.truth)
    && (m.individual.Some? ==> Part(m.individual.value, w.truth))
  }

  ghost predicate HonestPending(w: World, p: Pending) {
    Part(p.aggregate, w.truth) && (p.individual.Some? ==> Part(p.individual.value, w.truth))
  }

  /** A level's best is part of the truth and holds the host's own entry. */
  ghost predicate HonestLevel(w: World, i: nat, lvl: ActiveLevel) {
    Part(lvl.best.contribution, w.truth) && i in lvl.best.contribution
  }

  ghost predicate HonestLevels(w: World, i: nat, levels: seq<Option<ActiveLevel>>) {
    forall l: nat :: l < |levels| && levels[l].Some? ==> HonestLevel(w, i, levels[l].value)
  }

  ghost predicate HonestWaiting(w: World, pending: map<nat, Pending>) {
    forall p :: p in pending ==> HonestPending(w, pending[p])
  }

  ghost predicate HonestOutbox(w: World, outbox: seq<Envelope>) {
    forall n :: 0 <= n < |outbox| ==> HonestMessage(w, outbox[n].message)
  }

  ghost predicate AllHonestWaiting(w: World, pending: seq<map<nat, Pending>>) {
    forall l: nat :: l < |pending| ==> HonestWaiting(w, pending[l])
  }

  /** Nobody is banned, the window takes everyone, and all that is held or sent is part of the truth. */
  ghost predicate Honest(w: World, i: nat, s: State) {
    && s.banned == {} && s.window >= |w.envs| && s.levels != [] && LevelCompleted(s.levels[0])
    && HonestLevels(w, i, s.levels) && HonestOutbox(w, s.outbox) && AllHonestWaiting(w, s.pending)
  }

  /** What every honest node keeps among honest nodes. */
  ghost predicate Core(w: World, i: nat, s: State)
    requires i < |w.envs|
  {
    Inv(w.envs[i], s) && Honest(w, i, s)
  }

  /** A completed level has started the next one. */
  ghost predicate Chained(levels: seq<Option<ActiveLevel>>) {
    forall l: nat :: l + 1 < |levels| && LevelCompleted(levels[l]) ==> levels[l + 1].Some?
  }

  ghost predicate NodeOk(w: World, i: nat, s: State)
    requires i < |w.envs|
  {
    Core(w, i, s) && Chained(s.levels)
  }

  /** Levels only gain: entries, completion, activity. */
  ghost predicate LevelGrows(a: Option<ActiveLevel>, b: Option<ActiveLevel>) {
    a.Some? ==> b.Some? && Part(a.value.best.contribution, b.value.best.contribution) && (a.value.completed ==> b.value.completed)
  }

  ghost predicate Grows(a: State, b: State) {
    |a.levels| == |b.levels| && forall l: nat :: l < |a.levels| ==> LevelGrows(a.levels[l], b.levels[l])
  }

  /** A state that gains at one level only. */
  lemma GrowsAt(a: State, b: State, level: nat, lvl: ActiveLevel)
    requires level < |a.levels| && b.levels == a.levels[level := Some(lvl)] && LevelGrows(a.levels[level], Some(lvl))
    ensures Grows(a, b)
  {
  }

  lemma HonestAt(w: World, i: nat, levels: seq<Option<ActiveLevel>>, level: nat, lvl: ActiveLevel)
    requires level < |levels| && HonestLevels(w, i, levels) && HonestLevel(w, i, lvl)
    ensures HonestLevels(w, i, levels[level := Some(lvl)])
  {
  }

  lemma WaitingAt(w: World, pending: seq<map<nat, Pending>>, level: nat, rest: map<nat, Pending>)
    requires level < |pending| && AllHonestWaiting(w, pending) && HonestWaiting(w, rest)
    ensures AllHonestWaiting(w, pending[level := rest])
  {
  }

  lemma GrowsTransitive(a: State, b: State, c: State)
    requires Grows(a, b) && Grows(b, c)
    ensures Grows(a, c)
  {
    forall l: nat | l < |a.levels| ensures LevelGrows(a.levels[l], c.levels[l]) {
      assert LevelGrows(a.levels[l], b.levels[l]) && LevelGrows(b.levels[l], c.levels[l]);
    }
  }

  // ----- parts of one truth -----

  /** No entry of `a + b` beyond `b`: then `a` is part of `b`. */
  lemma NothingNew(a: Contrib, b: Contrib)
    requires Compatible(b, a) && |b + a| <= |b|
    ensures Part(a, b)
  {
    CombineWeight(b, a);
    assert b + a == b;
    forall k | k in a ensures k in b && a[k] == b[k] {
      assert k in b + a && (b + a)[k] == a[k];
    }
  }

  // ----- aggregation among honest nodes -----

  /** Every candidate is the best combined with one of the picks. */
  lemma {:induction false} CandidateSources(e: Env, w: World, best: Contrib, st: Scoring, picked: seq<Pending>)
    requires e.conf.shrinkFactor > 0 && Part(best, w.truth) && Verifies(e.valid, w.truth)
    requires forall p :: p in picked ==> HonestPending(w, p)
    ensures
      var r := ScoreAll(e, best, st, picked);
      && r.banned == st.banned && r.window == st.window
      && forall c :: c in r.candidates ==> c in st.candidates || exists p :: p in picked && c.contribution == best + p.aggregate
    decreases |picked|
  {
    if picked != [] {
      var p, rest := picked[|picked| - 1], picked[..|picked| - 1];
      assert HonestPending(w, p);
      if p.individual.Some? { PartVerifies(e.valid, p.individual.value, w.truth); }
      PartsCombine(best, p.aggregate, w.truth);
      var st1 := ScoreOne(e, best, st, p);
      InsertCandidateSources(st.candidates, CandidateOf(best, st1.individual, p));
      CandidateSources(e, w, best, st1, rest);
      assert picked == rest + [p];
    }
  }

  lemma {:induction false} JudgeAllVerify(e: Env, v: Verdict, cs: seq<Candidate>)
    requires e.conf.shrinkFactor > 0 && 0 < v.window <= USIZE_MAX
    requires forall c :: c in cs ==> Verifies(e.valid, c.contribution)
    ensures JudgeAll(e, v, cs).banned == v.banned && JudgeAll(e, v, cs).window >= v.window
    decreases |cs|
  {
    if cs != [] {
      assert cs[0] in cs;
      ShrinkGrow(v.window, e.conf.shrinkFactor);
      JudgeAllVerify(e, JudgeOne(e, v, cs[0]), cs[1..]);
    }
  }

  /** The best after judging honest picks: the old one or its combination with a pick. */
  lemma HonestBest(e: Env, w: World, lvl: ActiveLevel, banned: set<nat>, window: nat, picked: seq<Pending>)
    requires e.conf.shrinkFactor > 0 && Part(lvl.best.contribution, w.truth) && Verifies(e.valid, w.truth)
    requires 0 < window <= USIZE_MAX
    requires forall p :: p in picked ==> HonestPending(w, p)
    ensures
      var st := ScoreAll(e, lvl.best.contribution, Scoring(lvl.individual, [], banned, window), picked);
      var v := JudgeAll(e, Verdict(lvl.best, st.banned, st.window), st.candidates);
      && v.banned == banned && v.window >= window
      && Part(lvl.best.contribution, v.best.contribution) && Part(v.best.contribution, w.truth)
  {
    var best := lvl.best.contribution;
    var st0 := Scoring(lvl.individual, [], banned, window);
    var st := ScoreAll(e, best, st0, picked);
    CandidateSources(e, w, best, st0, picked);
    forall c | c in st.candidates
      ensures Verifies(e.valid, c.contribution) && Part(best, c.contribution) && Part(c.contribution, w.truth)
    {
      var p :| p in picked && c.contribution == best + p.aggregate;
      PartsCombine(best, p.aggregate, w.truth);
      PartVerifies(e.valid, c.contribution, w.truth);
    }
    JudgeAllVerify(e, Verdict(lvl.best, st.banned, st.window), st.candidates);
    JudgeAllBest(e, Verdict(lvl.best, st.banned, st.window), st.candidates);
  }

  // ----- who is picked -----

  lemma PickedHonest(w: World, peers: seq<nat>, pending: map<nat, Pending>, window: nat)
    requires HonestWaiting(w, pending)
    ensures
      var (picked, rest) := Prioritize(peers, pending, [], window);
      (forall p :: p in picked ==> HonestPending(w, p)) && HonestWaiting(w, rest)
  {
    PrioritizeSources(peers, pending, [], window);
  }

  lemma {:induction false} WaitingContains(peers: seq<nat>, pending: map<nat, Pending>, j: nat)
    requires j in peers && j in pending
    ensures pending[j] in WaitingOf(peers, pending)
  {
    if peers[0] != j {
      assert peers == [peers[0]] + peers[1..];
      WaitingContains(peers[1..], pending, j);
    }
  }

  lemma {:induction false} WaitingFits(peers: seq<nat>, pending: map<nat, Pending>)
    ensures |WaitingOf(peers, pending)| <= |peers|
  {
    if peers != [] { WaitingFits(peers[1..], pending); }
  }

  /** A window as large as the level picks everything that waits. */
  lemma PicksAll(peers: seq<nat>, pending: map<nat, Pending>, window: nat, j: nat)
    requires Distinct(peers) && |peers| <= window && window > 0 && j in peers && j in pending
    ensures pending[j] in Prioritize(peers, pending, [], window).0
  {
    PrioritizeTakesFirst(peers, pending, [], window);
    WaitingFits(peers, pending);
    WaitingContains(peers, pending, j);
  }

  lemma DistinctBelow(s: seq<nat>, n: nat)
    requires Distinct(s) && forall x :: x in s ==> x < n
    ensures |s| <= n
  {
    var all := Range(0, n);
    DistinctSize(s);
    DistinctSize(all);
    forall x | x in s ensures x in all { assert all[x] == x; }
    Subset(Elements(s), Elements(all));
  }

  lemma LevelFits(w: World, i: nat, l: nat)
    requires WellFormed(w) && i < |w.envs| && l <= w.k
    ensures |w.envs[i].pp.vp| == w.k + 1 && |w.envs[i].pp.vp[l]| <= |w.envs|
  {
    LevelPeers(w, i, l, 0);
    forall x | x in w.envs[i].pp.vp[l] ensures x < |w.envs| { LevelPeers(w, i, l, x); }
    DistinctBelow(w.envs[i].pp.vp[l], |w.envs|);
  }

  /** Every level above the own one has peers. */
  lemma LevelInhabited(w: World, i: nat, l: nat) returns (j: nat)
    requires WellFormed(w) && i < |w.envs| && 0 < l <= w.k
    ensures j < |w.envs| && AtLevel(i, j, l)
  {
    j := Level(i, l)[0];
    LevelMembers(i, l, j);
    LevelInRange(i, j, l, w.k);
  }

  lemma LevelNotEmpty(w: World, i: nat, l: nat)
    requires WellFormed(w) && i < |w.envs| && 0 < l <= w.k
    ensures |w.envs[i].pp.vp| == |w.envs[i].pp.cvp| == w.k + 1 && w.envs[i].pp.vp[l] != [] && w.envs[i].pp.cvp[l] != []
  {
    var j := LevelInhabited(w, i, l);
    LevelPeers(w, i, l, j);
  }

  // ----- one aggregation -----

  lemma HonestBestAt(w: World, i: nat, s: State, level: nat)
    requires WellFormed(w) && i < |w.envs| && Core(w, i, s) && level < |s.levels| && s.levels[level].Some?
    ensures
      var lvl := s.levels[level].value;
      var (s', lvl') := Aggregate(w.envs[i], s, level, lvl);
      && s'.banned == {} && s'.window >= s.window && HonestWaiting(w, s'.pending[level])
      && HonestLevel(w, i, lvl') && Part(lvl.best.contribution, lvl'.best.contribution)
  {
    var e, lvl := w.envs[i], s.levels[level].value;
    assert HostFits(w, i) && HonestLevel(w, i, lvl) && LevelOk(e, level, lvl) && HonestWaiting(w, s.pending[level]);
    PickedHonest(w, e.pp.vp[level], s.pending[level], s.window);
    var picked := Prioritize(e.pp.vp[level], s.pending[level], [], s.window).0;
    HonestBest(e, w, lvl, s.banned, s.window, picked);
  }

  lemma AggregateHonest(w: World, i: nat, s: State, level: nat)
    requires WellFormed(w) && i < |w.envs| && Core(w, i, s) && level < |s.levels| && s.levels[level].Some?
    ensures
      var (s', lvl') := Aggregate(w.envs[i], s, level, s.levels[level].value);
      Honest(w, i, s') && Grows(s, s') && s'.levels == s.levels[level := Some(lvl')]
  {
    HonestBestAt(w, i, s, level);
    var (s', lvl') := Aggregate(w.envs[i], s, level, s.levels[level].value);
    HonestAt(w, i, s.levels, level, lvl');
    GrowsAt(s, s', level, lvl');
    WaitingAt(w, s.pending, level, s'.pending[level]);
  }

  lemma AggregateCore(w: World, i: nat, s: State, level: nat)
    requires WellFormed(w) && i < |w.envs| && Core(w, i, s) && level < |s.levels| && s.levels[level].Some?
    ensures
      var (s', lvl') := Aggregate(w.envs[i], s, level, s.levels[level].value);
      Core(w, i, s') && Grows(s, s') && s'.levels == s.levels[level := Some(lvl')]
  {
    AggregateOk(w.envs[i], s, level, {});
    AggregateHonest(w, i, s, level);
  }

  /** A level is completed by an aggregation exactly when its best reaches the threshold. */
  lemma CompletesIff(e: Env, s: State, level: nat)
    requires Inv(e, s) && level < |s.levels| && s.levels[level].Some? && !s.levels[level].value.completed
    ensures
      var lvl' := Aggregate(e, s, level, s.levels[level].value).1;
      lvl'.completed <==> IsComplete(|lvl'.best.contribution|, level, e.conf.threshold)
  {
  }

  /** What waits from a peer of the level is learnt: the best becomes at least as heavy as with it. */
  lemma AggregateLearns(w: World, i: nat, s: State, level: nat, j: nat)
    requires WellFormed(w) && i < |w.envs| && Core(w, i, s) && level < |s.levels| && s.levels[level].Some?
    requires j < |w.envs| && AtLevel(i, j, level) && j in s.pending[level]
    ensures
      var lvl := s.levels[level].value;
      var lvl' := Aggregate(w.envs[i], s, level, lvl).1;
      && Compatible(lvl.best.contribution, s.pending[level][j].aggregate)
      && |lvl'.best.contribution| >= |lvl.best.contribution + s.pending[level][j].aggregate|
  {
    var e, lvl := w.envs[i], s.levels[level].value;
    assert HostFits(w, i) && HonestLevel(w, i, lvl) && LevelOk(e, level, lvl) && HonestWaiting(w, s.pending[level]);
    assert |e.pp.vp| == w.k + 1;
    LevelPeers(w, i, level, j);
    LevelFits(w, i, level);
    var picked := Prioritize(e.pp.vp[level], s.pending[level], [], s.window).0;
    PicksAll(e.pp.vp[level], s.pending[level], s.window, j);
    PickedHonest(w, e.pp.vp[level], s.pending[level], s.window);
    forall p | p in picked ensures PendingSound(e, p) { HonestSound(w, i, p); }
    PartsCombine(lvl.best.contribution, s.pending[level][j].aggregate, w.truth);
    SoundPicksCount(e, lvl, s.banned, s.window, picked, s.pending[level][j]);
    AggregateOk(e, s, level, {});
    var (s', lvl') := Aggregate(e, s, level, lvl);
    assert LevelOk(e, level, s'.levels[level].value);
  }

  lemma HonestSound(w: World, i: nat, p: Pending)
    requires WellFormed(w) && i < |w.envs| && HonestPending(w, p)
    ensures PendingSound(w.envs[i], p)
  {
    assert HostFits(w, i);
    PartVerifies(w.envs[i].valid, p.aggregate, w.truth);
    if p.individual.Some? { PartVerifies(w.envs[i].valid, p.individual.value, w.truth); }
  }

  // ----- sending and activating -----

  lemma {:induction false} SendAllHonest(e: Env, w: World, targets: seq<nat>, m: Message)
    requires HonestMessage(w, m)
    ensures HonestOutbox(w, SendAll(e, targets, m))
  {
    if targets != [] { SendAllHonest(e, w, targets[1..], m); }
  }

  lemma OutboxJoins(w: World, a: seq<Envelope>, b: seq<Envelope>)
    requires HonestOutbox(w, a) && HonestOutbox(w, b)
    ensures HonestOutbox(w, a + b)
  {
  }

  lemma FastPathCore(w: World, i: nat, s: State, level: nat)
    requires WellFormed(w) && i < |w.envs| && Core(w, i, s) && 0 < level <= w.k && |s.levels| == w.k + 1
    ensures w.envs[i].pp.cvp[level] != []
    ensures var s' := RunFastPath(w.envs[i], s, level); Core(w, i, s') && s'.levels == s.levels && Grows(s, s')
  {
    var e := w.envs[i];
    LevelNotEmpty(w, i, level);
    FastPathOk(e, s, level, {});
    if s.levels[level].Some? {
      var lvl := s.levels[level].value;
      assert HonestLevel(w, i, lvl) && HonestLevel(w, i, s.levels[0].value);
      var m := Message(level, OwnContribution(s), lvl.best.contribution, false);
      var targets := FastPathTargets(e.pp.cvp[level], s.completedLevels, level, Offset(lvl.lastContacted), e.conf.fastPathWindow);
      SendAllHonest(e, w, targets, m);
      OutboxJoins(w, s.outbox, SendAll(e, targets, m));
    }
  }

  /** The level activation starts, if it starts one. */
  function Starting(s: State, level: nat, size: nat): Option<ActiveLevel> {
    if 0 < level < |s.levels| && s.levels[level].None? && s.levels[level - 1].Some?
    then Some(NewLevel(s.levels[level - 1].value.best, size)) else None
  }

  lemma ActivateShape(e: Env, s: State, level: nat)
    requires Indexed(e, s) && level > 0 && (level < |s.levels| ==> e.pp.vp[level] != [])
    ensures
      var size := if level < |s.levels| then |e.pp.vp[level]| else 0;
      var started := Starting(s, level, size);
      TryActivate(e, s, level) == if started.Some? then s.(levels := s.levels[level := started]) else s
  {
  }

  lemma ActivateHonest(w: World, i: nat, e: Env, s: State, level: nat)
    requires Indexed(e, s) && Honest(w, i, s) && level > 0 && (level < |s.levels| ==> e.pp.vp[level] != [])
    ensures
      var s' := TryActivate(e, s, level);
      Honest(w, i, s') && Grows(s, s') && Activated(s.levels, s'.levels, level)
  {
    ActivateShape(e, s, level);
    var size := if level < |s.levels| then |e.pp.vp[level]| else 0;
    var lvl := Starting(s, level, size);
    if lvl.Some? {
      assert HonestLevel(w, i, s.levels[level - 1].value);
      HonestAt(w, i, s.levels, level, lvl.value);
      GrowsAt(s, TryActivate(e, s, level), level, lvl.value);
    }
  }

  /** Activation above an active level starts exactly the next one. */
  lemma ActivateCore(w: World, i: nat, s: State, level: nat)
    requires WellFormed(w) && i < |w.envs| && Core(w, i, s) && level > 0 && |s.levels| == w.k + 1
    ensures
      var s' := TryActivate(w.envs[i], s, level);
      Core(w, i, s') && Grows(s, s') && Activated(s.levels, s'.levels, level)
  {
    ActivateOk(w.envs[i], s, level, {});
    if level < |s.levels| { LevelNotEmpty(w, i, level); }
    ActivateHonest(w, i, w.envs[i], s, level);
  }

  /** At most one level starts, open, and it does if the one below is active. */
  ghost predicate Activated(a: seq<Option<ActiveLevel>>, b: seq<Option<ActiveLevel>>, level: nat) {
    && |a| == |b|
    && (0 < level < |a| && a[level - 1].Some? ==> b[level].Some?)
    && (forall l: nat :: l < |a| && a[l].Some? ==> b[l] == a[l])
    && (forall l: nat :: l < |a| && a[l].None? && b[l].Some? ==> !b[l].value.completed)
  }

  lemma ActivationChains(a: seq<Option<ActiveLevel>>, b: seq<Option<ActiveLevel>>, level: nat)
    requires Chained(a) && Activated(a, b, level)
    ensures Chained(b)
  {
    forall l: nat | l + 1 < |b| && LevelCompleted(b[l]) ensures b[l + 1].Some? {
      assert a[l] == b[l];
      assert a[l + 1].Some?;
    }
  }

  /** The state after an aggregation that completes an open level. */
  lemma CompletionHonest(w: World, i: nat, s: State, s1: State, level: nat)
    requires WellFormed(w) && i < |w.envs| && NodeOk(w, i, s) && Core(w, i, s1) && Grows(s, s1)
    requires 0 < level <= w.k && |s.levels| == w.k + 1 && s.levels[level].Some? && s1.levels[level].Some?
    requires s1.levels == s.levels[level := s1.levels[level]]
    ensures w.envs[i].pp.cvp[level] != []
    ensures
      var s' := TryActivate(w.envs[i], RunFastPath(w.envs[i], s1, level), level + 1);
      NodeOk(w, i, s') && Grows(s, s') && s'.levels[level] == s1.levels[level]
  {
    FastPathCore(w, i, s1, level);
    var s2 := RunFastPath(w.envs[i], s1, level);
    ActivateCore(w, i, s2, level + 1);
    var s' := TryActivate(w.envs[i], s2, level + 1);
    GrowsTransitive(s, s1, s2);
    GrowsTransitive(s, s2, s');
    CompletionChains(s.levels, s1.levels, s'.levels, level);
  }

  lemma CompletionChains(a: seq<Option<ActiveLevel>>, mid: seq<Option<ActiveLevel>>, b: seq<Option<ActiveLevel>>, level: nat)
    requires Chained(a) && level < |a| == |mid| && mid == a[level := mid[level]] && a[level].Some? && mid[level].Some?
    requires Activated(mid, b, level + 1)
    ensures Chained(b) && b[level] == mid[level]
  {
    forall l: nat | l + 1 < |b| && LevelCompleted(b[l]) ensures b[l + 1].Some? {
      if l != level {
        assert mid[l] == b[l] && a[l] == mid[l];
        assert a[l + 1].Some?;
      }
    }
  }

  /** Among honest nodes without padding no aggregation stops the node. */
  lemma AlwaysSafe(w: World, i: nat, s: State, level: nat)
    requires WellFormed(w) && i < |w.envs| && Inv(w.envs[i], s) && 0 < level <= w.k && |s.levels| == w.k + 1
    ensures AggregationSafe(w.envs[i], s, level)
  {
    LevelNotEmpty(w, i, level);
  }

  /** The aggregation with its two ways to go on, away from the node. */
  lemma AggregationShape(e: Env, s: State, level: nat)
    requires Inv(e, s) && level < |s.levels| && AggregationSafe(e, s, level)
    requires s.levels[level].Some? && !s.levels[level].value.completed && s.pending[level] != map[] && e.pp.cvp[level] != []
    ensures
      var (s1, lvl') := Aggregate(e, s, level, s.levels[level].value);
      && Indexed(e, s1) && s1.levels[level] == Some(lvl')
      && RunAggregation(e, s, level) == if lvl'.completed then TryActivate(e, RunFastPath(e, s1, level), level + 1) else s1
  {
    CompletesIff(e, s, level);
  }

  lemma AggregatesOpen(w: World, i: nat, s: State, level: nat)
    requires WellFormed(w) && i < |w.envs| && NodeOk(w, i, s) && 0 < level <= w.k && |s.levels| == w.k + 1
    requires s.levels[level].Some? && !s.levels[level].value.completed && s.pending[level] != map[]
    requires AggregationSafe(w.envs[i], s, level)
    ensures
      var s' := RunAggregation(w.envs[i], s, level);
      && NodeOk(w, i, s') && Grows(s, s')
      && s'.levels[level] == Some(Aggregate(w.envs[i], s, level, s.levels[level].value).1)
  {
    LevelNotEmpty(w, i, level);
    AggregationShape(w.envs[i], s, level);
    AggregateCore(w, i, s, level);
    var (s1, lvl') := Aggregate(w.envs[i], s, level, s.levels[level].value);
    if lvl'.completed {
      CompletionHonest(w, i, s, s1, level);
    } else {
      OpenStaysChained(s.levels, level, lvl');
    }
  }

  /** One whole aggregation at an open level. */
  lemma RunAggregationHonest(w: World, i: nat, s: State, level: nat)
    requires WellFormed(w) && i < |w.envs| && NodeOk(w, i, s) && 0 < level <= w.k && |s.levels| == w.k + 1
    requires !LevelCompleted(s.levels[level])
    ensures AggregationSafe(w.envs[i], s, level)
    ensures
      var s' := RunAggregation(w.envs[i], s, level);
      && NodeOk(w, i, s') && Grows(s, s')
      && (s.levels[level].Some? && s.pending[level] != map[] ==>
            s'.levels[level] == Some(Aggregate(w.envs[i], s, level, s.levels[level].value).1))
  {
    AlwaysSafe(w, i, s, level);
    if s.levels[level].Some? && s.pending[level] != map[] {
      AggregatesOpen(w, i, s, level);
    }
  }

  lemma OpenStaysChained(a: seq<Option<ActiveLevel>>, level: nat, lvl: ActiveLevel)
    requires Chained(a) && level < |a| && a[level].Some? && !lvl.completed
    ensures Chained(a[level := Some(lvl)])
  {
  }

  // ----- deliveries -----

  lemma LevelCount(w: World, i: nat, s: State)
    requires WellFormed(w) && i < |w.envs| && Inv(w.envs[i], s)
    ensures |s.levels| == |s.pending| == w.k + 1
  {
    assert HostFits(w, i);
  }

  lemma KnownPeer(w: World, i: nat, j: nat)
    requires WellFormed(w) && i < |w.envs| && j < |w.envs|
    ensures |w.envs[i].pp.peers| == |w.envs| == |w.envs[0].pp.peers|
    ensures Position(w.envs[i].pp.peers, w.envs[0].pp.peers[j]) == Some(j) && w.envs[0].pp.peers[j] in w.envs[i].pp.peers
  {
    assert HostFits(w, i) && HostFits(w, 0);
    assert w.envs[i].pp.peers[j] in w.envs[i].pp.peers;
  }

  /** `b` has learnt `agg` at level `l`. */
  ghost predicate Learns(e: Env, a: State, b: State, l: nat, agg: Contrib)
    requires l < |a.levels| == |b.levels| && a.levels[l].Some? && e.conf.threshold.denom > 0
  {
    && b.levels[l].Some? && Compatible(a.levels[l].value.best.contribution, agg)
    && |b.levels[l].value.best.contribution| >= |a.levels[l].value.best.contribution + agg|
    && (b.levels[l].value.completed <==> |b.levels[l].value.best.contribution| >= e.conf.threshold.Min(Pow2(l)))
  }

  lemma HandleHonest(w: World, i: nat, e: Env, s: State, from: PeerId, j: nat, m: Message)
    requires Honest(w, i, s) && HonestMessage(w, m) && m.level < |s.levels| == |s.pending| && Position(e.pp.peers, from) == Some(j)
    ensures
      var (s1, kept) := HandleContribution(e, s, from, m);
      && Honest(w, i, s1) && s1.levels == s.levels
      && (kept <==> !LevelCompleted(s.levels[m.level]))
      && (kept ==> j in s1.pending[m.level] && s1.pending[m.level][j].aggregate == m.aggregate)
  {
    var (s1, kept) := HandleContribution(e, s, from, m);
    if kept {
      assert HonestWaiting(w, s.pending[m.level]);
      WaitingAt(w, s.pending, m.level, s1.pending[m.level]);
    }
  }

  lemma StoredHonest(w: World, i: nat, s: State, j: nat, m: Message)
    requires WellFormed(w) && i < |w.envs| && NodeOk(w, i, s) && j < |w.envs| && HonestMessage(w, m)
    ensures |s.levels| == w.k + 1 && |w.envs[0].pp.peers| == |w.envs|
    ensures
      var from := w.envs[0].pp.peers[j];
      var (s1, kept) := HandleContribution(w.envs[i], s, from, m);
      && NodeOk(w, i, s1) && Grows(s, s1) && s1.levels == s.levels
      && (kept <==> !LevelCompleted(s.levels[m.level]))
      && (kept ==> j in s1.pending[m.level] && s1.pending[m.level][j].aggregate == m.aggregate)
  {
    LevelCount(w, i, s);
    KnownPeer(w, i, j);
    var from := w.envs[0].pp.peers[j];
    HandleOk(w.envs[i], s, from, m, {});
    HandleHonest(w, i, w.envs[i], s, from, j, m);
  }

  /** A message among honest nodes is always deliverable, keeps the node honest, and is learnt if its level is open. */
  lemma InjectHonest(w: World, i: nat, s: State, j: nat, m: Message)
    requires WellFormed(w) && i < |w.envs| && NodeOk(w, i, s) && j < |w.envs| && HonestMessage(w, m)
    ensures |s.levels| == w.k + 1 && |w.envs[0].pp.peers| == |w.envs|
    ensures Deliverable(w.envs[i], s, w.envs[0].pp.peers[j], m)
    ensures
      var s' := Inject(w.envs[i], s, w.envs[0].pp.peers[j], m);
      && NodeOk(w, i, s') && Grows(s, s')
      && (s.levels[m.level].Some? && !s.levels[m.level].value.completed && AtLevel(i, j, m.level) ==>
            Learns(w.envs[i], s, s', m.level, m.aggregate))
  {
    var e, from := w.envs[i], w.envs[0].pp.peers[j];
    StoredHonest(w, i, s, j, m);
    KnownPeer(w, i, j);
    var (s1, kept) := HandleContribution(e, s, from, m);
    if kept {
      assert m.level > 0;
      RunAggregationHonest(w, i, s1, m.level);
      GrowsTransitive(s, s1, RunAggregation(e, s1, m.level));
      if s.levels[m.level].Some? && AtLevel(i, j, m.level) {
        AggregateLearns(w, i, s1, m.level, j);
        CompletesIff(e, s1, m.level);
      }
    }
    DeliverableIff(e, s, from, m);
  }

  // ----- one contribution waiting alone -----

  /** What a host that knows only itself sends at a level. */
  function OwnMessage(w: World, x: nat, l: nat): Message {
    Message(l, Some(OwnOf(w, x)), OwnOf(w, x), true)
  }

  lemma OwnMessageHonest(w: World, x: nat, l: nat)
    requires x in w.truth && l <= w.k
    ensures HonestMessage(w, OwnMessage(w, x, l))
  {
  }

  /** The state between taking the message in and aggregating. */
  function Holding(s: State, x: nat, l: nat, own: Contrib): State
    requires l < |s.pending|
  {
    s.(pending := s.pending[l := map[x := Pending(x, own, Some(own))]])
  }

  lemma StoresOwn(e: Env, s: State, from: PeerId, x: nat, l: nat, own: Contrib)
    requires l < |s.levels| == |s.pending| && !LevelCompleted(s.levels[l]) && s.pending[l] == map[] && s.banned == {}
    requires Position(e.pp.peers, from) == Some(x)
    ensures HandleContribution(e, s, from, Message(l, Some(own), own, true)) == (Holding(s, x, l, own), true)
  {
    var empty: map<nat, Pending> := map[];
    assert empty[x := Pending(x, own, Some(own))] == map[x := Pending(x, own, Some(own))];
  }

  /** What the aggregation makes of one contribution waiting alone. */
  lemma AggregatesOne(w: World, b: nat, s: State, x: nat, l: nat)
    requires WellFormed(w) && b < |w.envs| && x < |w.envs| && NodeOk(w, b, s) && l < |s.levels| == |s.pending|
    requires s.levels[l].Some? && AtLevel(b, x, l) && s.pending[l] == map[x := Pending(x, OwnOf(w, x), Some(OwnOf(w, x)))]
    requires x !in s.levels[l].value.best.contribution
    ensures
      |Aggregate(w.envs[b], s, l, s.levels[l].value).1.best.contribution| >= |s.levels[l].value.best.contribution| + 1
  {
    AggregateLearns(w, b, s, l, x);
    assert x in w.truth;
    OneMore(s.levels[l].value.best.contribution, x, w.truth[x]);
  }

  lemma OneMore(c: Contrib, x: nat, value: Value)
    requires x !in c
    ensures |c + map[x := value]| == |c| + 1
  {
    assert (c + map[x := value]).Keys == c.Keys + {x};
    assert |(c + map[x := value]).Keys| == |c.Keys| + 1;
  }

  /** What an aggregation leaves alone. */
  lemma AggregateFrame(e: Env, s: State, l: nat)
    requires Indexed(e, s) && l < |s.levels| && s.levels[l].Some? && e.conf.shrinkFactor > 0 && e.conf.threshold.denom > 0
    ensures
      var (t, lvl) := Aggregate(e, s, l, s.levels[l].value);
      && t.levels == s.levels[l := Some(lvl)] && |t.pending| == |s.pending| && t.outbox == s.outbox
      && t.completedLevels == s.completedLevels && lvl.lastContacted == s.levels[l].value.lastContacted
  {
  }

  // ----- polls -----

  /** The levels as they were, as far as bests and completion go. */
  ghost predicate SameBests(a: seq<Option<ActiveLevel>>, b: seq<Option<ActiveLevel>>) {
    |a| == |b| && forall l: nat :: l < |a| ==>
      (a[l].Some? <==> b[l].Some?)
      && (a[l].Some? ==> b[l].value.best == a[l].value.best && b[l].value.completed == a[l].value.completed)
  }

  lemma TurnHonest(w: World, i: nat, e: Env, s: State, l: nat)
    requires 0 < l < |s.levels| == |e.pp.cvp| && AllContactable(e, s) && Honest(w, i, s) && l <= w.k
    ensures var s' := DisseminateAt(e, s, l); Honest(w, i, s') && SameBests(s.levels, s'.levels)
  {
    if s.levels[l].Some? {
      var lvl := s.levels[l].value;
      var next := NextContact(DoneAt(e.pp.cvp[l], s.completedLevels, l), lvl.lastContacted);
      if next.Some? {
        assert HonestLevel(w, i, lvl) && HonestLevel(w, i, s.levels[0].value);
        HonestAt(w, i, s.levels, l, Contacted(lvl, next.value));
        var m := Message(l, OwnContribution(s), lvl.best.contribution, !lvl.completed);
        SendAllHonest(e, w, [e.pp.cvp[l][next.value]], m);
        OutboxJoins(w, s.outbox, SendAll(e, [e.pp.cvp[l][next.value]], m));
      }
    }
  }

  lemma {:induction false} RoundHonest(w: World, i: nat, e: Env, s: State, l: nat)
    requires 0 < l <= |s.levels| == |e.pp.cvp| == w.k + 1 && AllContactable(e, s) && Honest(w, i, s)
    ensures var s' := DisseminateFrom(e, s, l); Honest(w, i, s') && SameBests(s.levels, s'.levels)
    decreases |s.levels| - l
  {
    if l < |s.levels| {
      TurnHonest(w, i, e, s, l);
      RoundHonest(w, i, e, DisseminateAt(e, s, l), l + 1);
    }
  }

  lemma SameBestsKeeps(a: State, b: State)
    requires SameBests(a.levels, b.levels)
    ensures Grows(a, b) && (Chained(a.levels) ==> Chained(b.levels))
  {
    if Chained(a.levels) {
      forall l: nat | l + 1 < |b.levels| && LevelCompleted(b.levels[l]) ensures b.levels[l + 1].Some? {
        assert LevelCompleted(a.levels[l]);
      }
    }
  }

  lemma DisseminateNodeOk(w: World, i: nat, s: State)
    requires WellFormed(w) && i < |w.envs| && NodeOk(w, i, s)
    ensures AllContactable(w.envs[i], s) && |s.levels| == |w.envs[i].pp.cvp|
    ensures var s' := DisseminateFrom(w.envs[i], s, 1); NodeOk(w, i, s') && Grows(s, s')
  {
    LevelCount(w, i, s);
    InvContactable(w.envs[i], s);
    DisseminateOk(w.envs[i], s, 1, {});
    RoundHonest(w, i, w.envs[i], s, 1);
    SameBestsKeeps(s, DisseminateFrom(w.envs[i], s, 1));
  }

  lemma ActivateNodeOk(w: World, i: nat, s: State)
    requires WellFormed(w) && i < |w.envs| && NodeOk(w, i, s)
    ensures var s' := ActivateNext(w.envs[i], s); NodeOk(w, i, s') && Grows(s, s')
  {
    LevelCount(w, i, s);
    var next := NextNonActive(s.levels);
    if next.Some? {
      ActivateCore(w, i, s, next.value);
      ActivationChains(s.levels, TryActivate(w.envs[i], s, next.value).levels, next.value);
    }
  }

  lemma TickNodeOk(w: World, i: nat, s: State, disseminate: bool, activate: bool)
    requires WellFormed(w) && i < |w.envs| && NodeOk(w, i, s)
    ensures var s' := Tick(w.envs[i], s, disseminate, activate); NodeOk(w, i, s') && Grows(s, s')
  {
    DisseminateNodeOk(w, i, s);
    var s1 := if disseminate then DisseminateFrom(w.envs[i], s, 1) else s;
    if activate {
      ActivateNodeOk(w, i, s1);
      GrowsTransitive(s, s1, ActivateNext(w.envs[i], s1));
    }
  }

  lemma PopHonest(w: World, i: nat, s: State)
    requires Honest(w, i, s)
    ensures var (s', r) := PopOutbox(s); Honest(w, i, s') && s'.levels == s.levels && (r.Send? ==> HonestMessage(w, r.envelope.message))
  {
  }

  lemma PopNodeOk(w: World, i: nat, s: State)
    requires WellFormed(w) && i < |w.envs| && NodeOk(w, i, s)
    ensures var (s', r) := PopOutbox(s); NodeOk(w, i, s') && Grows(s, s') && (r.Send? ==> HonestMessage(w, r.envelope.message))
  {
    PopOk(w.envs[i], s, {});
    PopHonest(w, i, s);
  }

  /** What a poll hands out. */
  ghost function Output(e: Env, s: State, ev: Event): PollResult
    requires Inv(e, s)
  {
    if ev.Poll? && ev.ready then
      TickOk(e, s, ev.disseminate, ev.activate, {});
      PopOutbox(Tick(e, s, ev.disseminate, ev.activate)).1
    else HandelSpec.Waiting
  }

  lemma PollNodeOk(w: World, i: nat, s: State, ev: Event)
    requires WellFormed(w) && i < |w.envs| && NodeOk(w, i, s) && ev.Poll?
    ensures
      var s', r := Step(w.envs[i], s, ev), Output(w.envs[i], s, ev);
      NodeOk(w, i, s') && Grows(s, s') && (r.Send? ==> HonestMessage(w, r.envelope.message))
  {
    var s1 := Tick(w.envs[i], s, ev.disseminate, ev.activate);
    TickNodeOk(w, i, s, ev.disseminate, ev.activate);
    if ev.ready {
      PopNodeOk(w, i, s1);
      GrowsTransitive(s, s1, PopOutbox(s1).0);
    }
  }

  lemma InitialHonest(w: World, i: nat)
    requires i < |w.envs| && i in w.truth && |w.envs[i].pp.vp| >= 2 && w.envs[i].conf.initialWindow >= |w.envs|
    ensures
      var s := Initial(w.envs[i], OwnOf(w, i));
      Honest(w, i, s) && Chained(s.levels)
  {
  }

  lemma InitialNodeOk(w: World, i: nat)
    requires WellFormed(w) && i < |w.envs|
    ensures |w.envs[i].pp.vp| >= 2 && NodeOk(w, i, Initial(w.envs[i], OwnOf(w, i)))
  {
    assert HostFits(w, i);
    InitialHonest(w, i);
    InitialOk(w.envs[i], OwnOf(w, i), {});
  }
}
