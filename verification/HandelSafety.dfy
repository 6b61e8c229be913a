/** What every step of a Handel round keeps, and what follows for whole runs. */
module HandelSafety {
  import opened Prelude
  import Bits
  import opened Sorting
  import opened Partitioning
  import opened Contributions
  import opened HandelSpec

  // ----- the invariant -----

  ghost predicate LevelOk(e: Env, l: nat, lvl: ActiveLevel)
    requires l < |e.pp.cvp| && e.conf.threshold.denom > 0
  {
    && lvl.prioritized == []
    && Verifies(e.valid, lvl.best.contribution)
    && lvl.best.score == |lvl.best.contribution|
    && (forall c :: c in lvl.individual ==> Verifies(e.valid, c))
    && Contactable(e, l, lvl)
    && (lvl.completed && e.pp.cvp[l] != [] ==> lvl.best.score >= e.conf.threshold.Min(Pow2(l)))
    && (e.pp.cvp[l] == [] && l != 1 ==> lvl.completed)
  }

  ghost predicate LevelsOk(e: Env, levels: seq<Option<ActiveLevel>>)
    requires |levels| == |e.pp.cvp| && e.conf.threshold.denom > 0
  {
    forall l: nat :: l < |levels| && levels[l].Some? ==> LevelOk(e, l, levels[l].value)
  }

  /** Active levels form a prefix. */
  ghost predicate Prefix(levels: seq<Option<ActiveLevel>>) {
    forall i: nat, j: nat :: i < j < |levels| && levels[j].Some? ==> levels[i].Some?
  }

  /** A message whose parts verify. */
  ghost predicate Sound(e: Env, m: Message) {
    && Verifies(e.valid, m.aggregate)
    && (m.individual.Some? ==> Verifies(e.valid, m.individual.value))
  }

  ghost predicate OutboxSound(e: Env, outbox: seq<Envelope>) {
    forall i :: 0 <= i < |outbox| ==> Sound(e, outbox[i].message)
  }

  ghost predicate SendersMatch(pending: map<nat, Pending>) {
    forall k :: k in pending ==> pending[k].sender == k
  }

  ghost predicate Inv(e: Env, s: State) {
    && Fits(e) && Indexed(e, s)
    && 0 < s.window <= USIZE_MAX
    && s.levels[0].Some? && s.levels[1].Some?
    && Prefix(s.levels) && LevelsOk(e, s.levels)
    && (forall l: nat :: l < |s.pending| ==> SendersMatch(s.pending[l]))
    && OutboxSound(e, s.outbox)
  }

  // ----- trust: who can be banned -----

  ghost predicate PendingSound(e: Env, p: Pending) {
    && Verifies(e.valid, p.aggregate)
    && (p.individual.Some? ==> Verifies(e.valid, p.individual.value))
  }

  ghost predicate Trusting(e: Env, honest: set<nat>, pending: map<nat, Pending>) {
    forall k :: k in pending && k in honest ==> PendingSound(e, pending[k])
  }

  /** No honest peer is banned, and whatever is still pending from one verifies. */
  ghost predicate Trust(e: Env, s: State, honest: set<nat>) {
    && s.banned !! honest
    && forall l: nat :: l < |s.pending| ==> Trusting(e, honest, s.pending[l])
  }

  // ----- progress: what never goes back -----

  ghost predicate LevelProgress(a: ActiveLevel, b: ActiveLevel) {
    a.best.score <= b.best.score && (a.completed ==> b.completed)
  }

  ghost predicate Progress(a: State, b: State) {
    && |a.levels| == |b.levels|
    && a.banned <= b.banned
    && (forall l: nat :: l < |a.levels| && a.levels[l].Some? ==>
          b.levels[l].Some? && LevelProgress(a.levels[l].value, b.levels[l].value))
    && (forall p, l :: ReportedComplete(a.completedLevels, p, l) ==> ReportedComplete(b.completedLevels, p, l))
  }

  lemma ProgressTransitive(a: State, b: State, c: State)
    requires Progress(a, b) && Progress(b, c)
    ensures Progress(a, c)
  {
    forall l: nat | l < |a.levels| && a.levels[l].Some?
      ensures c.levels[l].Some? && LevelProgress(a.levels[l].value, c.levels[l].value)
    {
      assert LevelProgress(a.levels[l].value, b.levels[l].value);
      assert LevelProgress(b.levels[l].value, c.levels[l].value);
    }
  }

  // ----- picking -----

  /** Everything picked was pending under its sender, and nothing new becomes pending. */
  lemma {:induction false} PrioritizeSources(peers: seq<nat>, pending: map<nat, Pending>, acc: seq<Pending>, window: nat)
    ensures
      var (picked, rest) := Prioritize(peers, pending, acc, window);
      && (forall p :: p in picked ==> p in acc || exists k :: k in pending && pending[k] == p)
      && (forall k :: k in rest ==> k in pending && rest[k] == pending[k])
    decreases |peers|
  {
    if peers != [] {
      var acc' := if peers[0] in pending then acc + [pending[peers[0]]] else acc;
      PrioritizeSources(peers[1..], pending - {peers[0]}, acc', window);
    }
  }

  /** The pending contributions of `peers` in their order. */
  function WaitingOf(peers: seq<nat>, pending: map<nat, Pending>): seq<Pending> {
    if peers == [] then []
    else (if peers[0] in pending then [pending[peers[0]]] else []) + WaitingOf(peers[1..], pending)
  }

  function Take<T>(s: seq<T>, n: nat): seq<T> {
    if |s| <= n then s else s[..n]
  }

  lemma {:induction false} WaitingWithout(peers: seq<nat>, pending: map<nat, Pending>, x: nat)
    requires x !in peers
    ensures WaitingOf(peers, pending - {x}) == WaitingOf(peers, pending)
  {
    if peers != [] { WaitingWithout(peers[1..], pending, x); }
  }

  /** The window is filled with the waiting contributions of highest priority. */
  lemma {:induction false} PrioritizeTakesFirst(peers: seq<nat>, pending: map<nat, Pending>, acc: seq<Pending>, window: nat)
    requires Distinct(peers) && |acc| < window
    ensures Prioritize(peers, pending, acc, window).0 == acc + Take(WaitingOf(peers, pending), window - |acc|)
    decreases |peers|
  {
    if peers != [] {
      assert peers[0] !in peers[1..];
      WaitingWithout(peers[1..], pending, peers[0]);
      var more, n := WaitingOf(peers[1..], pending), window - |acc|;
      if peers[0] in pending {
        var x := pending[peers[0]];
        assert WaitingOf(peers, pending) == [x] + more;
        TakeCons(x, more, n);
        AppendAssociates(acc, x, Take(more, n - 1));
        if n > 1 {
          PrioritizeTakesFirst(peers[1..], pending - {peers[0]}, acc + [x], window);
        } else {
          assert Take(more, 0) == [];
        }
      } else {
        assert WaitingOf(peers, pending) == more;
        PrioritizeTakesFirst(peers[1..], pending - {peers[0]}, acc, window);
      }
    }
  }

  lemma AppendAssociates<T>(a: seq<T>, x: T, b: seq<T>)
    ensures a + [x] + b == a + ([x] + b)
  {
  }

  lemma TakeCons<T>(x: T, s: seq<T>, n: nat)
    requires n > 0
    ensures Take([x] + s, n) == [x] + Take(s, n - 1)
  {
  }

  /** Exactly what is picked no longer waits. */
  lemma {:induction false} PrioritizeLeaves(peers: seq<nat>, pending: map<nat, Pending>, acc: seq<Pending>, window: nat, k: nat)
    requires (forall x :: x in pending ==> pending[x].sender == x) && forall p :: p in acc ==> p.sender !in pending
    ensures
      var (picked, rest) := Prioritize(peers, pending, acc, window);
      k in rest <==> k in pending && pending[k] !in picked
    decreases |peers|
  {
    if peers != [] {
      var acc' := if peers[0] in pending then acc + [pending[peers[0]]] else acc;
      if |acc'| < window {
        PrioritizeLeaves(peers[1..], pending - {peers[0]}, acc', window, k);
        PrioritizeKeeps(peers[1..], pending - {peers[0]}, acc', window);
      }
    }
  }

  lemma {:induction false} PrioritizeKeeps(peers: seq<nat>, pending: map<nat, Pending>, acc: seq<Pending>, window: nat)
    ensures forall p :: p in acc ==> p in Prioritize(peers, pending, acc, window).0
    decreases |peers|
  {
    if peers != [] {
      PrioritizeKeeps(peers[1..], pending - {peers[0]}, if peers[0] in pending then acc + [pending[peers[0]]] else acc, window);
    }
  }

  // ----- scoring -----

  /** Folding individual contributions in: nothing of the aggregate is lost, one goes in exactly when it agrees with
      what the ones before it made, and nothing else is added. */
  lemma {:induction false} CombineAllExact(acc: Contrib, ics: seq<Contrib>)
    ensures Part(acc, CombineAll(acc, ics))
    ensures forall i: nat :: i < |ics| ==> (Part(ics[i], CombineAll(acc, ics)) <==> Compatible(CombineAll(acc, ics[..i]), ics[i]))
    ensures forall k :: k in CombineAll(acc, ics) ==> k in acc || exists i: nat :: i < |ics| && GoesIn(acc, ics, i, k)
    decreases |ics|
  {
    if ics != [] {
      var r := TryCombine(acc, ics[0]);
      var next, rest, all := if r.Some? then r.value else acc, ics[1..], CombineAll(acc, ics);
      CombineAllExact(next, rest);
      forall i: nat | i < |ics| ensures Part(ics[i], all) <==> Compatible(CombineAll(acc, ics[..i]), ics[i]) {
        if i > 0 {
          assert ics[..i][1..] == rest[..i - 1] && ics[..i][0] == ics[0] && ics[i] == rest[i - 1];
        } else {
          CombineFirst(acc, ics[0], all);
        }
      }
      forall k | k in all && k !in acc ensures exists i: nat :: i < |ics| && GoesIn(acc, ics, i, k) {
        if k in next {
          assert GoesIn(acc, ics, 0, k);
        } else {
          var i: nat :| i < |rest| && GoesIn(next, rest, i, k);
          assert GoesIn(acc, ics, i + 1, k);
        }
      }
    }
  }

  predicate GoesIn(acc: Contrib, ics: seq<Contrib>, i: nat, k: nat)
    requires i < |ics|
  {
    k in ics[i] && Part(ics[i], CombineAll(acc, ics))
  }

  lemma CombineFirst(acc: Contrib, c: Contrib, all: Contrib)
    requires Part(acc, all) && (Compatible(acc, c) ==> Part(acc + c, all))
    ensures Part(c, all) <==> Compatible(acc, c)
  {
    if Compatible(acc, c) {
      assert Part(c, acc + c);
    }
  }

  lemma {:induction false} CombineAllVerifies(e: Env, acc: Contrib, ics: seq<Contrib>)
    requires forall c :: c in ics ==> Verifies(e.valid, c)
    ensures Verifies(e.valid, acc) ==> Verifies(e.valid, CombineAll(acc, ics))
    decreases |ics|
  {
    if ics != [] {
      var r := TryCombine(acc, ics[0]);
      if r.Some? { CombineVerifies(e.valid, acc, ics[0]); }
      CombineAllVerifies(e, if r.Some? then r.value else acc, ics[1..]);
    }
  }

  /** A sound contribution scores as a verifying candidate on both scoring paths. */
  lemma CandidateVerifies(e: Env, best: Contrib, individual: seq<Contrib>, p: Pending)
    requires Verifies(e.valid, best) && PendingSound(e, p)
    requires forall c :: c in individual ==> Verifies(e.valid, c)
    ensures Verifies(e.valid, CandidateOf(best, individual, p).contribution)
  {
    if Compatible(best, p.aggregate) {
      CombineVerifies(e.valid, best, p.aggregate);
    } else {
      CombineAllVerifies(e, p.aggregate, individual);
    }
  }

  /** What one contribution is scored as: combined with the level's best if the two agree, and otherwise with the
      individual contributions that still go in; it weighs what it holds. */
  lemma CandidateExact(best: Contrib, individual: seq<Contrib>, p: Pending)
    ensures
      var c := CandidateOf(best, individual, p);
      && c.sender == p.sender && c.score == |c.contribution| && Part(p.aggregate, c.contribution)
      && (Compatible(best, p.aggregate) ==> c.contribution == best + p.aggregate)
      && (!Compatible(best, p.aggregate) ==>
            && (forall i: nat :: i < |individual| ==>
                  (Part(individual[i], c.contribution) <==> Compatible(CombineAll(p.aggregate, individual[..i]), individual[i])))
            && (forall k :: k in c.contribution ==> k in p.aggregate || exists i: nat :: i < |individual| && GoesIn(p.aggregate, individual, i, k)))
  {
    CombineAllExact(p.aggregate, individual);
  }

  lemma {:induction false} InsertCandidateSources(cs: seq<Candidate>, c: Candidate)
    ensures forall x :: x in InsertCandidate(cs, c) ==> x in cs || x == c
    ensures forall x :: x in cs ==> x in InsertCandidate(cs, c)
    ensures exists x :: x in InsertCandidate(cs, c) && x.score == c.score
  {
    if cs == [] {
      assert c in InsertCandidate(cs, c);
    } else if c.score == cs[0].score {
      assert cs[0] in InsertCandidate(cs, c);
    } else if c.score < cs[0].score {
      assert c in InsertCandidate(cs, c);
    } else {
      InsertCandidateSources(cs[1..], c);
      var x :| x in InsertCandidate(cs[1..], c) && x.score == c.score;
      assert x in InsertCandidate(cs, c);
      assert cs == [cs[0]] + cs[1..];
    }
  }

  ghost predicate ScoringOk(e: Env, honest: set<nat>, st: Scoring) {
    && 0 < st.window <= USIZE_MAX
    && st.banned !! honest
    && (forall c :: c in st.individual ==> Verifies(e.valid, c))
    && (forall c :: c in st.candidates ==>
          c.score == |c.contribution| && (c.sender in honest ==> Verifies(e.valid, c.contribution)))
  }

  lemma ShrinkGrow(window: nat, factor: nat)
    requires 0 < window <= USIZE_MAX && factor > 0
    ensures 0 < Shrink(window, factor) <= window
    ensures window <= Grow(window, factor) <= USIZE_MAX
  {
    MulMonotone(1, factor, window + 1);
    Bits.DivisionBounds(window, factor, window + 1);
    MulMonotone(1, factor, window);
  }

  lemma ScoreOneOk(e: Env, honest: set<nat>, best: Contrib, st: Scoring, p: Pending)
    requires e.conf.shrinkFactor > 0 && Verifies(e.valid, best) && ScoringOk(e, honest, st)
    requires p.sender in honest ==> PendingSound(e, p)
    ensures ScoringOk(e, honest, ScoreOne(e, best, st, p))
    ensures st.banned <= ScoreOne(e, best, st, p).banned
  {
    ShrinkGrow(st.window, e.conf.shrinkFactor);
    if p.individual.Some? && !Verifies(e.valid, p.individual.value) {
    } else {
      var individual := if p.individual.Some? then st.individual + [p.individual.value] else st.individual;
      var c := CandidateOf(best, individual, p);
      if p.sender in honest { CandidateVerifies(e, best, individual, p); }
      InsertCandidateSources(st.candidates, c);
    }
  }

  lemma {:induction false} ScoreAllOk(e: Env, honest: set<nat>, best: Contrib, st: Scoring, picked: seq<Pending>)
    requires e.conf.shrinkFactor > 0 && Verifies(e.valid, best) && ScoringOk(e, honest, st)
    requires forall p :: p in picked && p.sender in honest ==> PendingSound(e, p)
    ensures ScoringOk(e, honest, ScoreAll(e, best, st, picked))
    ensures st.banned <= ScoreAll(e, best, st, picked).banned
    decreases |picked|
  {
    if picked != [] {
      var p := picked[|picked| - 1];
      ScoreOneOk(e, honest, best, st, p);
      ScoreAllOk(e, honest, best, ScoreOne(e, best, st, p), picked[..|picked| - 1]);
    }
  }

  // ----- judging -----

  ghost predicate ScoredOk(e: Env, b: Scored) {
    Verifies(e.valid, b.contribution) && b.score == |b.contribution|
  }

  /** The winner is the old best or a heavier verifying candidate, at least as heavy as every verifying
      candidate; exactly the senders of the others are banned. */
  lemma {:induction false} JudgeAllBest(e: Env, v: Verdict, cs: seq<Candidate>)
    requires e.conf.shrinkFactor > 0
    ensures
      var r := JudgeAll(e, v, cs);
      && r.best.score >= v.best.score
      && (r.best == v.best || (r.best.score > v.best.score && exists c :: c in cs && Verifies(e.valid, c.contribution)
                                                                     && r.best == Scored(c.score, c.contribution)))
      && (forall c :: c in cs && Verifies(e.valid, c.contribution) ==> r.best.score >= c.score)
      && (forall x :: x in r.banned <==>
            x in v.banned || exists c :: c in cs && !Verifies(e.valid, c.contribution) && c.sender == x)
    decreases |cs|
  {
    if cs != [] {
      assert cs == [cs[0]] + cs[1..];
      JudgeAllBest(e, JudgeOne(e, v, cs[0]), cs[1..]);
    }
  }

  lemma {:induction false} JudgeAllWindow(e: Env, v: Verdict, cs: seq<Candidate>)
    requires e.conf.shrinkFactor > 0 && 0 < v.window <= USIZE_MAX
    ensures 0 < JudgeAll(e, v, cs).window <= USIZE_MAX
    decreases |cs|
  {
    if cs != [] {
      ShrinkGrow(v.window, e.conf.shrinkFactor);
      JudgeAllWindow(e, JudgeOne(e, v, cs[0]), cs[1..]);
    }
  }

  lemma JudgeAllOk(e: Env, honest: set<nat>, v: Verdict, cs: seq<Candidate>)
    requires e.conf.shrinkFactor > 0 && 0 < v.window <= USIZE_MAX
    requires ScoredOk(e, v.best) && v.banned !! honest
    requires forall c :: c in cs ==>
               c.score == |c.contribution| && (c.sender in honest ==> Verifies(e.valid, c.contribution))
    ensures
      var r := JudgeAll(e, v, cs);
      && 0 < r.window <= USIZE_MAX && ScoredOk(e, r.best)
      && r.banned !! honest && v.banned <= r.banned && v.best.score <= r.best.score
  {
    JudgeAllWindow(e, v, cs);
    JudgeAllBest(e, v, cs);
  }

  // ----- one step at a time -----

  lemma UpdateLevel(e: Env, levels: seq<Option<ActiveLevel>>, l: nat, lvl: ActiveLevel)
    requires |levels| == |e.pp.cvp| && e.conf.threshold.denom > 0 && l < |levels|
    requires LevelsOk(e, levels) && LevelOk(e, l, lvl) && Prefix(levels)
    requires forall i: nat :: i < l ==> levels[i].Some?
    ensures LevelsOk(e, levels[l := Some(lvl)]) && Prefix(levels[l := Some(lvl)])
  {
  }

  /** A step that touches only one active level, and improves it, is progress. */
  lemma ProgressAt(a: State, b: State, l: nat)
    requires l < |a.levels| && |b.levels| == |a.levels| && a.levels[l].Some? && b.levels[l].Some?
    requires b.levels == a.levels[l := b.levels[l]] && LevelProgress(a.levels[l].value, b.levels[l].value)
    requires a.banned <= b.banned && a.completedLevels == b.completedLevels
    ensures Progress(a, b)
  {
  }

  lemma InitialOk(e: Env, own: Contrib, honest: set<nat>)
    requires Fits(e) && Verifies(e.valid, own) && |own| == 1
    ensures Inv(e, Initial(e, own)) && Trust(e, Initial(e, own), honest)
  {
  }

  lemma HandleOk(e: Env, s: State, from: PeerId, m: Message, honest: set<nat>)
    requires Inv(e, s) && Trust(e, s, honest) && (from in e.pp.peers ==> m.level < |s.levels|)
    requires var ix := Position(e.pp.peers, from); ix.Some? && ix.value in honest ==> Sound(e, m)
    ensures
      var (s', kept) := HandleContribution(e, s, from, m);
      Inv(e, s') && Trust(e, s', honest) && Progress(s, s')
  {
    var (s', kept) := HandleContribution(e, s, from, m);
    if kept {
      var peer := Position(e.pp.peers, from).value;
      forall l: nat | l < |s'.pending| ensures SendersMatch(s'.pending[l]) && Trusting(e, honest, s'.pending[l]) {
        assert SendersMatch(s.pending[l]) && Trusting(e, honest, s.pending[l]);
      }
    }
  }

  /** What was picked keeps the senders' soundness, and what stays pending too. */
  lemma PickedOk(e: Env, peers: seq<nat>, pending: map<nat, Pending>, window: nat, honest: set<nat>)
    requires SendersMatch(pending) && Trusting(e, honest, pending)
    ensures
      var (picked, rest) := Prioritize(peers, pending, [], window);
      && (forall p :: p in picked && p.sender in honest ==> PendingSound(e, p))
      && SendersMatch(rest) && Trusting(e, honest, rest)
  {
    PrioritizeSources(peers, pending, [], window);
  }

  lemma AggregateOk(e: Env, s: State, level: nat, honest: set<nat>)
    requires Inv(e, s) && Trust(e, s, honest) && level < |s.levels| && s.levels[level].Some?
    ensures
      var (s', lvl) := Aggregate(e, s, level, s.levels[level].value);
      && Inv(e, s') && Trust(e, s', honest) && Progress(s, s')
      && s'.levels[level] == Some(lvl)
      && (IsComplete(|lvl.best.contribution|, level, e.conf.threshold) ==> lvl.completed)
  {
    var before := s.levels[level].value;
    var (s', lvl) := Aggregate(e, s, level, before);
    var (picked, rest) := Prioritize(e.pp.vp[level], s.pending[level], before.prioritized, s.window);
    PickedOk(e, e.pp.vp[level], s.pending[level], s.window, honest);
    var st0 := Scoring(before.individual, [], s.banned, s.window);
    var st := ScoreAll(e, before.best.contribution, st0, picked);
    ScoreAllOk(e, honest, before.best.contribution, st0, picked);
    JudgeAllOk(e, honest, Verdict(before.best, st.banned, st.window), st.candidates);
    assert LevelOk(e, level, lvl);
    forall i: nat | i < level ensures s.levels[i].Some? { }
    UpdateLevel(e, s.levels, level, lvl);
    ProgressAt(s, s', level);
    forall l: nat | l < |s'.pending| ensures SendersMatch(s'.pending[l]) && Trusting(e, honest, s'.pending[l]) {
      assert SendersMatch(s.pending[l]) && Trusting(e, honest, s.pending[l]);
    }
  }

  lemma {:induction false} SendAllSound(e: Env, targets: seq<nat>, m: Message)
    requires Sound(e, m)
    ensures OutboxSound(e, SendAll(e, targets, m))
  {
    if targets != [] { SendAllSound(e, targets[1..], m); }
  }

  lemma FastPathOk(e: Env, s: State, level: nat, honest: set<nat>)
    requires Inv(e, s) && Trust(e, s, honest) && level < |s.levels|
    requires e.pp.cvp[level] == [] ==> e.conf.fastPathWindow == 0
    ensures Inv(e, RunFastPath(e, s, level)) && Trust(e, RunFastPath(e, s, level), honest)
    ensures Progress(s, RunFastPath(e, s, level))
  {
    if s.levels[level].Some? {
      var lvl := s.levels[level].value;
      var targets := FastPathTargets(e.pp.cvp[level], s.completedLevels, level, Offset(lvl.lastContacted),
                                     e.conf.fastPathWindow);
      SendAllSound(e, targets, Message(level, OwnContribution(s), lvl.best.contribution, false));
    }
  }

  /** Activating the level above the last active one. */
  lemma ActivateOneOk(e: Env, s: State, level: nat, lvl: ActiveLevel, honest: set<nat>)
    requires Inv(e, s) && Trust(e, s, honest) && 0 < level < |s.levels|
    requires s.levels[level].None? && s.levels[level - 1].Some? && LevelOk(e, level, lvl)
    ensures
      var s1 := s.(levels := s.levels[level := Some(lvl)]);
      Inv(e, s1) && Trust(e, s1, honest) && Progress(s, s1)
  {
    UpdateLevel(e, s.levels, level, lvl);
  }

  lemma {:induction false} ActivateOk(e: Env, s: State, level: nat, honest: set<nat>)
    requires Inv(e, s) && Trust(e, s, honest) && level > 0
    ensures Inv(e, TryActivate(e, s, level)) && Trust(e, TryActivate(e, s, level), honest)
    ensures Progress(s, TryActivate(e, s, level))
    decreases |s.levels| - level
  {
    if level < |s.levels| && s.levels[level].None? && s.levels[level - 1].Some? {
      var best := s.levels[level - 1].value.best;
      assert LevelOk(e, level - 1, s.levels[level - 1].value);
      if e.pp.vp[level] == [] {
        ActivateOneOk(e, s, level, UnitLevel(best), honest);
        var s1 := s.(levels := s.levels[level := Some(UnitLevel(best))]);
        ActivateOk(e, s1, level + 1, honest);
        ProgressTransitive(s, s1, TryActivate(e, s, level));
      } else {
        ActivateOneOk(e, s, level, NewLevel(best, |e.pp.vp[level]|), honest);
      }
    }
  }

  /** Activation touches nothing but levels. */
  lemma {:induction false} ActivateSame(e: Env, s: State, level: nat)
    requires Indexed(e, s) && level > 0
    ensures var s' := TryActivate(e, s, level); s' == s.(levels := s'.levels)
    decreases |s.levels| - level
  {
    if level < |s.levels| && s.levels[level].None? && s.levels[level - 1].Some? && e.pp.vp[level] == [] {
      ActivateSame(e, s.(levels := s.levels[level := Some(UnitLevel(s.levels[level - 1].value.best))]), level + 1);
    }
  }

  lemma RunAggregationOk(e: Env, s: State, level: nat, honest: set<nat>)
    requires Inv(e, s) && Trust(e, s, honest) && level < |s.levels| && AggregationSafe(e, s, level)
    ensures Inv(e, RunAggregation(e, s, level)) && Trust(e, RunAggregation(e, s, level), honest)
    ensures Progress(s, RunAggregation(e, s, level))
  {
    if s.levels[level].Some? && s.pending[level] != map[] {
      AggregateOk(e, s, level, honest);
      var (s1, lvl) := Aggregate(e, s, level, s.levels[level].value);
      if IsComplete(|lvl.best.contribution|, level, e.conf.threshold) {
        var s2 := RunFastPath(e, s1, level);
        FastPathOk(e, s1, level, honest);
        ActivateOk(e, s2, level + 1, honest);
        ProgressTransitive(s, s1, s2);
        ProgressTransitive(s, s2, TryActivate(e, s2, level + 1));
      }
    }
  }

  lemma DisseminateAtOk(e: Env, s: State, l: nat, honest: set<nat>)
    requires Inv(e, s) && Trust(e, s, honest) && 0 < l < |s.levels|
    requires AllContactable(e, s)
    ensures Inv(e, DisseminateAt(e, s, l)) && Trust(e, DisseminateAt(e, s, l), honest)
    ensures Progress(s, DisseminateAt(e, s, l))
  {
    if s.levels[l].Some? {
      var lvl := s.levels[l].value;
      var next := NextContact(DoneAt(e.pp.cvp[l], s.completedLevels, l), lvl.lastContacted);
      if next.Some? {
        UpdateLevel(e, s.levels, l, Contacted(lvl, next.value));
        SendAllSound(e, [e.pp.cvp[l][next.value]], Message(l, OwnContribution(s), lvl.best.contribution, !lvl.completed));
        ProgressAt(s, DisseminateAt(e, s, l), l);
      }
    }
  }

  lemma {:induction false} DisseminateOk(e: Env, s: State, l: nat, honest: set<nat>)
    requires Inv(e, s) && Trust(e, s, honest) && 0 < l <= |s.levels|
    requires AllContactable(e, s)
    ensures Inv(e, DisseminateFrom(e, s, l)) && Trust(e, DisseminateFrom(e, s, l), honest)
    ensures Progress(s, DisseminateFrom(e, s, l))
    decreases |s.levels| - l
  {
    if l < |s.levels| {
      var s1 := DisseminateAt(e, s, l);
      DisseminateAtOk(e, s, l, honest);
      DisseminateOk(e, s1, l + 1, honest);
      ProgressTransitive(s, s1, DisseminateFrom(e, s1, l + 1));
    }
  }

  lemma InvContactable(e: Env, s: State)
    requires Inv(e, s)
    ensures AllContactable(e, s)
  {
  }

  // ----- whole runs -----

  /** At a level without peers nothing is picked and the best stays what it was. */
  lemma EmptyLevelKeepsBest(e: Env, s: State, level: nat)
    requires Inv(e, s) && level < |s.levels| && s.levels[level].Some? && e.pp.cvp[level] == []
    ensures Aggregate(e, s, level, s.levels[level].value).1.best == s.levels[level].value.best
  {
    assert |e.pp.vp[level]| == |e.pp.cvp[level]|;
    assert LevelOk(e, level, s.levels[level].value);
  }

  /** A delivery goes through exactly when what is known beforehand says so. */
  lemma DeliverableIff(e: Env, s: State, from: PeerId, m: Message)
    requires Inv(e, s)
    ensures InjectSafe(e, s, from, m) <==> Deliverable(e, s, from, m)
  {
    if from in e.pp.peers && m.level < |s.levels| {
      HandleOk(e, s, from, m, {});
      var (s1, kept) := HandleContribution(e, s, from, m);
      if kept && s1.levels[m.level].Some? && e.pp.cvp[m.level] == [] {
        assert Position(e.pp.peers, from).value in s1.pending[m.level];
        EmptyLevelKeepsBest(e, s1, m.level);
      }
    }
  }

  /** `inject_message`. */
  function Inject(e: Env, s: State, from: PeerId, m: Message): State
    requires Inv(e, s) && Deliverable(e, s, from, m)
  {
    DeliverableIff(e, s, from, m);
    var (s1, kept) := HandleContribution(e, s, from, m);
    if kept then RunAggregation(e, s1, m.level) else s1
  }

  /** The timers of `poll`: dissemination first, then activation. */
  function Tick(e: Env, s: State, disseminate: bool, activate: bool): State
    requires Inv(e, s)
  {
    InvContactable(e, s);
    var s1 := if disseminate then DisseminateFrom(e, s, 1) else s;
    DisseminateOk(e, s, 1, {});
    if activate then ActivateNext(e, s1) else s1
  }

  lemma TickOk(e: Env, s: State, disseminate: bool, activate: bool, honest: set<nat>)
    requires Inv(e, s) && Trust(e, s, honest)
    ensures Inv(e, Tick(e, s, disseminate, activate)) && Trust(e, Tick(e, s, disseminate, activate), honest)
    ensures Progress(s, Tick(e, s, disseminate, activate))
  {
    InvContactable(e, s);
    DisseminateOk(e, s, 1, honest);
    var s1 := if disseminate then DisseminateFrom(e, s, 1) else s;
    var next := NextNonActive(s1.levels);
    if activate && next.Some? {
      ActivateOk(e, s1, next.value, honest);
      ProgressTransitive(s, s1, TryActivate(e, s1, next.value));
    }
  }

  lemma InjectOk(e: Env, s: State, from: PeerId, m: Message, honest: set<nat>)
    requires Inv(e, s) && Trust(e, s, honest) && Deliverable(e, s, from, m)
    requires var ix := Position(e.pp.peers, from); ix.Some? && ix.value in honest ==> Sound(e, m)
    ensures Inv(e, Inject(e, s, from, m)) && Trust(e, Inject(e, s, from, m), honest)
    ensures Progress(s, Inject(e, s, from, m))
  {
    HandleOk(e, s, from, m, honest);
    DeliverableIff(e, s, from, m);
    var (s1, kept) := HandleContribution(e, s, from, m);
    if kept {
      RunAggregationOk(e, s1, m.level, honest);
      ProgressTransitive(s, s1, RunAggregation(e, s1, m.level));
    }
  }

  lemma PopOk(e: Env, s: State, honest: set<nat>)
    requires Inv(e, s) && Trust(e, s, honest)
    ensures Inv(e, PopOutbox(s).0) && Trust(e, PopOutbox(s).0, honest) && Progress(s, PopOutbox(s).0)
  {
  }

  function Step(e: Env, s: State, ev: Event): State
    requires Inv(e, s) && Enabled(e, s, ev)
  {
    match ev
    case Deliver(from, m) => Inject(e, s, from, m)
    case Poll(disseminate, activate, ready) =>
      var s1 := Tick(e, s, disseminate, activate);
      TickOk(e, s, disseminate, activate, {});
      if ready then PopOutbox(s1).0 else s1
  }

  /** Every message an honest peer sends verifies. */
  ghost predicate HonestEvent(e: Env, honest: set<nat>, ev: Event) {
    ev.Deliver? ==>
      var ix := Position(e.pp.peers, ev.from);
      ix.Some? && ix.value in honest ==> Sound(e, ev.message)
  }

  lemma StepOk(e: Env, s: State, ev: Event, honest: set<nat>)
    requires Inv(e, s) && Trust(e, s, honest) && Enabled(e, s, ev) && HonestEvent(e, honest, ev)
    ensures Inv(e, Step(e, s, ev)) && Trust(e, Step(e, s, ev), honest) && Progress(s, Step(e, s, ev))
  {
    match ev
    case Deliver(from, m) =>
      InjectOk(e, s, from, m, honest);
    case Poll(disseminate, activate, ready) =>
      var s1 := Tick(e, s, disseminate, activate);
      TickOk(e, s, disseminate, activate, honest);
      if ready {
        PopOk(e, s1, honest);
        ProgressTransitive(s, s1, PopOutbox(s1).0);
      }
  }

  /** Every event is enabled when its turn comes. */
  ghost predicate AllEnabled(e: Env, s: State, events: seq<Event>)
    requires Inv(e, s)
    decreases |events|
  {
    events == [] || (Enabled(e, s, events[0]) && (StepOk(e, s, events[0], {}); AllEnabled(e, Step(e, s, events[0]), events[1..])))
  }

  ghost predicate AllHonest(e: Env, honest: set<nat>, events: seq<Event>) {
    forall i :: 0 <= i < |events| ==> HonestEvent(e, honest, events[i])
  }

  /** The state after a sequence of events. */
  ghost function Run(e: Env, s: State, events: seq<Event>): (r: State)
    requires Inv(e, s) && AllEnabled(e, s, events)
    ensures Inv(e, r)
    decreases |events|
  {
    if events == [] then s
    else
      StepOk(e, s, events[0], {});
      Run(e, Step(e, s, events[0]), events[1..])
  }

  lemma RunCons(e: Env, s: State, ev: Event, rest: seq<Event>)
    requires Inv(e, s) && Enabled(e, s, ev) && Inv(e, Step(e, s, ev)) && AllEnabled(e, Step(e, s, ev), rest)
    ensures AllEnabled(e, s, [ev] + rest) && Run(e, s, [ev] + rest) == Run(e, Step(e, s, ev), rest)
  {
    assert ([ev] + rest)[1..] == rest;
  }

  /** Over any run: the invariant holds, nothing achieved is lost, and no peer all of whose
      messages verify is ever banned. */
  lemma {:induction false} RunOk(e: Env, s: State, events: seq<Event>, honest: set<nat>)
    requires Inv(e, s) && Trust(e, s, honest) && AllEnabled(e, s, events) && AllHonest(e, honest, events)
    ensures Inv(e, Run(e, s, events)) && Trust(e, Run(e, s, events), honest) && Progress(s, Run(e, s, events))
    decreases |events|
  {
    if events != [] {
      var s1 := Step(e, s, events[0]);
      StepOk(e, s, events[0], honest);
      RunOk(e, s1, events[1..], honest);
      ProgressTransitive(s, s1, Run(e, s1, events[1..]));
    }
  }

  // ----- the round's result -----

  /** The binomial partitions of two or more peers are what the node relies on. */
  lemma PartitionedFits(e: Env, members: set<PeerId>, k: nat)
    requires Partitioned(e.pp, members, e.own, k) && k > 0
    requires e.conf.threshold.denom > 0 && e.conf.shrinkFactor > 0 && 0 < e.conf.initialWindow <= USIZE_MAX
    ensures Fits(e)
  {
    var pp := e.pp;
    forall l: nat | l < |pp.vp| ensures |pp.vp[l]| == |pp.cvp[l]| {
      assert HoldsLevel(pp.vp[l], members, pp.peers, e.own, l);
      assert HoldsLevel(pp.cvp[l], members, pp.peers, e.own, l);
      assert Elements(pp.vp[l]) == Elements(pp.cvp[l]);
      DistinctSize(pp.vp[l]);
      DistinctSize(pp.cvp[l]);
    }
    forall l: nat, j: nat | l < |pp.cvp| && j in pp.cvp[l] ensures j < |pp.peers| && j != e.own {
      assert HoldsLevel(pp.cvp[l], members, pp.peers, e.own, l);
    }
    LevelZeroEmpty(pp.cvp[0], members, pp.peers, e.own);
    LevelOneSingle(pp.cvp[1], members, pp.peers, e.own);
  }

  lemma LevelMember(level: seq<nat>, members: set<PeerId>, peers: seq<PeerId>, host: nat, l: nat, i: nat)
    requires HoldsLevel(level, members, peers, host, l) && i < |level|
    ensures AtLevel(host, level[i], l)
  {
    assert level[i] in level;
  }

  lemma LevelZeroEmpty(level: seq<nat>, members: set<PeerId>, peers: seq<PeerId>, host: nat)
    requires HoldsLevel(level, members, peers, host, 0)
    ensures level == []
  {
    if |level| > 0 { LevelMember(level, members, peers, host, 0, 0); }
  }

  lemma LevelOneUnique(i: nat, a: nat, b: nat)
    requires AtLevel(i, a, 1) && AtLevel(i, b, 1)
    ensures a == b
  {
    assert Block(i, 1) == Block(i, 0) / 2 && Block(a, 1) == Block(a, 0) / 2 && Block(b, 1) == Block(b, 0) / 2;
  }

  lemma LevelOneSingle(level: seq<nat>, members: set<PeerId>, peers: seq<PeerId>, host: nat)
    requires HoldsLevel(level, members, peers, host, 1)
    ensures |level| <= 1
  {
    if |level| > 1 {
      LevelMember(level, members, peers, host, 1, 0);
      LevelMember(level, members, peers, host, 1, 1);
      LevelOneUnique(host, level[0], level[1]);
    }
  }

  /** A complete aggregate verifies and reaches the threshold over all peer slots. */
  lemma AggregateReachesThreshold(e: Env, s: State)
    requires Inv(e, s) && e.pp.cvp[|e.pp.cvp| - 1] != []
    ensures CompleteAggregate(s).Some? ==>
              && Verifies(e.valid, CompleteAggregate(s).value)
              && |CompleteAggregate(s).value| >= e.conf.threshold.Min(Pow2(|s.levels| - 1))
  {
  }

  /** A node can start: its environment fits and its own contribution is one that verifies. */
  ghost predicate Starts(e: Env, own: Contrib) {
    Fits(e) && Verifies(e.valid, own) && |own| == 1
  }

  /** Events a node can see from the start of the round on. */
  ghost predicate CanSee(e: Env, own: Contrib, events: seq<Event>)
    requires Starts(e, own)
  {
    InitialOk(e, own, {});
    AllEnabled(e, Initial(e, own), events)
  }

  /** The state of a node after a sequence of events since the start of the round. */
  ghost function After(e: Env, own: Contrib, events: seq<Event>): (s: State)
    requires Starts(e, own) && CanSee(e, own, events)
    ensures Inv(e, s)
  {
    InitialOk(e, own, {});
    Run(e, Initial(e, own), events)
  }

  /** In every run over the binomial partitions of two or more peers, whatever order the events
      come in and whatever the peers send short of a message that stops the node (`Deliverable`), an
      aggregate handed out verifies and holds at least the threshold of the normalised peer count, and
      no peer whose messages all verify is banned. */
  lemma RoundTheorem(e: Env, members: set<PeerId>, k: nat, own: Contrib, events: seq<Event>, honest: set<nat>)
    requires Partitioned(e.pp, members, e.own, k) && k > 0 && e.pp.vp[k] != []
    requires Starts(e, own) && CanSee(e, own, events) && AllHonest(e, honest, events)
    ensures
      var s := After(e, own, events);
      && s.banned !! honest
      && (CompleteAggregate(s).Some? ==>
            && Verifies(e.valid, CompleteAggregate(s).value)
            && |CompleteAggregate(s).value| >= e.conf.threshold.Min(|e.pp.peers|))
  {
    InitialOk(e, own, honest);
    RunOk(e, Initial(e, own), events, honest);
    AggregateReachesThreshold(e, After(e, own, events));
  }

  // ----- honest nodes among each other -----

  ghost predicate WaitsToBeSent(e: Env, own: Contrib, events: seq<Event>, i: nat, m: Message)
    requires Starts(e, own) && CanSee(e, own, events)
  {
    var outbox := After(e, own, events).outbox;
    i < |outbox| && outbox[i].message == m
  }

  /** `m` was waiting to be sent at some point of a run of the node of `e`. */
  ghost predicate SentInRun(e: Env, own: Contrib, m: Message)
    requires Starts(e, own)
  {
    exists events: seq<Event>, i: nat :: CanSee(e, own, events) && WaitsToBeSent(e, own, events, i, m)
  }

  /** A node that follows the protocol is never banned by another one that does, as long as the
      two verify against the same public data. */
  lemma HonestNodesNotBanned(e: Env, own: Contrib, sender: Env, senderOwn: Contrib, senderIx: nat, events: seq<Event>)
    requires Starts(e, own) && CanSee(e, own, events)
    requires Starts(sender, senderOwn) && sender.valid == e.valid
    requires forall i :: 0 <= i < |events| && events[i].Deliver? && Position(e.pp.peers, events[i].from) == Some(senderIx)
               ==> SentInRun(sender, senderOwn, events[i].message)
    ensures senderIx !in After(e, own, events).banned
  {
    forall i | 0 <= i < |events| ensures HonestEvent(e, {senderIx}, events[i]) {
      var ev := events[i];
      if ev.Deliver? && Position(e.pp.peers, ev.from) == Some(senderIx) {
        var evs: seq<Event>, j: nat :| CanSee(sender, senderOwn, evs) && WaitsToBeSent(sender, senderOwn, evs, j, ev.message);
        assert Sound(sender, After(sender, senderOwn, evs).outbox[j].message);
      }
    }
    InitialOk(e, own, {senderIx});
    RunOk(e, Initial(e, own), events, {senderIx});
  }

  // ----- equal scores collapse -----

  lemma {:induction false} ScoreAllKeeps(e: Env, best: Contrib, st: Scoring, picked: seq<Pending>, c: Candidate)
    requires e.conf.shrinkFactor > 0 && c in st.candidates
    ensures c in ScoreAll(e, best, st, picked).candidates
    decreases |picked|
  {
    if picked != [] {
      var p := picked[|picked| - 1];
      var st1 := ScoreOne(e, best, st, p);
      InsertCandidateSources(st.candidates, CandidateOf(best, st1.individual, p));
      ScoreAllKeeps(e, best, st1, picked[..|picked| - 1], c);
    }
  }

  ghost predicate AllVerify(e: Env, st: Scoring) {
    && (forall c :: c in st.individual ==> Verifies(e.valid, c))
    && (forall c :: c in st.candidates ==> Verifies(e.valid, c.contribution))
  }

  lemma ScoreOneVerifies(e: Env, best: Contrib, st: Scoring, p: Pending)
    requires e.conf.shrinkFactor > 0 && Verifies(e.valid, best) && PendingSound(e, p) && AllVerify(e, st)
    ensures AllVerify(e, ScoreOne(e, best, st, p))
    ensures Compatible(best, p.aggregate) ==>
      exists c :: c in ScoreOne(e, best, st, p).candidates && c.score == |best + p.aggregate|
  {
    var st1 := ScoreOne(e, best, st, p);
    var c := CandidateOf(best, st1.individual, p);
    CandidateVerifies(e, best, st1.individual, p);
    InsertCandidateSources(st.candidates, c);
  }

  lemma {:induction false} ScoreAllVerifies(e: Env, best: Contrib, st: Scoring, picked: seq<Pending>)
    requires e.conf.shrinkFactor > 0 && Verifies(e.valid, best) && AllVerify(e, st)
    requires forall p :: p in picked ==> PendingSound(e, p)
    ensures AllVerify(e, ScoreAll(e, best, st, picked))
    decreases |picked|
  {
    if picked != [] {
      ScoreOneVerifies(e, best, st, picked[|picked| - 1]);
      ScoreAllVerifies(e, best, ScoreOne(e, best, st, picked[|picked| - 1]), picked[..|picked| - 1]);
    }
  }

  /** A sound compatible pick leaves a candidate of its combined weight. */
  lemma {:induction false} ScoreAllCovers(e: Env, best: Contrib, st: Scoring, picked: seq<Pending>, p: Pending)
    requires e.conf.shrinkFactor > 0 && Verifies(e.valid, best) && AllVerify(e, st)
    requires forall q :: q in picked ==> PendingSound(e, q)
    requires p in picked && Compatible(best, p.aggregate)
    ensures exists c :: c in ScoreAll(e, best, st, picked).candidates && c.score == |best + p.aggregate|
    decreases |picked|
  {
    var last, rest := picked[|picked| - 1], picked[..|picked| - 1];
    var st1 := ScoreOne(e, best, st, last);
    ScoreOneVerifies(e, best, st, last);
    if last == p {
      var c :| c in st1.candidates && c.score == |best + p.aggregate|;
      ScoreAllKeeps(e, best, st1, rest, c);
    } else {
      assert picked == rest + [last];
      ScoreAllCovers(e, best, st1, rest, p);
    }
  }

  /** When everything picked verifies, the level's best ends up at least as heavy as the best
      combined with any one contribution picked. */
  lemma SoundPicksCount(e: Env, lvl: ActiveLevel, banned: set<nat>, window: nat, picked: seq<Pending>, p: Pending)
    requires e.conf.shrinkFactor > 0 && Verifies(e.valid, lvl.best.contribution)
    requires forall c :: c in lvl.individual ==> Verifies(e.valid, c)
    requires forall q :: q in picked ==> PendingSound(e, q)
    requires p in picked && Compatible(lvl.best.contribution, p.aggregate)
    ensures
      var st := ScoreAll(e, lvl.best.contribution, Scoring(lvl.individual, [], banned, window), picked);
      JudgeAll(e, Verdict(lvl.best, st.banned, st.window), st.candidates).best.score
        >= |lvl.best.contribution + p.aggregate|
  {
    var st0 := Scoring(lvl.individual, [], banned, window);
    var st := ScoreAll(e, lvl.best.contribution, st0, picked);
    ScoreAllVerifies(e, lvl.best.contribution, st0, picked);
    ScoreAllCovers(e, lvl.best.contribution, st0, picked, p);
    JudgeAllBest(e, Verdict(lvl.best, st.banned, st.window), st.candidates);
  }
}
