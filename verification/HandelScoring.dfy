/** Which of the picked contributions can become a level's best, given that equal scores collapse. */
module HandelScoring {
  import opened Prelude
  import opened Sorting
  import opened Partitioning
  import opened Contributions
  import opened HandelSpec
  import opened HandelSafety

  /** The candidates the picks generate, in processing order: last pick first. */
  function Generated(e: Env, best: Contrib, individual: seq<Contrib>, picked: seq<Pending>): seq<Candidate>
    decreases |picked|
  {
    if picked == [] then []
    else
      var p, rest := picked[|picked| - 1], picked[..|picked| - 1];
      if p.individual.Some? && !Verifies(e.valid, p.individual.value) then Generated(e, best, individual, rest)
      else
        var known := if p.individual.Some? then individual + [p.individual.value] else individual;
        [CandidateOf(best, known, p)] + Generated(e, best, known, rest)
  }

  function InsertAll(cs: seq<Candidate>, generated: seq<Candidate>): seq<Candidate>
    decreases |generated|
  {
    if generated == [] then cs else InsertAll(InsertCandidate(cs, generated[0]), generated[1..])
  }

  /** Scoring inserts exactly the generated candidates, one by one. */
  lemma {:induction false} ScoreAllInserts(e: Env, best: Contrib, st: Scoring, picked: seq<Pending>)
    requires e.conf.shrinkFactor > 0
    ensures ScoreAll(e, best, st, picked).candidates == InsertAll(st.candidates, Generated(e, best, st.individual, picked))
    decreases |picked|
  {
    if picked != [] {
      var p, rest := picked[|picked| - 1], picked[..|picked| - 1];
      var st1 := ScoreOne(e, best, st, p);
      ScoreAllInserts(e, best, st1, rest);
      if p.individual.None? || Verifies(e.valid, p.individual.value) {
        var later := Generated(e, best, st1.individual, rest);
        var all := [CandidateOf(best, st1.individual, p)] + later;
        assert Generated(e, best, st.individual, picked) == all;
        assert all[1..] == later;
      }
    }
  }

  predicate Ascending(cs: seq<Candidate>) {
    forall i, j :: 0 <= i < j < |cs| ==> cs[i].score < cs[j].score
  }

  predicate HasScore(cs: seq<Candidate>, score: nat) {
    exists c :: c in cs && c.score == score
  }

  lemma AscendingTail(cs: seq<Candidate>)
    requires Ascending(cs) && cs != []
    ensures Ascending(cs[1..])
    ensures forall c :: c in cs[1..] ==> cs[0].score < c.score
  {
    forall c | c in cs[1..] ensures cs[0].score < c.score {
      var i :| 0 <= i < |cs[1..]| && cs[1..][i] == c;
      assert cs[i + 1] == c;
    }
  }

  /** A candidate is added exactly when its score is new. */
  lemma {:induction false} InsertAddsNew(cs: seq<Candidate>, c: Candidate)
    requires Ascending(cs)
    ensures Ascending(InsertCandidate(cs, c))
    ensures forall x :: x in InsertCandidate(cs, c) <==> x in cs || (x == c && !HasScore(cs, c.score))
  {
    if cs != [] {
      AscendingTail(cs);
      assert cs == [cs[0]] + cs[1..];
      if c.score > cs[0].score {
        InsertAddsNew(cs[1..], c);
        assert HasScore(cs, c.score) <==> HasScore(cs[1..], c.score);
      } else if c.score == cs[0].score {
        assert HasScore(cs, c.score);
      }
    }
  }

  /** No earlier candidate has the same score. */
  predicate FirstOfScore(generated: seq<Candidate>, i: nat)
    requires i < |generated|
  {
    forall j :: 0 <= j < i ==> generated[j].score != generated[i].score
  }

  predicate FirstAt(generated: seq<Candidate>, i: int, x: Candidate) {
    0 <= i < |generated| && generated[i] == x && FirstOfScore(generated, i)
  }

  lemma FirstAtShift(generated: seq<Candidate>, x: Candidate)
    requires generated != []
    ensures (exists i :: FirstAt(generated, i, x)) <==>
      x == generated[0] || (x.score != generated[0].score && exists i :: FirstAt(generated[1..], i, x))
  {
    var rest := generated[1..];
    if i :| FirstAt(generated, i, x) {
      if i > 0 {
        assert rest[i - 1] == x && generated[0].score != x.score;
        forall j | 0 <= j < i - 1 ensures rest[j].score != rest[i - 1].score {
          assert rest[j] == generated[j + 1];
        }
        assert FirstAt(rest, i - 1, x);
      }
    }
    if x == generated[0] {
      assert FirstAt(generated, 0, x);
    } else if x.score != generated[0].score {
      if i :| FirstAt(rest, i, x) {
        forall j | 0 <= j < i + 1 ensures generated[j].score != generated[i + 1].score {
          if j > 0 {
            assert generated[j] == rest[j - 1];
          }
        }
        assert FirstAt(generated, i + 1, x);
      }
    }
  }

  /** What survives is what was there, and the first generated candidate of every other score. */
  lemma {:induction false} InsertAllFirst(cs: seq<Candidate>, generated: seq<Candidate>, x: Candidate)
    requires Ascending(cs)
    ensures Ascending(InsertAll(cs, generated))
    ensures x in InsertAll(cs, generated) <==>
      x in cs || (!HasScore(cs, x.score) && exists i :: FirstAt(generated, i, x))
    decreases |generated|
  {
    if generated != [] {
      var c := generated[0];
      var next := InsertCandidate(cs, c);
      InsertAddsNew(cs, c);
      InsertAllFirst(next, generated[1..], x);
      FirstAtShift(generated, x);
      ScoresAfter(cs, c, x.score);
    }
  }

  lemma ScoresAfter(cs: seq<Candidate>, c: Candidate, score: nat)
    requires Ascending(cs)
    ensures HasScore(InsertCandidate(cs, c), score) <==> HasScore(cs, score) || c.score == score
  {
    InsertAddsNew(cs, c);
    if HasScore(cs, score) {
      var y :| y in cs && y.score == score;
      assert y in InsertCandidate(cs, c);
    } else if c.score == score {
      assert c in InsertCandidate(cs, c);
    }
  }

  /** The level's best after judging the picks. */
  function BestAfter(e: Env, lvl: ActiveLevel, banned: set<nat>, window: nat, picked: seq<Pending>): Scored
    requires e.conf.shrinkFactor > 0
  {
    var st := ScoreAll(e, lvl.best.contribution, Scoring(lvl.individual, [], banned, window), picked);
    JudgeAll(e, Verdict(lvl.best, st.banned, st.window), st.candidates).best
  }

  /** A candidate that is judged, verifies and reaches the score. */
  ghost predicate Lifts(e: Env, generated: seq<Candidate>, i: int, score: nat) {
    && 0 <= i < |generated| && FirstOfScore(generated, i)
    && Verifies(e.valid, generated[i].contribution) && generated[i].score >= score
  }

  /** For any picks, sound or not: exactly when the level's best reaches a score. */
  lemma BestReachesIff(e: Env, lvl: ActiveLevel, banned: set<nat>, window: nat, picked: seq<Pending>, score: nat)
    requires e.conf.shrinkFactor > 0
    ensures
      var generated := Generated(e, lvl.best.contribution, lvl.individual, picked);
      BestAfter(e, lvl, banned, window, picked).score >= score <==>
      lvl.best.score >= score || exists i :: Lifts(e, generated, i, score)
  {
    var st0 := Scoring(lvl.individual, [], banned, window);
    var st := ScoreAll(e, lvl.best.contribution, st0, picked);
    var generated := Generated(e, lvl.best.contribution, lvl.individual, picked);
    var r := BestAfter(e, lvl, banned, window, picked);
    ScoreAllInserts(e, lvl.best.contribution, st0, picked);
    JudgeAllBest(e, Verdict(lvl.best, st.banned, st.window), st.candidates);
    if r.score >= score && r != lvl.best {
      var c :| c in st.candidates && Verifies(e.valid, c.contribution) && r == Scored(c.score, c.contribution);
      InsertAllFirst([], generated, c);
      var i :| FirstAt(generated, i, c);
      assert Lifts(e, generated, i, score);
    }
    if i :| Lifts(e, generated, i, score) {
      assert FirstAt(generated, i, generated[i]);
      InsertAllFirst([], generated, generated[i]);
    }
  }

  // ----- a sound pick displaced -----

  /** Two picks that score the same, their individual parts verifying if there are any. */
  ghost predicate Ties(e: Env, best: Contrib, a: Pending, b: Pending) {
    && PartSound(e, a) && PartSound(e, b)
    && Compatible(best, a.aggregate) && Compatible(best, b.aggregate)
    && |best + a.aggregate| == |best + b.aggregate|
  }

  predicate PartSound(e: Env, p: Pending) {
    p.individual.Some? ==> Verifies(e.valid, p.individual.value)
  }

  function PartsOf(p: Pending): seq<Contrib> {
    if p.individual.Some? then [p.individual.value] else []
  }

  lemma TieScores(e: Env, best: Contrib, st: Scoring, sound: Pending, broken: Pending)
    requires e.conf.shrinkFactor > 0 && Ties(e, best, sound, broken) && st.candidates == []
    ensures ScoreAll(e, best, st, [sound, broken]) ==
            st.(candidates := [Candidate(|best + broken.aggregate|, broken.sender, best + broken.aggregate)],
                individual := st.individual + PartsOf(broken) + PartsOf(sound))
  {
    var c := Candidate(|best + broken.aggregate|, broken.sender, best + broken.aggregate);
    var st1 := ScoreOne(e, best, st, broken);
    assert st1 == st.(candidates := [c], individual := st.individual + PartsOf(broken));
    var st2 := ScoreOne(e, best, st1, sound);
    assert st2 == st1.(individual := st1.individual + PartsOf(sound));
    assert [sound, broken][..1] == [sound] && [sound][..0] == [];
    assert ScoreAll(e, best, st, [sound, broken]) == ScoreAll(e, best, st1, [sound]);
    assert ScoreAll(e, best, st1, [sound]) == ScoreAll(e, best, st2, []);
  }

  /** In any state: when a sound contribution and a broken one of the same score wait, the sound one first in
      priority, and the window takes both, the aggregation uses up both and the best stays what it was; of the
      sound one only the individual part is kept. */
  lemma CollapseLosesSoundPick(e: Env, s: State, level: nat, sound: Pending, broken: Pending)
    requires Inv(e, s) && level < |s.levels| && s.levels[level].Some? && s.window >= 2 && Distinct(e.pp.vp[level])
    requires WaitingOf(e.pp.vp[level], s.pending[level]) == [sound, broken]
    requires Ties(e, s.levels[level].value.best.contribution, sound, broken)
    requires PendingSound(e, sound) && !Verifies(e.valid, broken.aggregate)
    ensures
      var (s', lvl) := Aggregate(e, s, level, s.levels[level].value);
      && lvl.best == s.levels[level].value.best && broken.sender in s'.banned
      && lvl.individual == s.levels[level].value.individual + PartsOf(broken) + PartsOf(sound)
  {
    assert LevelOk(e, level, s.levels[level].value);
    CollapseCore(e, s, level, s.levels[level].value, sound, broken);
  }

  lemma CollapseCore(e: Env, s: State, level: nat, lvl: ActiveLevel, sound: Pending, broken: Pending)
    requires level < |s.levels| == |s.pending| == |e.pp.vp| && e.conf.shrinkFactor > 0 && e.conf.threshold.denom > 0
    requires lvl.prioritized == [] && s.window >= 2 && Distinct(e.pp.vp[level])
    requires WaitingOf(e.pp.vp[level], s.pending[level]) == [sound, broken]
    requires Ties(e, lvl.best.contribution, sound, broken) && !Verifies(e.valid, broken.aggregate)
    ensures
      var (s', lvl') := Aggregate(e, s, level, lvl);
      && lvl'.best == lvl.best && broken.sender in s'.banned
      && lvl'.individual == lvl.individual + PartsOf(broken) + PartsOf(sound)
  {
    var best := lvl.best.contribution;
    var st := Scoring(lvl.individual, [], s.banned, s.window);
    PrioritizeTakesFirst(e.pp.vp[level], s.pending[level], [], s.window);
    assert Prioritize(e.pp.vp[level], s.pending[level], [], s.window).0 == [sound, broken];
    TieScores(e, best, st, sound, broken);
    CombineVerifies(e.valid, best, broken.aggregate);
    var c := Candidate(|best + broken.aggregate|, broken.sender, best + broken.aggregate);
    JudgeBroken(e, Verdict(lvl.best, s.banned, s.window), c);
  }

  lemma JudgeBroken(e: Env, v: Verdict, c: Candidate)
    requires e.conf.shrinkFactor > 0 && !Verifies(e.valid, c.contribution)
    ensures JudgeAll(e, v, [c]).best == v.best && c.sender in JudgeAll(e, v, [c]).banned
  {
    assert [c][1..] == [];
    assert JudgeAll(e, v, [c]) == JudgeAll(e, JudgeOne(e, v, c), []);
  }

  /** Delivering to a level that is not active yet only stores the contribution. */
  lemma DeliverInactive(e: Env, s: State, from: PeerId, m: Message)
    requires Inv(e, s) && from in e.pp.peers && m.level < |s.levels| && s.levels[m.level].None?
    ensures Deliverable(e, s, from, m) && Inject(e, s, from, m) == HandleContribution(e, s, from, m).0
  {
    DeliverableIff(e, s, from, m);
    assert Deliverable(e, s, from, m);
  }

  /** A node of four peers whose second level lists `p` before `q`. */
  ghost predicate TwoAtTop(e: Env, p: nat, q: nat) {
    && Fits(e) && |e.pp.vp| == 3 && e.pp.vp[2] == [p, q] && p != q && p < |e.pp.peers| && q < |e.pp.peers|
    && Distinct(e.pp.peers) && e.conf.initialWindow >= 2 && e.conf.threshold.Min(Pow2(2)) > 1
  }

  /** The message of a node that knows its own contribution only, with the individual part such a node always
      sends, or without it. */
  function Alone(ix: nat, v: Value, whole: bool): Message {
    Message(2, if whole then Some(map[ix := v]) else None, map[ix := v], true)
  }

  /** Both peers send before the level is active, the timer activates it, and the honest one sends again. */
  function CollapsingEvents(e: Env, p: nat, q: nat, good: Value, bad: Value): seq<Event>
    requires p < |e.pp.peers| && q < |e.pp.peers|
  {
    var again := Deliver(e.pp.peers[p], Alone(p, good, true));
    [again, Deliver(e.pp.peers[q], Alone(q, bad, false)), Poll(false, true, false), again]
  }

  function Lone(ix: nat, v: Value, whole: bool): Pending {
    Pending(ix, map[ix := v], if whole then Some(map[ix := v]) else None)
  }

  /** The state with one more contribution waiting at level 2. */
  function Storing(e: Env, s: State, ix: nat, v: Value, whole: bool): State
    requires |s.pending| == 3
  {
    var waiting: map<nat, Pending> := s.pending[2][ix := Lone(ix, v, whole)];
    s.(pending := s.pending[2 := waiting])
  }

  lemma DeliverStores(e: Env, s: State, ix: nat, v: Value, whole: bool)
    requires Inv(e, s) && |s.levels| == 3 && s.levels[2].None? && ix < |e.pp.peers| && Distinct(e.pp.peers) && ix !in s.banned
    ensures
      var ev := Deliver(e.pp.peers[ix], Alone(ix, v, whole));
      Enabled(e, s, ev) && Step(e, s, ev) == Storing(e, s, ix, v, whole)
  {
    assert e.pp.peers[ix] in e.pp.peers;
    DeliverInactive(e, s, e.pp.peers[ix], Alone(ix, v, whole));
    assert Position(e.pp.peers, e.pp.peers[ix]) == Some(ix);
  }

  /** The timer activates level 2 from the best of level 1. */
  lemma TimerActivates(e: Env, s: State)
    requires Inv(e, s) && |s.levels| == 3 && s.levels[2].None? && e.pp.vp[2] != []
    ensures
      var ev := Poll(false, true, false);
      && Enabled(e, s, ev)
      && Step(e, s, ev) == s.(levels := s.levels[2 := Some(NewLevel(s.levels[1].value.best, |e.pp.vp[2]|))])
  {
    assert NextNonActive(s.levels) == Some(2);
  }

  /** With both contributions waiting, one more delivery from `p` aggregates them and the best stays. */
  lemma RedeliveryCollapses(e: Env, s: State, p: nat, q: nat, good: Value, bad: Value)
    requires TwoAtTop(e, p, q) && Inv(e, s) && |s.levels| == 3 && s.window >= 2 && p !in s.banned
    requires s.levels[2].Some? && !s.levels[2].value.completed && s.pending[2] == map[p := Lone(p, good, true), q := Lone(q, bad, false)]
    requires var best := s.levels[2].value.best.contribution; |best| == 1 && p !in best && q !in best
    requires e.valid(p, good) && !e.valid(q, bad)
    ensures
      var ev := Deliver(e.pp.peers[p], Alone(p, good, true));
      && Enabled(e, s, ev)
      && var s' := Step(e, s, ev);
         s'.levels[2].Some? && s'.levels[2].value.best == s.levels[2].value.best && q in s'.banned
  {
    var from, m := e.pp.peers[p], Alone(p, good, true);
    RestoresSame(e, s, p, q, good, bad);
    assert e.pp.cvp[2] != [] by { assert |e.pp.vp[2]| == |e.pp.cvp[2]|; }
    DeliverableIff(e, s, from, m);
    TwoWait(s.pending[2], p, q, good, bad);
    assert LevelOk(e, 2, s.levels[2].value);
    LoneTie(e, s.levels[2].value.best.contribution, p, q, good, bad);
    CollapseCore(e, s, 2, s.levels[2].value, Lone(p, good, true), Lone(q, bad, false));
  }

  /** Storing what already waits changes nothing. */
  lemma RestoresSame(e: Env, s: State, p: nat, q: nat, good: Value, bad: Value)
    requires Indexed(e, s) && |s.levels| == 3 && p < |e.pp.peers| && Distinct(e.pp.peers) && p !in s.banned
    requires !LevelCompleted(s.levels[2]) && p != q && s.pending[2] == map[p := Lone(p, good, true), q := Lone(q, bad, false)]
    ensures e.pp.peers[p] in e.pp.peers && Position(e.pp.peers, e.pp.peers[p]) == Some(p)
    ensures HandleContribution(e, s, e.pp.peers[p], Alone(p, good, true)) == (s, true)
  {
    assert e.pp.peers[p] in e.pp.peers;
    var waiting: map<nat, Pending> := s.pending[2][p := Lone(p, good, true)];
    assert waiting == s.pending[2];
    assert s.pending[2 := waiting] == s.pending;
  }

  lemma TwoWait(pending: map<nat, Pending>, p: nat, q: nat, good: Value, bad: Value)
    requires p != q && pending == map[p := Lone(p, good, true), q := Lone(q, bad, false)]
    ensures WaitingOf([p, q], pending) == [Lone(p, good, true), Lone(q, bad, false)]
  {
    assert [p, q][1..] == [q] && [q][1..] == [];
    assert WaitingOf([q], pending) == [Lone(q, bad, false)];
  }

  lemma LoneTie(e: Env, best: Contrib, p: nat, q: nat, good: Value, bad: Value)
    requires p !in best && q !in best && e.valid(p, good) && !e.valid(q, bad)
    ensures Ties(e, best, Lone(p, good, true), Lone(q, bad, false)) && !Verifies(e.valid, Lone(q, bad, false).aggregate)
  {
    AddsOne(best, p, good);
    AddsOne(best, q, bad);
    assert q in Lone(q, bad, false).aggregate;
  }

  lemma AddsOne(best: Contrib, p: nat, v: Value)
    requires p !in best
    ensures var c: Contrib := map[p := v]; Compatible(best, c) && |best + c| == |best| + 1
  {
    var c: Contrib := map[p := v];
    assert best + c == best[p := v];
  }

  /** One contribution of each peer waits and level 2 has just been activated. */
  function BothWaiting(e: Env, own: Contrib, p: nat, q: nat, good: Value, bad: Value): State
    requires |e.pp.vp| == 3
  {
    var s := Storing(e, Storing(e, Initial(e, own), p, good, true), q, bad, false);
    s.(levels := s.levels[2 := Some(NewLevel(Scored(1, own), 2))])
  }

  lemma ReachesBothWaiting(e: Env, own: Contrib, p: nat, q: nat, good: Value, bad: Value)
    requires TwoAtTop(e, p, q) && Starts(e, own) && e.valid(p, good)
    ensures
      var evs, s0 := CollapsingEvents(e, p, q, good, bad), Initial(e, own);
      var s1 := Storing(e, s0, p, good, true);
      var s2, s3 := Storing(e, s1, q, bad, false), BothWaiting(e, own, p, q, good, bad);
      && Inv(e, s0) && Inv(e, s1) && Inv(e, s2) && Inv(e, s3) && Trust(e, s3, {p})
      && Enabled(e, s0, evs[0]) && s1 == Step(e, s0, evs[0])
      && Enabled(e, s1, evs[1]) && s2 == Step(e, s1, evs[1])
      && Enabled(e, s2, evs[2]) && s3 == Step(e, s2, evs[2])
  {
    InitialOk(e, own, {p});
    var s0, evs := Initial(e, own), CollapsingEvents(e, p, q, good, bad);
    assert Position(e.pp.peers, e.pp.peers[q]) == Some(q) by { assert e.pp.peers[q] in e.pp.peers; }
    DeliverStores(e, s0, p, good, true);
    StepOk(e, s0, evs[0], {p});
    var s1 := Storing(e, s0, p, good, true);
    DeliverStores(e, s1, q, bad, false);
    StepOk(e, s1, evs[1], {p});
    var s2 := Storing(e, s1, q, bad, false);
    TimerActivates(e, s2);
    StepOk(e, s2, evs[2], {p});
  }

  /** Reachable from the start of a round: after the four events the honest peer's verifying contribution is
      used up, the broken one's sender is banned, and the level's best is still the own contribution. */
  lemma CollapseInRun(e: Env, own: Contrib, p: nat, q: nat, good: Value, bad: Value)
    requires TwoAtTop(e, p, q) && Starts(e, own) && p !in own && q !in own && e.valid(p, good) && !e.valid(q, bad)
    ensures CanSee(e, own, CollapsingEvents(e, p, q, good, bad))
    ensures
      var s := After(e, own, CollapsingEvents(e, p, q, good, bad));
      s.levels[2].Some? && s.levels[2].value.best == Scored(1, own) && q in s.banned && p !in s.banned
  {
    ReachesBothWaiting(e, own, p, q, good, bad);
    var evs, s0, s3 := CollapsingEvents(e, p, q, good, bad), Initial(e, own), BothWaiting(e, own, p, q, good, bad);
    var s1 := Storing(e, s0, p, good, true);
    var s2 := Storing(e, s1, q, bad, false);
    WaitingShape(e, own, p, q, good, bad);
    RedeliveryCollapses(e, s3, p, q, good, bad);
    StepOk(e, s3, evs[3], {p});
    RunOfFour(e, s0, s1, s2, s3, evs);
  }

  lemma WaitingShape(e: Env, own: Contrib, p: nat, q: nat, good: Value, bad: Value)
    requires TwoAtTop(e, p, q)
    ensures
      var s := BothWaiting(e, own, p, q, good, bad);
      && |s.levels| == |s.pending| == 3 && s.window >= 2 && s.banned == {}
      && s.levels[2] == Some(NewLevel(Scored(1, own), 2))
      && s.pending[2] == map[p := Lone(p, good, true), q := Lone(q, bad, false)]
  {
    var empty: map<nat, Pending> := map[];
    assert empty[p := Lone(p, good, true)][q := Lone(q, bad, false)] == map[p := Lone(p, good, true), q := Lone(q, bad, false)];
  }

  lemma RunOfFour(e: Env, s0: State, s1: State, s2: State, s3: State, evs: seq<Event>)
    requires |evs| == 4 && Inv(e, s0) && Inv(e, s1) && Inv(e, s2) && Inv(e, s3)
    requires Enabled(e, s0, evs[0]) && s1 == Step(e, s0, evs[0])
    requires Enabled(e, s1, evs[1]) && s2 == Step(e, s1, evs[1])
    requires Enabled(e, s2, evs[2]) && s3 == Step(e, s2, evs[2])
    requires Enabled(e, s3, evs[3])
    ensures AllEnabled(e, s0, evs) && Run(e, s0, evs) == Step(e, s3, evs[3])
  {
    RunOfTwo(e, s2, s3, evs[2], evs[3]);
    RunCons(e, s1, evs[1], [evs[2], evs[3]]);
    RunCons(e, s0, evs[0], [evs[1]] + [evs[2], evs[3]]);
    assert evs == [evs[0]] + ([evs[1]] + [evs[2], evs[3]]);
  }

  lemma RunOfTwo(e: Env, s: State, s': State, first: Event, second: Event)
    requires Inv(e, s) && Inv(e, s') && Enabled(e, s, first) && s' == Step(e, s, first) && Enabled(e, s', second)
    ensures AllEnabled(e, s, [first, second]) && Run(e, s, [first, second]) == Step(e, s', second)
  {
    StepOk(e, s', second, {});
    RunCons(e, s', second, []);
    RunCons(e, s, first, [second] + []);
    assert [first, second] == [first] + ([second] + []);
  }
}
