/** One round of Handel at a single node, as a state machine over deliveries and polls. */
module HandelSpec {
  import opened Prelude
  import opened Sorting
  import opened Partitioning
  import opened Contributions

  type Value(==, !new)
  type Contrib = Contribution<Value>

  const USIZE_MAX: nat := 0xFFFF_FFFF_FFFF_FFFF

  datatype Threshold = Threshold(num: nat, denom: nat) {
    /** The number of contributions out of `n` that the threshold asks for. */
    function Min(n: nat): nat
      requires denom > 0
    {
      n * num / denom
    }
  }

  datatype Config = Config(threshold: Threshold, shrinkFactor: nat, initialWindow: nat, fastPathWindow: nat)

  /** What stays fixed during the round; `valid` is verification against the public data. */
  datatype Env = Env(conf: Config, valid: (nat, Value) -> bool, pp: Partitions, own: nat)

  datatype Pending = Pending(sender: nat, aggregate: Contrib, individual: Option<Contrib>)
  datatype Scored = Scored(score: nat, contribution: Contrib)
  datatype Candidate = Candidate(score: nat, sender: nat, contribution: Contrib)

  datatype ActiveLevel = ActiveLevel(
    prioritized: seq<Pending>,
    individual: seq<Contrib>,
    best: Scored,
    lastContacted: Option<nat>,
    sentScores: seq<nat>,
    completed: bool)

  datatype Message = Message(level: nat, individual: Option<Contrib>, aggregate: Contrib, contactSender: bool)
  datatype Envelope = Envelope(to: PeerId, message: Message)

  datatype State = State(
    window: nat,
    pending: seq<map<nat, Pending>>,
    levels: seq<Option<ActiveLevel>>,
    banned: set<nat>,
    completedLevels: map<nat, set<nat>>,
    outbox: seq<Envelope>)

  datatype PollResult = Waiting | Send(envelope: Envelope) | Done(aggregate: Contrib)

  /** What the constructor and the partitions provide. */
  ghost predicate Fits(e: Env) {
    && e.conf.threshold.denom > 0 && e.conf.shrinkFactor > 0 && 0 < e.conf.initialWindow <= USIZE_MAX
    && |e.pp.vp| == |e.pp.cvp| >= 2
    && (forall l: nat :: l < |e.pp.vp| ==> |e.pp.vp[l]| == |e.pp.cvp[l]|)
    && (forall l: nat, j: nat :: l < |e.pp.cvp| && j in e.pp.cvp[l] ==> j < |e.pp.peers| && j != e.own)
    && e.pp.cvp[0] == [] && |e.pp.cvp[1]| <= 1
  }

  // ----- construction -----

  function UnitLevel(best: Scored): ActiveLevel {
    ActiveLevel([], [], best, None, [0], true)
  }

  function NewLevel(best: Scored, numNodes: nat): ActiveLevel {
    ActiveLevel([], [], best, None, seq(numNodes, i => 0), false)
  }

  function Initial(e: Env, own: Contrib): State
    requires |e.pp.vp| >= 2
  {
    var scored := Scored(1, own);
    var n := |e.pp.vp|;
    State(e.conf.initialWindow,
          seq(n, i => map[]),
          [Some(UnitLevel(scored)), Some(NewLevel(scored, 1))] + seq(n - 2, i => None),
          {}, map[], [])
  }

  // ----- taking in a message -----

  function LevelCompleted(lvl: Option<ActiveLevel>): bool {
    lvl.Some? && lvl.value.completed
  }

  function ReportCompleted(done: map<nat, set<nat>>, peer: nat, level: nat): map<nat, set<nat>> {
    done[peer := (if peer in done then done[peer] else {}) + {level}]
  }

  predicate ReportedComplete(done: map<nat, set<nat>>, peer: nat, level: nat) {
    peer in done && level in done[peer]
  }

  /** `handle_contribution`: the new state, and whether the contribution was kept. */
  function HandleContribution(e: Env, s: State, from: PeerId, m: Message): (State, bool)
    requires from in e.pp.peers ==> m.level < |s.levels| == |s.pending|
  {
    var ix := Position(e.pp.peers, from);
    if ix.None? then (s, false)
    else
      var peer := ix.value;
      var s1 := if m.contactSender then s
                else s.(completedLevels := ReportCompleted(s.completedLevels, peer, m.level));
      if peer !in s.banned && !LevelCompleted(s.levels[m.level]) then
        var contrib := Pending(peer, m.aggregate, m.individual);
        var waiting: map<nat, Pending> := s.pending[m.level][peer := contrib];
        (s1.(pending := s.pending[m.level := waiting]), true)
      else (s1, false)
  }

  // ----- aggregation at a level -----

  function Shrink(window: nat, factor: nat): nat
    requires factor > 0
  {
    if window / factor > 1 then window / factor else 1
  }

  function Grow(window: nat, factor: nat): nat {
    if window * factor <= USIZE_MAX then window * factor else USIZE_MAX
  }

  /** Moves pending contributions to `acc` in the order of `peers` until the window is full. */
  function Prioritize(peers: seq<nat>, pending: map<nat, Pending>, acc: seq<Pending>, window: nat)
    : (seq<Pending>, map<nat, Pending>)
  {
    if peers == [] then (acc, pending)
    else
      var acc' := if peers[0] in pending then acc + [pending[peers[0]]] else acc;
      var rest := pending - {peers[0]};
      if |acc'| >= window then (acc', rest) else Prioritize(peers[1..], rest, acc', window)
  }

  /** Inserts into an ascending set ordered by score alone: equal scores collapse, first come stays. */
  function InsertCandidate(cs: seq<Candidate>, c: Candidate): seq<Candidate> {
    if cs == [] then [c]
    else if c.score == cs[0].score then cs
    else if c.score < cs[0].score then [c] + cs
    else [cs[0]] + InsertCandidate(cs[1..], c)
  }

  function CombineAll(acc: Contrib, ics: seq<Contrib>): Contrib
    decreases |ics|
  {
    if ics == [] then acc
    else
      var r := TryCombine(acc, ics[0]);
      CombineAll(if r.Some? then r.value else acc, ics[1..])
  }

  datatype Scoring = Scoring(individual: seq<Contrib>, candidates: seq<Candidate>, banned: set<nat>, window: nat)

  /** The candidate one pending contribution is scored as. */
  function CandidateOf(best: Contrib, individual: seq<Contrib>, p: Pending): Candidate {
    var r := TryCombine(best, p.aggregate);
    var c := if r.Some? then r.value else CombineAll(p.aggregate, individual);
    Candidate(|c|, p.sender, c)
  }

  function ScoreOne(e: Env, best: Contrib, st: Scoring, p: Pending): Scoring
    requires e.conf.shrinkFactor > 0
  {
    if p.individual.Some? && !Verifies(e.valid, p.individual.value) then
      st.(banned := st.banned + {p.sender}, window := Shrink(st.window, e.conf.shrinkFactor))
    else
      var individual := if p.individual.Some? then st.individual + [p.individual.value] else st.individual;
      st.(individual := individual, candidates := InsertCandidate(st.candidates, CandidateOf(best, individual, p)))
  }

  /** Scores the prioritized contributions, last one first. */
  function ScoreAll(e: Env, best: Contrib, st: Scoring, picked: seq<Pending>): Scoring
    requires e.conf.shrinkFactor > 0
    decreases |picked|
  {
    if picked == [] then st
    else ScoreAll(e, best, ScoreOne(e, best, st, picked[|picked| - 1]), picked[..|picked| - 1])
  }

  datatype Verdict = Verdict(best: Scored, banned: set<nat>, window: nat)

  function JudgeOne(e: Env, v: Verdict, c: Candidate): Verdict
    requires e.conf.shrinkFactor > 0
  {
    if Verifies(e.valid, c.contribution) then
      Verdict(if c.score > v.best.score then Scored(c.score, c.contribution) else v.best,
              v.banned, Grow(v.window, e.conf.shrinkFactor))
    else Verdict(v.best, v.banned + {c.sender}, Shrink(v.window, e.conf.shrinkFactor))
  }

  /** Verifies the candidates, lightest first. */
  function JudgeAll(e: Env, v: Verdict, cs: seq<Candidate>): Verdict
    requires e.conf.shrinkFactor > 0
    decreases |cs|
  {
    if cs == [] then v else JudgeAll(e, JudgeOne(e, v, cs[0]), cs[1..])
  }

  function IsComplete(weight: nat, level: nat, threshold: Threshold): bool
    requires threshold.denom > 0
  {
    weight >= threshold.Min(Pow2(level))
  }

  /** Picking, scoring and judging at an active level. */
  function Aggregate(e: Env, s: State, level: nat, lvl: ActiveLevel): (State, ActiveLevel)
    requires level < |s.levels| == |s.pending| == |e.pp.vp|
    requires e.conf.shrinkFactor > 0 && e.conf.threshold.denom > 0
  {
    var (picked, rest) := Prioritize(e.pp.vp[level], s.pending[level], lvl.prioritized, s.window);
    var st := ScoreAll(e, lvl.best.contribution, Scoring(lvl.individual, [], s.banned, s.window), picked);
    var v := JudgeAll(e, Verdict(lvl.best, st.banned, st.window), st.candidates);
    var completed := IsComplete(|v.best.contribution|, level, e.conf.threshold);
    var lvl' := lvl.(prioritized := [], individual := st.individual, best := v.best,
                     completed := lvl.completed || completed);
    (s.(window := v.window, banned := v.banned, pending := s.pending[level := rest],
        levels := s.levels[level := Some(lvl')]), lvl')
  }

  predicate Indexed(e: Env, s: State) {
    |s.levels| == |s.pending| == |e.pp.vp| == |e.pp.cvp| >= 2
  }

  /** An aggregation does not complete a level without peers only for the fast path to divide by their number. */
  predicate AggregationSafe(e: Env, s: State, level: nat)
    requires Indexed(e, s) && level < |s.levels|
    requires e.conf.shrinkFactor > 0 && e.conf.threshold.denom > 0
  {
    s.levels[level].Some? && s.pending[level] != map[] && e.pp.cvp[level] == [] && e.conf.fastPathWindow > 0 ==>
      !IsComplete(|Aggregate(e, s, level, s.levels[level].value).1.best.contribution|, level, e.conf.threshold)
  }

  /** `run_aggregation`. */
  function RunAggregation(e: Env, s: State, level: nat): State
    requires Indexed(e, s) && level < |s.levels|
    requires e.conf.shrinkFactor > 0 && e.conf.threshold.denom > 0
    requires AggregationSafe(e, s, level)
  {
    if s.levels[level].None? || s.pending[level] == map[] then s
    else
      var (s1, lvl) := Aggregate(e, s, level, s.levels[level].value);
      if IsComplete(|lvl.best.contribution|, level, e.conf.threshold)
      then TryActivate(e, RunFastPath(e, s1, level), level + 1)
      else s1
  }

  // ----- activation -----

  /** `try_activate_level`: empty levels are passed over as completed. */
  function TryActivate(e: Env, s: State, level: nat): (s': State)
    requires Indexed(e, s) && level > 0
    ensures Indexed(e, s')
    decreases |s.levels| - level
  {
    if level < |s.levels| && s.levels[level].None? && s.levels[level - 1].Some? then
      var best := s.levels[level - 1].value.best;
      if e.pp.vp[level] == [] then
        TryActivate(e, s.(levels := s.levels[level := Some(UnitLevel(best))]), level + 1)
      else s.(levels := s.levels[level := Some(NewLevel(best, |e.pp.vp[level]|))])
    else s
  }

  /** The first level not active yet. */
  function NextNonActive(levels: seq<Option<ActiveLevel>>): (r: Option<nat>)
    ensures r.Some? ==> r.value < |levels| && levels[r.value].None?
    ensures r.Some? ==> forall l :: 0 <= l < r.value ==> levels[l].Some?
    ensures r.None? ==> forall l :: 0 <= l < |levels| ==> levels[l].Some?
  {
    if levels == [] then None
    else if levels[0].None? then Some(0)
    else
      var r := NextNonActive(levels[1..]);
      assert forall l :: 0 < l < |levels| ==> levels[l] == levels[1..][l - 1];
      if r.None? then None else Some(r.value + 1)
  }

  // ----- the fast path -----

  function Dedup(s: seq<nat>): seq<nat> {
    if |s| <= 1 then s
    else if s[0] == s[1] then Dedup(s[1..])
    else [s[0]] + Dedup(s[1..])
  }

  function WindowAt(n: nat, offset: nat, ix: nat): (r: nat)
    requires n > 0
    ensures r < n
  {
    (ix + offset) % n
  }

  /** The peers a round of the window beginning after the last contact passes, minus the ones done. */
  function FastPathPeers(peers: seq<nat>, done: map<nat, set<nat>>, level: nat, offset: nat, window: nat): seq<nat>
    requires window > 0 ==> peers != []
  {
    var passed := seq(window, (ix: nat) requires ix < window => peers[WindowAt(|peers|, offset, ix)]);
    Filter(p => !ReportedComplete(done, p, level), passed)
  }

  function FastPathTargets(peers: seq<nat>, done: map<nat, set<nat>>, level: nat, offset: nat, window: nat): seq<nat>
    requires window > 0 ==> peers != []
  {
    Dedup(SortByKey((p: nat) => p, FastPathPeers(peers, done, level, offset, window)))
  }

  function PeerAt(e: Env, ix: nat): (r: Option<PeerId>) {
    if ix < |e.pp.peers| then Some(e.pp.peers[ix]) else None
  }

  /** One message to every peer in turn. */
  function SendAll(e: Env, targets: seq<nat>, m: Message): seq<Envelope> {
    if targets == [] then []
    else
      var p := PeerAt(e, targets[0]);
      (if p.Some? then [Envelope(p.value, m)] else []) + SendAll(e, targets[1..], m)
  }

  function OwnContribution(s: State): Option<Contrib> {
    if s.levels != [] && s.levels[0].Some? then Some(s.levels[0].value.best.contribution) else None
  }

  function Offset(last: Option<nat>): nat {
    if last.Some? then last.value + 1 else 0
  }

  /** `run_fast_path`: a completed level is pushed to the next peers at once. */
  function RunFastPath(e: Env, s: State, level: nat): (s': State)
    requires level < |s.levels| == |e.pp.cvp|
    requires s.levels[level].Some? && e.pp.cvp[level] == [] ==> e.conf.fastPathWindow == 0
    ensures s' == s.(outbox := s'.outbox)
  {
    if s.levels[level].None? then s
    else
      var lvl := s.levels[level].value;
      var targets := FastPathTargets(e.pp.cvp[level], s.completedLevels, level, Offset(lvl.lastContacted),
                                     e.conf.fastPathWindow);
      var m := Message(level, OwnContribution(s), lvl.best.contribution, false);
      s.(outbox := s.outbox + SendAll(e, targets, m))
  }

  // ----- dissemination -----

  /** Which positions of a level have reported completion. */
  function DoneAt(peers: seq<nat>, done: map<nat, set<nat>>, level: nat): (r: seq<bool>)
    ensures |r| == |peers|
  {
    seq(|peers|, i requires 0 <= i < |peers| => ReportedComplete(done, peers[i], level))
  }

  /** The position `d` places after `from`, cyclically among `n`. */
  function CyclicAt(n: nat, from: nat, d: nat): (r: nat)
    requires from < n && d <= n
    ensures r < n
  {
    if from + d < n then from + d else from + d - n
  }

  /** The first position not done, at distance `d` or more after `from`. */
  function CyclicNext(done: seq<bool>, from: nat, d: nat): (r: Option<nat>)
    requires from < |done| && d <= |done| + 1
    ensures r.Some? ==> r.value < |done| && !done[r.value]
    decreases |done| + 1 - d
  {
    if d > |done| then None
    else if !done[CyclicAt(|done|, from, d)] then Some(CyclicAt(|done|, from, d))
    else CyclicNext(done, from, d + 1)
  }

  /** The position a level contacts next. */
  function NextContact(done: seq<bool>, last: Option<nat>): (r: Option<nat>)
    requires last.Some? ==> last.value < |done|
    ensures r.Some? ==> r.value < |done| && !done[r.value]
  {
    if last.Some? then CyclicNext(done, last.value, 1)
    else if done != [] && !done[0] then Some(0)
    else None
  }

  function Contacted(lvl: ActiveLevel, next: nat): ActiveLevel
    requires next < |lvl.sentScores|
  {
    lvl.(lastContacted := Some(next),
         sentScores := if lvl.sentScores[next] < lvl.best.score
                       then lvl.sentScores[next := lvl.best.score] else lvl.sentScores)
  }

  /** Contact positions stay inside a level's peers and its table of sent scores. */
  predicate Contactable(e: Env, l: nat, lvl: ActiveLevel)
    requires l < |e.pp.cvp|
  {
    && |e.pp.cvp[l]| <= |lvl.sentScores|
    && (lvl.lastContacted.Some? ==> lvl.lastContacted.value < |e.pp.cvp[l]|)
  }

  predicate AllContactable(e: Env, s: State)
    requires |s.levels| == |e.pp.cvp|
  {
    forall l: nat :: 0 < l < |s.levels| && s.levels[l].Some? ==> Contactable(e, l, s.levels[l].value)
  }

  /** One level's share of a dissemination round. */
  function DisseminateAt(e: Env, s: State, l: nat): (s': State)
    requires 0 < l < |s.levels| == |e.pp.cvp| && AllContactable(e, s)
    ensures s' == s.(levels := s'.levels, outbox := s'.outbox)
    ensures |s'.levels| == |s.levels| && AllContactable(e, s')
  {
    if s.levels[l].None? then s
    else
      var lvl := s.levels[l].value;
      var peers := e.pp.cvp[l];
      var next := NextContact(DoneAt(peers, s.completedLevels, l), lvl.lastContacted);
      if next.None? then s
      else
        var m := Message(l, OwnContribution(s), lvl.best.contribution, !lvl.completed);
        s.(levels := s.levels[l := Some(Contacted(lvl, next.value))],
           outbox := s.outbox + SendAll(e, [peers[next.value]], m))
  }

  /** The round over levels `l` and up. */
  function DisseminateFrom(e: Env, s: State, l: nat): (s': State)
    requires 0 < l <= |s.levels| == |e.pp.cvp| && AllContactable(e, s)
    ensures s' == s.(levels := s'.levels, outbox := s'.outbox)
    ensures |s'.levels| == |s.levels| && AllContactable(e, s')
    decreases |s.levels| - l
  {
    if l == |s.levels| then s else DisseminateFrom(e, DisseminateAt(e, s, l), l + 1)
  }

  // ----- the steps of a round -----

  /** Get the complete aggregate, if the top level has completed. */
  function CompleteAggregate(s: State): Option<Contrib>
    requires s.levels != []
  {
    var top := s.levels[|s.levels| - 1];
    if LevelCompleted(top) then Some(top.value.best.contribution) else None
  }

  function ActivateNext(e: Env, s: State): (s': State)
    requires Indexed(e, s) && s.levels[0].Some?
    ensures Indexed(e, s')
  {
    var next := NextNonActive(s.levels);
    if next.Some? then TryActivate(e, s, next.value) else s
  }

  function PopOutbox(s: State): (State, PollResult)
    requires s.levels != []
  {
    if s.outbox != [] then (s.(outbox := s.outbox[1..]), Send(s.outbox[0]))
    else
      var c := CompleteAggregate(s);
      (s, if c.Some? then Done(c.value) else Waiting)
  }

  datatype Event =
    | Deliver(from: PeerId, message: Message)
    | Poll(disseminate: bool, activate: bool, ready: bool)

  /** Taking the message in neither indexes out of range nor divides by zero. */
  predicate InjectSafe(e: Env, s: State, from: PeerId, m: Message)
    requires Indexed(e, s) && e.conf.shrinkFactor > 0 && e.conf.threshold.denom > 0
  {
    from in e.pp.peers ==>
      m.level < |s.levels| &&
      var (s1, kept) := HandleContribution(e, s, from, m);
      kept ==> AggregationSafe(e, s1, m.level)
  }

  /** The same in terms of what is known before: the level exists, and if it has no peers and is
      still open to this sender, its best misses the threshold. */
  predicate Deliverable(e: Env, s: State, from: PeerId, m: Message)
    requires Indexed(e, s) && e.conf.threshold.denom > 0
  {
    var ix := Position(e.pp.peers, from);
    ix.Some? ==>
      && m.level < |s.levels|
      && (e.pp.cvp[m.level] == [] && e.conf.fastPathWindow > 0 && ix.value !in s.banned
          && s.levels[m.level].Some? && !s.levels[m.level].value.completed
          ==> |s.levels[m.level].value.best.contribution| < e.conf.threshold.Min(Pow2(m.level)))
  }

  predicate Enabled(e: Env, s: State, ev: Event)
    requires Indexed(e, s) && e.conf.threshold.denom > 0
  {
    ev.Deliver? ==> Deliverable(e, s, ev.from, ev.message)
  }
}
