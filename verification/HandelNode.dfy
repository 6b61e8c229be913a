/** The node itself: fields updated in place by the methods of a Handel round. */
module HandelNode {
  import opened Prelude
  import opened Partitioning
  import opened Contributions
  import Spec = HandelSpec
  import opened HandelSpec
  import opened HandelSafety
  import HandelFairness

  method PickPrioritized(peers: seq<nat>, pending: map<nat, Pending>, prioritized: seq<Pending>, window: nat)
    returns (picked: seq<Pending>, rest: map<nat, Pending>)
    ensures (picked, rest) == Prioritize(peers, pending, prioritized, window)
  {
    picked, rest := prioritized, pending;
    for i := 0 to |peers|
      invariant Prioritize(peers[i..], rest, picked, window) == Prioritize(peers, pending, prioritized, window)
    {
      assert peers[i..][0] == peers[i] && peers[i..][1..] == peers[i + 1..];
      if peers[i] in rest {
        picked := picked + [rest[peers[i]]];
      }
      rest := rest - {peers[i]};
      if |picked| >= window {
        return;
      }
    }
  }

  method CombineWithIndividuals(aggregate: Contrib, individual: seq<Contrib>) returns (acc: Contrib)
    ensures acc == CombineAll(aggregate, individual)
  {
    acc := aggregate;
    for i := 0 to |individual|
      invariant CombineAll(acc, individual[i..]) == CombineAll(aggregate, individual)
    {
      assert individual[i..][0] == individual[i] && individual[i..][1..] == individual[i + 1..];
      var r := Combine(acc, individual[i]);
      if r.Some? {
        acc := r.value;
      }
    }
  }

  method ScorePrioritized(e: Env, best: Contrib, individual: seq<Contrib>, picked: seq<Pending>, banned: set<nat>, window: nat)
    returns (st: Scoring)
    requires e.conf.shrinkFactor > 0
    ensures st == ScoreAll(e, best, Scoring(individual, [], banned, window), picked)
  {
    st := Scoring(individual, [], banned, window);
    var stack := picked;
    while stack != []
      invariant ScoreAll(e, best, st, stack) == ScoreAll(e, best, Scoring(individual, [], banned, window), picked)
      decreases |stack|
    {
      var c := stack[|stack| - 1];
      stack := stack[..|stack| - 1];
      ghost var next := ScoreOne(e, best, st, c);
      if c.individual.Some? && !Verifies(e.valid, c.individual.value) {
        st := st.(banned := st.banned + {c.sender}, window := Shrink(st.window, e.conf.shrinkFactor));
      } else {
        if c.individual.Some? {
          st := st.(individual := st.individual + [c.individual.value]);
        }
        var combined := Combine(best, c.aggregate);
        var aggregate;
        if combined.Some? {
          aggregate := combined.value;
        } else {
          aggregate := CombineWithIndividuals(c.aggregate, st.individual);
        }
        st := st.(candidates := InsertCandidate(st.candidates, Candidate(|aggregate|, c.sender, aggregate)));
      }
      assert st == next;
    }
  }

  method JudgeCandidates(e: Env, best: Scored, cs: seq<Candidate>, banned: set<nat>, window: nat) returns (v: Verdict)
    requires e.conf.shrinkFactor > 0
    ensures v == JudgeAll(e, Verdict(best, banned, window), cs)
  {
    v := Verdict(best, banned, window);
    for i := 0 to |cs|
      invariant JudgeAll(e, v, cs[i..]) == JudgeAll(e, Verdict(best, banned, window), cs)
    {
      assert cs[i..][0] == cs[i] && cs[i..][1..] == cs[i + 1..];
      ghost var next := JudgeOne(e, v, cs[i]);
      if Verifies(e.valid, cs[i].contribution) {
        if cs[i].score > v.best.score {
          v := v.(best := Scored(cs[i].score, cs[i].contribution));
        }
        v := v.(window := Grow(v.window, e.conf.shrinkFactor));
      } else {
        v := v.(banned := v.banned + {cs[i].sender}, window := Shrink(v.window, e.conf.shrinkFactor));
      }
      assert v == next;
    }
  }

  /** The three searches for the next peer: after the last one, before it, and itself. */
  method SelectNext(done: seq<bool>, last: Option<nat>) returns (next: Option<nat>)
    requires done != [] && (last.Some? ==> last.value < |done|)
    ensures next == NextContact(done, last)
  {
    if last.None? {
      return if done[0] then None else Some(0);
    }
    var ix, n := last.value, |done|;
    for i := ix + 1 to n
      invariant CyclicNext(done, ix, 1) == CyclicNext(done, ix, i - ix)
    {
      if !done[i] {
        return Some(i);
      }
    }
    for i := 0 to ix
      invariant CyclicNext(done, ix, 1) == CyclicNext(done, ix, n - ix + i)
    {
      if !done[i] {
        return Some(i);
      }
    }
    next := if !done[ix] then Some(ix) else None;
  }

  lemma PollProgress(e: Env, s: State, disseminate: bool, activate: bool, ready: bool)
    requires Inv(e, s)
    ensures AllContactable(e, s)
    ensures
      var s1, s' := Tick(e, s, disseminate, activate), Step(e, s, Event.Poll(disseminate, activate, ready));
      && s' == (if ready then PopOutbox(s1).0 else s1) && Progress(s, s')
      && (s.outbox != [] ==> PopOutbox(s1).1 == Send(s.outbox[0]))
  {
    InvContactable(e, s);
    StepOk(e, s, Event.Poll(disseminate, activate, ready), {});
    TickQueues(e, s, disseminate, activate);
  }

  /** The timers only add to the outbox. */
  lemma TickQueues(e: Env, s: State, disseminate: bool, activate: bool)
    requires Inv(e, s)
    ensures s.outbox <= Tick(e, s, disseminate, activate).outbox
  {
    InvContactable(e, s);
    HandelFairness.LaterTurns(e, s, 1, 0);
    DisseminateOk(e, s, 1, {});
    var s1 := if disseminate then DisseminateFrom(e, s, 1) else s;
    var next := NextNonActive(s1.levels);
    if next.Some? { ActivateSame(e, s1, next.value); }
  }

  class Node {
    const e: Env
    var window: nat
    var pending: seq<map<nat, Pending>>
    var levels: seq<Option<ActiveLevel>>
    var banned: set<nat>
    var completedLevels: map<nat, set<nat>>
    var outbox: seq<Envelope>

    ghost function View(): State
      reads this
    {
      State(window, pending, levels, banned, completedLevels, outbox)
    }

    ghost predicate Valid()
      reads this
    {
      Inv(e, View())
    }

    constructor (e: Env, own: Contrib)
      requires Starts(e, own)
      ensures this.e == e && View() == Initial(e, own) && Valid()
    {
      this.e := e;
      var scored := Scored(1, own);
      var n := |e.pp.vp|;
      window := e.conf.initialWindow;
      pending := seq(n, i => map[]);
      levels := [Some(UnitLevel(scored)), Some(NewLevel(scored, 1))] + seq(n - 2, i => None);
      banned, completedLevels, outbox := {}, map[], [];
      new;
      InitialOk(e, own, {});
      assert View() == Initial(e, own);
    }

    method HandleContribution(from: PeerId, m: Message) returns (kept: bool)
      requires from in e.pp.peers ==> m.level < |levels| == |pending|
      modifies this
      ensures (View(), kept) == Spec.HandleContribution(e, old(View()), from, m)
      ensures from !in e.pp.peers ==> View() == old(View()) && !kept
      ensures forall x: nat :: Position(e.pp.peers, from) == Some(x) ==>
        && (kept <==> x !in banned && !LevelCompleted(levels[m.level]))
        && completedLevels == (if m.contactSender then old(completedLevels) else ReportCompleted(old(completedLevels), x, m.level))
        && (!kept ==> pending == old(pending))
        && (kept ==> pending[m.level] == old(pending)[m.level][x := Pending(x, m.aggregate, m.individual)])
        && (forall l: nat :: l < |pending| && l != m.level ==> pending[l] == old(pending)[l])
    {
      var ix := Position(e.pp.peers, from);
      if ix.None? {
        return false;
      }
      var peer := ix.value;
      var isByzantine := peer in banned;
      if !m.contactSender {
        completedLevels := ReportCompleted(completedLevels, peer, m.level);
      }
      if !isByzantine && !LevelCompleted(levels[m.level]) {
        var waiting: map<nat, Pending> := pending[m.level][peer := Pending(peer, m.aggregate, m.individual)];
        pending := pending[m.level := waiting];
        kept := true;
      } else {
        kept := false;
      }
    }

    /** Picks, scores and verifies what waits at an active level, and takes over the best. */
    method AggregateLevel(level: nat) returns (complete: bool)
      requires level < |levels| == |pending| == |e.pp.vp| && levels[level].Some?
      requires e.conf.shrinkFactor > 0 && e.conf.threshold.denom > 0
      modifies this
      ensures
        var (s, lvl) := Aggregate(e, old(View()), level, old(levels)[level].value);
        View() == s && complete == IsComplete(|lvl.best.contribution|, level, e.conf.threshold)
    {
      var lvl := levels[level].value;
      var picked, rest := PickPrioritized(e.pp.vp[level], pending[level], lvl.prioritized, window);
      pending := pending[level := rest];
      var st := ScorePrioritized(e, lvl.best.contribution, lvl.individual, picked, banned, window);
      var v := JudgeCandidates(e, lvl.best, st.candidates, st.banned, st.window);
      banned, window := v.banned, v.window;
      lvl := lvl.(prioritized := [], individual := st.individual, best := v.best);
      complete := IsComplete(|lvl.best.contribution|, level, e.conf.threshold);
      if complete {
        lvl := lvl.(completed := true);
      }
      levels := levels[level := Some(lvl)];
    }

    method RunAggregation(level: nat)
      requires Valid() && level < |levels| && AggregationSafe(e, View(), level)
      modifies this
      ensures View() == Spec.RunAggregation(e, old(View()), level) && Valid()
    {
      if levels[level].None? || pending[level] == map[] {
        return;
      }
      AggregateOk(e, View(), level, {});
      var complete := AggregateLevel(level);
      if complete {
        RunFastPath(level);
        TryActivateLevel(level + 1);
      }
    }

    method TryActivateLevel(level: nat)
      requires Valid() && level > 0
      modifies this
      ensures View() == TryActivate(e, old(View()), level) && Valid()
      decreases |levels| - level
    {
      ActivateOk(e, View(), level, {});
      if level < |levels| && levels[level].None? {
        if levels[level - 1].Some? {
          ghost var before := View();
          var best := levels[level - 1].value.best;
          var peers := e.pp.vp[level];
          if peers == [] {
            levels := levels[level := Some(UnitLevel(best))];
            UpdateLevel(e, before.levels, level, UnitLevel(best));
            assert View() == before.(levels := levels);
            TryActivateLevel(level + 1);
          } else {
            levels := levels[level := Some(NewLevel(best, |peers|))];
            assert View() == before.(levels := levels);
          }
        }
      }
    }

    /** Posts the level's best contribution to the peers in the window after the last contacted one. */
    method PostFastPath(level: nat)
      requires level < |levels| == |e.pp.cvp|
      requires levels[level].Some? && e.pp.cvp[level] == [] ==> e.conf.fastPathWindow == 0
      requires levels[level].Some? ==> levels[level].value.completed
      modifies this`outbox
      ensures View() == Spec.RunFastPath(e, old(View()), level)
    {
      if levels[level].None? {
        return;
      }
      var lvl := levels[level].value;
      assert lvl.completed;
      var peers := e.pp.cvp[level];
      var offset := if lvl.lastContacted.Some? then lvl.lastContacted.value + 1 else 0;
      var nodes := FastPathTargets(peers, completedLevels, level, offset, e.conf.fastPathWindow);
      var own := GetOwnContribution();
      Post(nodes, Message(level, own, lvl.best.contribution, false));
    }

    method RunFastPath(level: nat)
      requires Valid() && level < |levels|
      requires levels[level].Some? && e.pp.cvp[level] == [] ==> e.conf.fastPathWindow == 0
      requires levels[level].Some? ==> levels[level].value.completed
      modifies this`outbox
      ensures View() == Spec.RunFastPath(e, old(View()), level) && Valid()
    {
      if levels[level].Some? {
        FastPathOk(e, View(), level, {});
      }
      PostFastPath(level);
    }

    /** Queues one message to each of the peers. */
    method Post(nodes: seq<nat>, m: Message)
      modifies this`outbox
      ensures outbox == old(outbox) + SendAll(e, nodes, m)
    {
      for i := 0 to |nodes|
        invariant outbox + SendAll(e, nodes[i..], m) == old(outbox) + SendAll(e, nodes, m)
      {
        assert nodes[i..][0] == nodes[i] && nodes[i..][1..] == nodes[i + 1..];
        var p := PeerAt(e, nodes[i]);
        if p.Some? {
          outbox := outbox + [Envelope(p.value, m)];
        }
      }
    }

    /** Every level above the own one gets its turn. */
    method DisseminateLevels()
      requires |levels| == |e.pp.cvp| && levels != [] && AllContactable(e, View())
      modifies this`levels, this`outbox
      ensures View() == DisseminateFrom(e, old(View()), 1)
    {
      ghost var start := View();
      for l := 1 to |levels|
        invariant |levels| == |start.levels| && View() == start.(levels := levels, outbox := outbox)
        invariant AllContactable(e, View())
        invariant DisseminateFrom(e, View(), l) == DisseminateFrom(e, start, 1)
      {
        DisseminateLevel(l);
      }
    }

    method RunDissemination()
      requires Valid()
      modifies this`levels, this`outbox
      ensures AllContactable(e, old(View())) && View() == DisseminateFrom(e, old(View()), 1) && Valid()
    {
      InvContactable(e, View());
      DisseminateOk(e, View(), 1, {});
      DisseminateLevels();
    }

    method DisseminateLevel(l: nat)
      requires 0 < l < |levels| == |e.pp.cvp| && AllContactable(e, View())
      modifies this`levels, this`outbox
      ensures View() == DisseminateAt(e, old(View()), l)
    {
      if levels[l].None? {
        return;
      }
      var lvl := levels[l].value;
      var peers := e.pp.cvp[l];
      var done := DoneAt(peers, completedLevels, l);
      if forall i :: 0 <= i < |peers| ==> done[i] {
        AllDoneMeansNone(done, lvl.lastContacted);
        return;
      }
      var next := SelectNext(done, lvl.lastContacted);
      if next.None? {
        return;
      }
      var own := GetOwnContribution();
      lvl := lvl.(lastContacted := next);
      if lvl.sentScores[next.value] < lvl.best.score {
        lvl := lvl.(sentScores := lvl.sentScores[next.value := lvl.best.score]);
      }
      levels := levels[l := Some(lvl)];
      Post([peers[next.value]], Message(l, own, lvl.best.contribution, !lvl.completed));
    }

    /** In a valid node there always is one to send, it verifies, and its weight is the score of level 0. */
    method GetOwnContribution() returns (c: Option<Contrib>)
      ensures c == OwnContribution(View())
      ensures Valid() ==> c.Some? && Verifies(e.valid, c.value) && |c.value| == levels[0].value.best.score
    {
      assert Valid() ==> LevelOk(e, 0, levels[0].value);
      c := if levels != [] && levels[0].Some? then Some(levels[0].value.best.contribution) else None;
    }

    /** Over partitions with an inhabited top level, an aggregate handed out verifies and reaches
        the threshold over all peer slots. */
    method GetCompleteAggregate() returns (c: Option<Contrib>)
      requires Valid()
      ensures c == CompleteAggregate(View())
      ensures c.Some? && e.pp.cvp[|e.pp.cvp| - 1] != [] ==>
                Verifies(e.valid, c.value) && |c.value| >= e.conf.threshold.Min(Pow2(|levels| - 1))
    {
      var last := levels[|levels| - 1];
      if last.Some? {
        if last.value.completed {
          if e.pp.cvp[|e.pp.cvp| - 1] != [] { AggregateReachesThreshold(e, View()); }
          return Some(last.value.best.contribution);
        }
      }
      return None;
    }

    /** One event of the round each. */
    method InjectMessage(from: PeerId, m: Message)
      requires Valid() && Deliverable(e, View(), from, m)
      modifies this
      ensures View() == Inject(e, old(View()), from, m) && Valid()
      ensures Progress(old(View()), View())
    {
      InjectOk(e, View(), from, m, {});
      HandleOk(e, View(), from, m, {});
      DeliverableIff(e, View(), from, m);
      var kept := HandleContribution(from, m);
      if kept {
        RunAggregation(m.level);
      }
    }

    /** The work due when the dissemination or the activation timer has fired. */
    method RunTimers(disseminate: bool, activate: bool)
      requires Valid()
      modifies this
      ensures View() == Tick(e, old(View()), disseminate, activate) && Valid()
    {
      InvContactable(e, View());
      if disseminate {
        RunDissemination();
      }
      if activate {
        var next := NextNonActive(levels);
        if next.Some? {
          TryActivateLevel(next.value);
        }
      }
    }

    /** Hands out the next queued message or, when there is none, the aggregate of a completed top level. */
    method NextOutput() returns (r: PollResult)
      requires Valid()
      modifies this`outbox
      ensures (View(), r) == PopOutbox(old(View())) && Valid()
      ensures old(outbox) != [] ==> r == Send(old(outbox)[0]) && outbox == old(outbox)[1..]
      ensures old(outbox) == [] ==>
        outbox == [] && r == if LevelCompleted(levels[|levels| - 1]) then Done(levels[|levels| - 1].value.best.contribution) else Waiting
      ensures r.Done? && e.pp.cvp[|e.pp.cvp| - 1] != [] ==>
                Verifies(e.valid, r.aggregate) && |r.aggregate| >= e.conf.threshold.Min(Pow2(|levels| - 1))
    {
      PopOk(e, View(), {});
      if outbox != [] {
        r := Send(outbox[0]);
        outbox := outbox[1..];
      } else {
        var c := GetCompleteAggregate();
        r := if c.Some? then Done(c.value) else Waiting;
      }
    }

    method Poll(disseminate: bool, activate: bool, ready: bool) returns (r: PollResult)
      requires Valid()
      modifies this
      ensures View() == Step(e, old(View()), Event.Poll(disseminate, activate, ready)) && Valid()
      ensures Progress(old(View()), View())
      ensures r == if ready then PopOutbox(Tick(e, old(View()), disseminate, activate)).1 else Waiting
      ensures ready && old(outbox) != [] ==> r == Send(old(outbox)[0])
      ensures r.Done? && e.pp.cvp[|e.pp.cvp| - 1] != [] ==>
                Verifies(e.valid, r.aggregate) && |r.aggregate| >= e.conf.threshold.Min(Pow2(|levels| - 1))
    {
      PollProgress(e, View(), disseminate, activate, ready);
      RunTimers(disseminate, activate);
      assert View() == Tick(e, old(View()), disseminate, activate);
      if !ready {
        return Waiting;
      }
      r := NextOutput();
    }
  }

  lemma AllDoneMeansNone(done: seq<bool>, last: Option<nat>)
    requires last.Some? ==> last.value < |done|
    requires forall i :: 0 <= i < |done| ==> done[i]
    ensures NextContact(done, last).None?
  {
  }
}
