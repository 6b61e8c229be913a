/** What the steps of a node leave behind, level by level. */
module HandelEffects {
  import opened Prelude
  import opened HandelSpec
  import opened HandelSafety
  import opened HandelBans

  // ----- one aggregation -----

  /** What an aggregation leaves: exactly the picks no longer wait, the individual parts that verify are kept, and the
      level counts as completed exactly if it did or its best now reaches the threshold. */
  lemma AggregationLeaves(e: Env, s: State, level: nat, lvl: ActiveLevel, k: nat)
    requires level < |s.levels| == |s.pending| == |e.pp.vp| && e.conf.shrinkFactor > 0 && e.conf.threshold.denom > 0
    requires SendersMatch(s.pending[level]) && forall p :: p in lvl.prioritized ==> p.sender !in s.pending[level]
    ensures
      var picked := Picks(e, s, level, lvl);
      var (s1, lvl1) := Aggregate(e, s, level, lvl);
      && s1.levels == s.levels[level := Some(lvl1)] && s1.pending == s.pending[level := s1.pending[level]]
      && (k in s1.pending[level] <==> k in s.pending[level] && s.pending[level][k] !in picked)
      && lvl1.prioritized == [] && lvl1.individual == lvl.individual + SoundParts(e, picked)
      && (lvl1.completed <==> lvl.completed || |lvl1.best.contribution| >= e.conf.threshold.Min(Pow2(level)))
      && lvl1.lastContacted == lvl.lastContacted && lvl1.sentScores == lvl.sentScores
      && s1.outbox == s.outbox && s1.completedLevels == s.completedLevels
  {
    PrioritizeLeaves(e.pp.vp[level], s.pending[level], lvl.prioritized, s.window, k);
    ScoringKeepsParts(e, lvl.best.contribution, Scoring(lvl.individual, [], s.banned, s.window), Picks(e, s, level, lvl));
  }

  // ----- activation -----

  /** The first level from `level` on that has peers. */
  function FirstInhabited(e: Env, level: nat): (r: nat)
    requires level <= |e.pp.vp|
    ensures level <= r <= |e.pp.vp|
    ensures forall l: nat :: level <= l < r ==> e.pp.vp[l] == []
    ensures r < |e.pp.vp| ==> e.pp.vp[r] != []
    decreases |e.pp.vp| - level
  {
    if level == |e.pp.vp| || e.pp.vp[level] != [] then level else FirstInhabited(e, level + 1)
  }

  /** Activation passes over levels without peers, which count as completed, and starts the first one that has some;
      all begin with the best of the level below. */
  lemma {:induction false} ActivationExact(e: Env, s: State, level: nat, l: nat)
    requires Indexed(e, s) && 0 < level <= |s.levels| && l < |s.levels| && s.levels[level - 1].Some?
    requires forall j: nat :: level <= j < |s.levels| ==> s.levels[j].None?
    ensures
      var best, t := s.levels[level - 1].value.best, FirstInhabited(e, level);
      TryActivate(e, s, level).levels[l] ==
      if level <= l < t then Some(UnitLevel(best)) else if l == t then Some(NewLevel(best, |e.pp.vp[t]|)) else s.levels[l]
    decreases |s.levels| - level
  {
    if level < |s.levels| && e.pp.vp[level] == [] {
      var best := s.levels[level - 1].value.best;
      ActivationExact(e, s.(levels := s.levels[level := Some(UnitLevel(best))]), level + 1, l);
    }
  }

  /** A completing aggregation sends the level to the next peers at once, and starts the levels above up to the first
      inhabited one if they are not active yet. */
  lemma CompletionExact(e: Env, s: State, level: nat, l: nat)
    requires Indexed(e, s) && level < |s.levels| && l < |s.levels| && Prefix(s.levels)
    requires e.conf.shrinkFactor > 0 && e.conf.threshold.denom > 0 && AggregationSafe(e, s, level)
    requires s.levels[level].Some? && s.pending[level] != map[]
    requires
      var lvl := Aggregate(e, s, level, s.levels[level].value).1;
      |lvl.best.contribution| >= e.conf.threshold.Min(Pow2(level))
    ensures
      var (s1, lvl), s' := Aggregate(e, s, level, s.levels[level].value), RunAggregation(e, s, level);
      && (e.pp.cvp[level] == [] ==> e.conf.fastPathWindow == 0)
      && s'.outbox == RunFastPath(e, s1, level).outbox && |s'.levels| == |s.levels| && s'.levels[level] == Some(lvl)
      && (level + 1 < |s.levels| && s.levels[level + 1].None? && level < l <= FirstInhabited(e, level + 1) ==>
            && s'.levels[l].Some? && s'.levels[l].value.best == lvl.best
            && (s'.levels[l].value.completed <==> l < FirstInhabited(e, level + 1)))
  {
    var (s1, lvl) := Aggregate(e, s, level, s.levels[level].value);
    var s2 := RunFastPath(e, s1, level);
    ActivateSame(e, s2, level + 1);
    if level + 1 < |s.levels| && s.levels[level + 1].None? {
      InactiveAbove(s.levels, level + 1);
      ActivationExact(e, s2, level + 1, l);
      ActivationExact(e, s2, level + 1, level);
    }
  }

  // ----- the timers -----

  lemma {:induction false} RoundKeepsActive(e: Env, s: State, k: nat)
    requires 0 < k <= |s.levels| == |e.pp.cvp| && AllContactable(e, s)
    ensures
      var s' := DisseminateFrom(e, s, k);
      && |s'.levels| == |s.levels|
      && forall l: nat :: l < |s.levels| ==> SameStart(s.levels[l], s'.levels[l])
    decreases |s.levels| - k
  {
    if k < |s.levels| {
      var s1 := DisseminateAt(e, s, k);
      RoundKeepsActive(e, s1, k + 1);
      var s' := DisseminateFrom(e, s1, k + 1);
      forall l: nat | l < |s.levels| ensures SameStart(s.levels[l], s'.levels[l]) {
        assert SameStart(s.levels[l], s1.levels[l]) && SameStart(s1.levels[l], s'.levels[l]);
      }
    }
  }

  /** Active before and after, with the same best. */
  predicate SameStart(a: Option<ActiveLevel>, b: Option<ActiveLevel>) {
    (a.Some? <==> b.Some?) && (a.Some? ==> a.value.best == b.value.best && a.value.completed == b.value.completed)
  }

  lemma FirstInactive(a: seq<Option<ActiveLevel>>, b: seq<Option<ActiveLevel>>)
    requires |a| == |b| && forall l: nat :: l < |a| ==> SameStart(a[l], b[l])
    ensures NextNonActive(a) == NextNonActive(b)
  {
    var x, y := NextNonActive(a), NextNonActive(b);
    if x.Some? { assert SameStart(a[x.value], b[x.value]); }
    if y.Some? { assert SameStart(a[y.value], b[y.value]); }
  }

  lemma AfterRound(e: Env, s: State, disseminate: bool) returns (s1: State)
    requires Inv(e, s)
    ensures AllContactable(e, s) && s1 == if disseminate then DisseminateFrom(e, s, 1) else s
    ensures Inv(e, s1) && NextNonActive(s1.levels) == NextNonActive(s.levels) && |s1.levels| == |s.levels|
    ensures forall l: nat :: l < |s.levels| ==> SameStart(s.levels[l], s1.levels[l])
  {
    InvContactable(e, s);
    DisseminateOk(e, s, 1, {});
    RoundKeepsActive(e, s, 1);
    s1 := if disseminate then DisseminateFrom(e, s, 1) else s;
    FirstInactive(s.levels, s1.levels);
  }

  /** Activating the next level: which levels are active then, and what the new ones begin with. */
  lemma NextExact(e: Env, s: State, l: nat)
    requires Indexed(e, s) && Prefix(s.levels) && s.levels[0].Some? && l < |s.levels|
    ensures
      var s', next := ActivateNext(e, s), NextNonActive(s.levels);
      && s' == s.(levels := s'.levels)
      && (s'.levels[l].Some? <==> s.levels[l].Some? || (next.Some? && l <= FirstInhabited(e, next.value)))
      && (s.levels[l].None? && s'.levels[l].Some? ==> s'.levels[l].value.best == s.levels[next.value - 1].value.best)
  {
    var next := NextNonActive(s.levels);
    if next.Some? {
      InactiveAbove(s.levels, next.value);
      ActivateSame(e, s, next.value);
      ActivationExact(e, s, next.value, l);
    }
  }

  /** Both timers do their work in the same poll: what is queued is what dissemination queues, and the levels from the
      first inactive one to the first inhabited one become active exactly if the activation timer fired. */
  lemma TimersExact(e: Env, s: State, disseminate: bool, activate: bool, l: nat)
    requires Inv(e, s) && l < |s.levels|
    ensures AllContactable(e, s)
    ensures
      var s', next := Tick(e, s, disseminate, activate), NextNonActive(s.levels);
      && s'.outbox == (if disseminate then DisseminateFrom(e, s, 1).outbox else s.outbox)
      && |s'.levels| == |s.levels|
      && (s'.levels[l].Some? <==> s.levels[l].Some? || (activate && next.Some? && l <= FirstInhabited(e, next.value)))
      && (s.levels[l].None? && s'.levels[l].Some? ==> s'.levels[l].value.best == s.levels[next.value - 1].value.best)
  {
    var s1 := AfterRound(e, s, disseminate);
    assert Tick(e, s, disseminate, activate) == if activate then ActivateNext(e, s1) else s1;
    assert SameStart(s.levels[l], s1.levels[l]);
    var next := NextNonActive(s.levels);
    if next.Some? { assert SameStart(s.levels[next.value - 1], s1.levels[next.value - 1]); }
    NextExact(e, s1, l);
  }

  lemma InactiveAbove(levels: seq<Option<ActiveLevel>>, next: nat)
    requires Prefix(levels) && next < |levels| && levels[next].None?
    ensures forall j: nat :: next <= j < |levels| ==> levels[j].None?
  {
  }

  // ----- what holds of every level in every run -----

  /** Nothing is left set aside between steps, and no peer was sent more than the level has. */
  predicate Tidy(lvl: ActiveLevel) {
    lvl.prioritized == [] && forall j :: 0 <= j < |lvl.sentScores| ==> lvl.sentScores[j] <= lvl.best.score
  }

  predicate TidyAt(levels: seq<Option<ActiveLevel>>, l: nat) {
    l < |levels| && levels[l].Some? ==> Tidy(levels[l].value)
  }

  ghost predicate AllTidy(s: State) {
    forall l: nat :: TidyAt(s.levels, l)
  }

  lemma {:induction false} ActivationTidy(e: Env, s: State, level: nat)
    requires Indexed(e, s) && level > 0 && AllTidy(s)
    ensures AllTidy(TryActivate(e, s, level))
    decreases |s.levels| - level
  {
    if level < |s.levels| && s.levels[level].None? && s.levels[level - 1].Some? {
      var best := s.levels[level - 1].value.best;
      var lvl := if e.pp.vp[level] == [] then UnitLevel(best) else NewLevel(best, |e.pp.vp[level]|);
      OneTidy(s, level, lvl);
      if e.pp.vp[level] == [] { ActivationTidy(e, s.(levels := s.levels[level := Some(lvl)]), level + 1); }
    }
  }

  lemma OneTidy(s: State, l: nat, lvl: ActiveLevel)
    requires l < |s.levels| && AllTidy(s) && Tidy(lvl)
    ensures AllTidy(s.(levels := s.levels[l := Some(lvl)]))
  {
    var levels := s.levels[l := Some(lvl)];
    forall j: nat ensures TidyAt(levels, j) { assert TidyAt(s.levels, j); }
  }

  /** A contact records the level's score as sent, if that is more than was sent before. */
  lemma ContactRecords(lvl: ActiveLevel, next: nat, j: nat)
    requires next < |lvl.sentScores| && j < |lvl.sentScores|
    ensures
      var after := Contacted(lvl, next);
      && after == lvl.(lastContacted := Some(next), sentScores := after.sentScores) && |after.sentScores| == |lvl.sentScores|
      && after.sentScores[j] == (if j == next && lvl.sentScores[j] < lvl.best.score then lvl.best.score else lvl.sentScores[j])
  {
  }

  lemma TurnTidy(e: Env, s: State, l: nat)
    requires 0 < l < |s.levels| == |e.pp.cvp| && AllContactable(e, s) && AllTidy(s)
    ensures AllTidy(DisseminateAt(e, s, l))
  {
    if s.levels[l].Some? {
      var lvl := s.levels[l].value;
      assert TidyAt(s.levels, l) && Contactable(e, l, lvl);
      var next := NextContact(DoneAt(e.pp.cvp[l], s.completedLevels, l), lvl.lastContacted);
      if next.Some? { OneTidy(s, l, Contacted(lvl, next.value)); }
    }
  }

  lemma {:induction false} RoundTidy(e: Env, s: State, l: nat)
    requires 0 < l <= |s.levels| == |e.pp.cvp| && AllContactable(e, s) && AllTidy(s)
    ensures AllTidy(DisseminateFrom(e, s, l))
    decreases |s.levels| - l
  {
    if l < |s.levels| {
      TurnTidy(e, s, l);
      RoundTidy(e, DisseminateAt(e, s, l), l + 1);
    }
  }

  lemma AggregateTidy(e: Env, s: State, level: nat, lvl: ActiveLevel)
    requires level < |s.levels| == |s.pending| == |e.pp.vp| && e.conf.shrinkFactor > 0 && e.conf.threshold.denom > 0
    requires AllTidy(s) && Tidy(lvl)
    ensures AllTidy(Aggregate(e, s, level, lvl).0)
  {
    var picked := Picks(e, s, level, lvl);
    var st := ScoreAll(e, lvl.best.contribution, Scoring(lvl.individual, [], s.banned, s.window), picked);
    JudgeAllBest(e, Verdict(lvl.best, st.banned, st.window), st.candidates);
    OneTidy(s, level, Aggregate(e, s, level, lvl).1);
  }

  lemma AggregationTidy(e: Env, s: State, level: nat)
    requires Indexed(e, s) && level < |s.levels| && e.conf.shrinkFactor > 0 && e.conf.threshold.denom > 0 && AggregationSafe(e, s, level)
    requires AllTidy(s)
    ensures AllTidy(RunAggregation(e, s, level))
  {
    if s.levels[level].Some? && s.pending[level] != map[] {
      assert TidyAt(s.levels, level);
      AggregateTidy(e, s, level, s.levels[level].value);
      var (s1, lvl) := Aggregate(e, s, level, s.levels[level].value);
      if IsComplete(|lvl.best.contribution|, level, e.conf.threshold) { ActivationTidy(e, RunFastPath(e, s1, level), level + 1); }
    }
  }

  lemma StepTidy(e: Env, s: State, ev: Event)
    requires Inv(e, s) && Enabled(e, s, ev) && AllTidy(s)
    ensures AllTidy(Step(e, s, ev))
  {
    match ev
    case Deliver(from, m) =>
      DeliverableIff(e, s, from, m);
      var (s1, kept) := HandleContribution(e, s, from, m);
      assert s1.levels == s.levels;
      if kept { AggregationTidy(e, s1, m.level); }
    case Poll(disseminate, activate, ready) => TickTidy(e, s, disseminate, activate);
  }

  lemma TickTidy(e: Env, s: State, disseminate: bool, activate: bool)
    requires Inv(e, s) && AllTidy(s)
    ensures AllTidy(Tick(e, s, disseminate, activate))
  {
    InvContactable(e, s);
    DisseminateOk(e, s, 1, {});
    RoundTidy(e, s, 1);
    var s1 := if disseminate then DisseminateFrom(e, s, 1) else s;
    var next := NextNonActive(s1.levels);
    if next.Some? { ActivationTidy(e, s1, next.value); }
  }

  lemma InitialTidy(e: Env, own: Contrib)
    requires |e.pp.vp| >= 2
    ensures AllTidy(Initial(e, own))
  {
  }

  lemma {:induction false} RunTidy(e: Env, s: State, events: seq<Event>)
    requires Inv(e, s) && AllEnabled(e, s, events) && AllTidy(s)
    ensures AllTidy(Run(e, s, events))
    decreases |events|
  {
    if events != [] {
      StepTidy(e, s, events[0]);
      StepOk(e, s, events[0], {});
      RunTidy(e, Step(e, s, events[0]), events[1..]);
    }
  }

  /** In every run from the start of a round nothing stays set aside between steps, and no recorded score exceeds the
      level's. */
  lemma EveryRunTidy(e: Env, own: Contrib, events: seq<Event>)
    requires Starts(e, own) && CanSee(e, own, events)
    ensures AllTidy(After(e, own, events))
  {
    InitialOk(e, own, {});
    InitialTidy(e, own);
    RunTidy(e, Initial(e, own), events);
  }
}
