/** What each event does to one level, and the fairness of dissemination over whole runs. */
module HandelFairness {
  import opened Prelude
  import opened Sorting
  import opened Partitioning
  import opened HandelSpec
  import opened HandelSafety
  import opened HandelDissemination

  // ----- what an event leaves alone -----

  /** `b` is `a` as far as contacts go; once completed it does not change at all. */
  predicate Keeps(a: ActiveLevel, b: ActiveLevel) {
    a.lastContacted == b.lastContacted && (a.completed ==> b == a)
  }

  /** Activation changes no level that is active already. */
  lemma {:induction false} TryActivateKeeps(e: Env, s: State, level: nat, l: nat)
    requires Indexed(e, s) && level > 0 && l < |s.levels| && s.levels[l].Some?
    ensures
      var s' := TryActivate(e, s, level);
      s' == s.(levels := s'.levels) && s'.levels[l] == s.levels[l]
    decreases |s.levels| - level
  {
    if level < |s.levels| && s.levels[level].None? && s.levels[level - 1].Some? && e.pp.vp[level] == [] {
      var best := s.levels[level - 1].value.best;
      TryActivateKeeps(e, s.(levels := s.levels[level := Some(UnitLevel(best))]), level + 1, l);
    }
  }

  lemma AggregateKeeps(e: Env, s: State, level: nat, l: nat)
    requires Indexed(e, s) && level < |s.levels| && l < |s.levels| && s.levels[l].Some? && s.levels[level].Some?
    requires e.conf.shrinkFactor > 0 && e.conf.threshold.denom > 0 && !s.levels[level].value.completed
    ensures
      var (s', lvl) := Aggregate(e, s, level, s.levels[level].value);
      && |s'.levels| == |s.levels| && s'.levels[l].Some? && Keeps(s.levels[l].value, s'.levels[l].value)
      && s'.outbox == s.outbox && s'.completedLevels == s.completedLevels
  {
  }

  lemma RunAggregationKeeps(e: Env, s: State, level: nat, l: nat)
    requires Indexed(e, s) && level < |s.levels| && l < |s.levels| && s.levels[l].Some?
    requires e.conf.shrinkFactor > 0 && e.conf.threshold.denom > 0 && !LevelCompleted(s.levels[level])
    requires AggregationSafe(e, s, level)
    ensures
      var s' := RunAggregation(e, s, level);
      && |s'.levels| == |s.levels| && s'.levels[l].Some? && Keeps(s.levels[l].value, s'.levels[l].value)
      && s.outbox <= s'.outbox && s'.completedLevels == s.completedLevels
  {
    if s.levels[level].Some? && s.pending[level] != map[] {
      AggregateKeeps(e, s, level, l);
      var (s1, lvl) := Aggregate(e, s, level, s.levels[level].value);
      if IsComplete(|lvl.best.contribution|, level, e.conf.threshold) {
        TryActivateKeeps(e, RunFastPath(e, s1, level), level + 1, l);
      }
    }
  }

  /** A delivery moves no contact position, changes no completed level and takes nothing from the outbox. */
  lemma InjectKeeps(e: Env, s: State, from: PeerId, m: Message, l: nat)
    requires Inv(e, s) && Deliverable(e, s, from, m) && l < |s.levels| && s.levels[l].Some?
    ensures
      var s' := Inject(e, s, from, m);
      && |s'.levels| == |s.levels| && s'.levels[l].Some? && Keeps(s.levels[l].value, s'.levels[l].value)
      && s.outbox <= s'.outbox
  {
    DeliverableIff(e, s, from, m);
    var (s1, kept) := HandleContribution(e, s, from, m);
    if kept {
      RunAggregationKeeps(e, s1, m.level, l);
    }
  }

  // ----- one level's turn -----

  /** The message level `l` sends when its turn comes. */
  function TurnMessage(s: State, l: nat): Message
    requires l < |s.levels| && s.levels[l].Some?
  {
    var lvl := s.levels[l].value;
    Message(l, OwnContribution(s), lvl.best.contribution, !lvl.completed)
  }

  /** The message as it goes to the peer at position `j` of the level. */
  ghost function TurnEnvelope(e: Env, s: State, l: nat, j: nat): Envelope
    requires Fits(e) && l < |s.levels| == |e.pp.cvp| && s.levels[l].Some? && j < |e.pp.cvp[l]|
  {
    assert e.pp.cvp[l][j] in e.pp.cvp[l];
    Envelope(e.pp.peers[e.pp.cvp[l][j]], TurnMessage(s, l))
  }

  function NextAt(e: Env, s: State, l: nat): Option<nat>
    requires l < |s.levels| == |e.pp.cvp| && s.levels[l].Some? && Contactable(e, l, s.levels[l].value)
  {
    NextContact(DoneAt(e.pp.cvp[l], s.completedLevels, l), s.levels[l].value.lastContacted)
  }

  /** Another level's turn. */
  lemma OtherTurn(e: Env, s: State, k: nat, l: nat)
    requires Fits(e) && 0 < k < |s.levels| == |e.pp.cvp| && AllContactable(e, s) && l < |s.levels| && k != l
    ensures
      var s' := DisseminateAt(e, s, k);
      s'.levels[l] == s.levels[l] && s'.levels[0] == s.levels[0] && s'.completedLevels == s.completedLevels
      && s.outbox <= s'.outbox
      && forall env :: env in s'.outbox[|s.outbox|..] ==> env.message.level == k
  {
    if s.levels[k].Some? {
      OwnTurn(e, s, k);
    }
  }

  /** The level's own turn: the nearest peer not done gets exactly one message. */
  lemma OwnTurn(e: Env, s: State, l: nat)
    requires Fits(e) && 0 < l < |s.levels| == |e.pp.cvp| && AllContactable(e, s) && s.levels[l].Some?
    ensures
      var s', next := DisseminateAt(e, s, l), NextAt(e, s, l);
      && s'.levels[l].Some? && s'.levels[0] == s.levels[0] && s'.completedLevels == s.completedLevels
      && s'.levels[l] == (if next.Some? then Some(Contacted(s.levels[l].value, next.value)) else s.levels[l])
      && s'.outbox == s.outbox + if next.Some? then [TurnEnvelope(e, s, l, next.value)] else []
  {
    var next := NextAt(e, s, l);
    if next.Some? {
      var p := e.pp.cvp[l][next.value];
      assert p in e.pp.cvp[l];
      SendAllReaches(e, [p], TurnMessage(s, l));
    }
  }

  /** What a dissemination round does to level `l`, from level `k` on. */
  ghost predicate Turned(e: Env, s: State, s': State, l: nat)
    requires Fits(e) && l < |s.levels| == |e.pp.cvp| && s.levels[l].Some? && Contactable(e, l, s.levels[l].value)
  {
    var next := NextAt(e, s, l);
    && |s'.levels| == |s.levels| && s.outbox <= s'.outbox
    && s'.levels[l] == (if next.Some? then Some(Contacted(s.levels[l].value, next.value)) else s.levels[l])
    && (next.Some? ==> TurnEnvelope(e, s, l, next.value) in s'.outbox[|s.outbox|..])
    && forall env :: env in s'.outbox[|s.outbox|..] && env.message.level == l ==>
         next.Some? && env == TurnEnvelope(e, s, l, next.value)
  }

  lemma {:induction false} LaterTurns(e: Env, s: State, k: nat, l: nat)
    requires Fits(e) && l < k <= |s.levels| == |e.pp.cvp| && AllContactable(e, s)
    ensures
      var s' := DisseminateFrom(e, s, k);
      && s'.levels[l] == s.levels[l] && s.outbox <= s'.outbox
      && forall env :: env in s'.outbox[|s.outbox|..] ==> env.message.level != l
    decreases |s.levels| - k
  {
    if k < |s.levels| {
      OtherTurn(e, s, k, l);
      var s1 := DisseminateAt(e, s, k);
      LaterTurns(e, s1, k + 1, l);
      var s' := DisseminateFrom(e, s1, k + 1);
      assert s'.outbox[|s.outbox|..] == s1.outbox[|s.outbox|..] + s'.outbox[|s1.outbox|..];
    }
  }

  lemma {:induction false} RoundTurns(e: Env, s: State, k: nat, l: nat)
    requires Fits(e) && 0 < k <= l < |s.levels| == |e.pp.cvp| && AllContactable(e, s) && s.levels[l].Some?
    ensures Turned(e, s, DisseminateFrom(e, s, k), l)
    decreases l - k
  {
    var s1 := DisseminateAt(e, s, k);
    var s' := DisseminateFrom(e, s1, k + 1);
    assert s' == DisseminateFrom(e, s, k);
    if k < l {
      OtherTurn(e, s, k, l);
      RoundTurns(e, s1, k + 1, l);
      assert NextAt(e, s1, l) == NextAt(e, s, l) && TurnMessage(s1, l) == TurnMessage(s, l);
    } else {
      OwnTurn(e, s, l);
      LaterTurns(e, s1, l + 1, l);
    }
    assert s'.outbox[|s.outbox|..] == s1.outbox[|s.outbox|..] + s'.outbox[|s1.outbox|..];
  }

  // ----- runs -----

  predicate IsCall(ev: Event) {
    ev.Poll? && ev.disseminate
  }

  ghost predicate ActiveAt(s: State, l: nat) {
    0 < l < |s.levels| && s.levels[l].Some?
  }

  /** Only a dissemination moves a level's contact position, and it moves it to the next contact. */
  lemma StepContacts(e: Env, s: State, ev: Event, l: nat)
    requires Inv(e, s) && Enabled(e, s, ev) && ActiveAt(s, l)
    ensures
      var s', last := Step(e, s, ev), s.levels[l].value.lastContacted;
      && Inv(e, s') && ActiveAt(s', l) && Contactable(e, l, s.levels[l].value)
      && s'.levels[l].value.lastContacted == (if IsCall(ev) && NextAt(e, s, l).Some? then NextAt(e, s, l) else last)
      && (s.levels[l].value.completed ==> s'.levels[l].value.best == s.levels[l].value.best)
  {
    StepOk(e, s, ev, {});
    InvContactable(e, s);
    match ev
    case Deliver(from, m) =>
      InjectKeeps(e, s, from, m, l);
    case Poll(disseminate, activate, ready) =>
      DisseminateOk(e, s, 1, {});
      var s1 := if disseminate then DisseminateFrom(e, s, 1) else s;
      if disseminate { RoundTurns(e, s, 1, l); }
      var next := NextNonActive(s1.levels);
      if activate && next.Some? { TryActivateKeeps(e, s1, next.value, l); }
  }

  /** Which peers of the level had reported at each dissemination of a run. */
  ghost function DonesOf(e: Env, s: State, events: seq<Event>, l: nat): seq<seq<bool>>
    requires Inv(e, s) && AllEnabled(e, s, events) && l < |e.pp.cvp|
    decreases |events|
  {
    if events == [] then []
    else
      StepOk(e, s, events[0], {});
      (if IsCall(events[0]) then [DoneAt(e.pp.cvp[l], s.completedLevels, l)] else [])
      + DonesOf(e, Step(e, s, events[0]), events[1..], l)
  }

  ghost predicate AtLeast(low: seq<bool>, dones: seq<seq<bool>>) {
    forall t, j :: 0 <= t < |dones| && 0 <= j < |low| ==> |dones[t]| == |low| && (low[j] ==> dones[t][j])
  }

  lemma DoneGrows(e: Env, a: State, b: State, l: nat)
    requires Progress(a, b) && l < |e.pp.cvp|
    ensures
      var low, high := DoneAt(e.pp.cvp[l], a.completedLevels, l), DoneAt(e.pp.cvp[l], b.completedLevels, l);
      forall j :: 0 <= j < |low| && low[j] ==> high[j]
  {
  }

  lemma GrowingCons(low: seq<bool>, dones: seq<seq<bool>>, n: nat)
    requires Growing(dones, n) && AtLeast(low, dones) && |low| == n
    ensures Growing([low] + dones, n) && ([low] + dones)[1..] == dones
  {
    var all := [low] + dones;
    forall t, u, j | 0 <= t < u < |all| && 0 <= j < n && all[t][j] ensures all[u][j] {
      assert all[u] == dones[u - 1];
      if t > 0 { assert all[t] == dones[t - 1]; }
    }
  }

  /** Along a run reports only add up. */
  lemma {:induction false} DonesGrow(e: Env, s: State, events: seq<Event>, l: nat)
    requires Inv(e, s) && AllEnabled(e, s, events) && l < |e.pp.cvp|
    ensures Growing(DonesOf(e, s, events, l), |e.pp.cvp[l]|)
    ensures AtLeast(DoneAt(e.pp.cvp[l], s.completedLevels, l), DonesOf(e, s, events, l))
    decreases |events|
  {
    if events != [] {
      StepOk(e, s, events[0], {});
      var s1 := Step(e, s, events[0]);
      DonesGrow(e, s1, events[1..], l);
      var low, rest := DoneAt(e.pp.cvp[l], s.completedLevels, l), DonesOf(e, s1, events[1..], l);
      DoneGrows(e, s, s1, l);
      assert AtLeast(low, rest);
      if IsCall(events[0]) {
        GrowingCons(low, rest, |e.pp.cvp[l]|);
      } else {
        assert DonesOf(e, s, events, l) == rest;
      }
    }
  }

  /** What a dissemination adds to the outbox. */
  ghost function NewlySent(e: Env, s: State): seq<Envelope>
    requires Inv(e, s)
  {
    InvContactable(e, s);
    var after := DisseminateFrom(e, s, 1).outbox;
    if s.outbox <= after then after[|s.outbox|..] else []
  }

  /** The event queues a message of level `l` for the peer at position `j`. */
  ghost predicate Queues(e: Env, s: State, ev: Event, l: nat, j: nat)
    requires Inv(e, s) && l < |e.pp.cvp| && j < |e.pp.cvp[l]|
  {
    IsCall(ev) && QueuedAmong(e, NewlySent(e, s), l, j)
  }

  ghost predicate QueuedAmong(e: Env, sent: seq<Envelope>, l: nat, j: nat)
    requires Fits(e) && l < |e.pp.cvp| && j < |e.pp.cvp[l]|
  {
    assert e.pp.cvp[l][j] in e.pp.cvp[l];
    exists env :: env in sent && env.to == e.pp.peers[e.pp.cvp[l][j]] && env.message.level == l
  }

  /** A dissemination queues a message for a position exactly when that is the level's next contact. */
  lemma QueuesIff(e: Env, s: State, ev: Event, l: nat, j: nat)
    requires Inv(e, s) && ActiveAt(s, l) && j < |e.pp.cvp[l]| && Contactable(e, l, s.levels[l].value)
    ensures IsCall(ev) && NextAt(e, s, l) == Some(j) ==> Queues(e, s, ev, l, j)
    ensures Queues(e, s, ev, l, j) && Distinct(e.pp.peers) && Distinct(e.pp.cvp[l]) ==>
              IsCall(ev) && NextAt(e, s, l) == Some(j)
  {
    InvContactable(e, s);
    RoundTurns(e, s, 1, l);
    if NextAt(e, s, l) == Some(j) {
      assert TurnEnvelope(e, s, l, j) in NewlySent(e, s);
    }
    if Queues(e, s, ev, l, j) && Distinct(e.pp.peers) && Distinct(e.pp.cvp[l]) {
      OnlyNextQueued(e, s, NewlySent(e, s), l, j);
    }
  }

  lemma OnlyNextQueued(e: Env, s: State, sent: seq<Envelope>, l: nat, j: nat)
    requires Fits(e) && ActiveAt(s, l) && |s.levels| == |e.pp.cvp| && j < |e.pp.cvp[l]| && Contactable(e, l, s.levels[l].value)
    requires forall env :: env in sent && env.message.level == l ==>
               NextAt(e, s, l).Some? && env == TurnEnvelope(e, s, l, NextAt(e, s, l).value)
    requires QueuedAmong(e, sent, l, j) && Distinct(e.pp.peers) && Distinct(e.pp.cvp[l])
    ensures NextAt(e, s, l) == Some(j)
  {
    assert e.pp.cvp[l][j] in e.pp.cvp[l];
    var env :| env in sent && env.to == e.pp.peers[e.pp.cvp[l][j]] && env.message.level == l;
    var next := NextAt(e, s, l).value;
    assert e.pp.cvp[l][next] in e.pp.cvp[l];
    assert e.pp.peers[e.pp.cvp[l][next]] == e.pp.peers[e.pp.cvp[l][j]];
  }

  /** Some event of the run does. */
  ghost predicate QueuedInRun(e: Env, s: State, events: seq<Event>, l: nat, j: nat)
    requires Inv(e, s) && AllEnabled(e, s, events) && l < |e.pp.cvp| && j < |e.pp.cvp[l]|
    decreases |events|
  {
    events != [] &&
    (Queues(e, s, events[0], l, j) ||
     (StepOk(e, s, events[0], {}); QueuedInRun(e, Step(e, s, events[0]), events[1..], l, j)))
  }

  /** The round robin over the completion reports of a run is what the run does. */
  lemma {:induction false} RunContacts(e: Env, s: State, events: seq<Event>, l: nat, j: nat)
    requires Inv(e, s) && AllEnabled(e, s, events) && ActiveAt(s, l) && j < |e.pp.cvp[l]|
    ensures Growing(DonesOf(e, s, events, l), |e.pp.cvp[l]|) && InRange(s.levels[l].value.lastContacted, |e.pp.cvp[l]|)
    ensures
      var contacted := EventuallyContacts(DonesOf(e, s, events, l), |e.pp.cvp[l]|, s.levels[l].value.lastContacted, j);
      && (contacted ==> QueuedInRun(e, s, events, l, j))
      && (QueuedInRun(e, s, events, l, j) && Distinct(e.pp.peers) && Distinct(e.pp.cvp[l]) ==> contacted)
    decreases |events|
  {
    DonesGrow(e, s, events, l);
    InvContactable(e, s);
    if events != [] {
      StepContacts(e, s, events[0], l);
      QueuesIff(e, s, events[0], l, j);
      var s1 := Step(e, s, events[0]);
      RunContacts(e, s1, events[1..], l, j);
      var rest := DonesOf(e, s1, events[1..], l);
      if IsCall(events[0]) {
        assert DonesOf(e, s, events, l)[1..] == rest;
        EventuallyUnrolled(DonesOf(e, s, events, l), |e.pp.cvp[l]|, s.levels[l].value.lastContacted, j);
      } else {
        assert DonesOf(e, s, events, l) == rest;
      }
    }
  }

  ghost predicate ReportedAt(e: Env, s: State, l: nat, j: nat)
    requires l < |e.pp.cvp| && j < |e.pp.cvp[l]|
  {
    ReportedComplete(s.completedLevels, e.pp.cvp[l][j], l)
  }

  /** A report seen at a dissemination still stands at the end of the run. */
  lemma {:induction false} ReportLasts(e: Env, s: State, events: seq<Event>, l: nat, t: nat, j: nat)
    requires Inv(e, s) && AllEnabled(e, s, events) && l < |e.pp.cvp| && j < |e.pp.cvp[l]|
    requires var ds := DonesOf(e, s, events, l); t < |ds| && j < |ds[t]| && ds[t][j]
    ensures ReportedAt(e, Run(e, s, events), l, j)
    decreases |events|
  {
    StepOk(e, s, events[0], {});
    var s1 := Step(e, s, events[0]);
    var rest := DonesOf(e, s1, events[1..], l);
    if IsCall(events[0]) && t == 0 {
      RunProgress(e, s, events);
    } else if IsCall(events[0]) {
      assert DonesOf(e, s, events, l)[t] == rest[t - 1];
      ReportLasts(e, s1, events[1..], l, t - 1, j);
    } else {
      assert DonesOf(e, s, events, l) == rest;
      ReportLasts(e, s1, events[1..], l, t, j);
    }
  }

  lemma RunProgress(e: Env, s: State, events: seq<Event>)
    requires Inv(e, s) && AllEnabled(e, s, events)
    ensures Progress(s, Run(e, s, events))
  {
    RunOk(e, s, events, {});
  }

  /** From any state in which a level has a last contact, over any run with as many disseminations as the
      level has peers: every peer gets a message of the level, or has reported it complete. */
  lemma RoundRobinOverRun(e: Env, s: State, events: seq<Event>, l: nat, j: nat)
    requires Inv(e, s) && AllEnabled(e, s, events) && ActiveAt(s, l) && j < |e.pp.cvp[l]|
    requires s.levels[l].value.lastContacted.Some? && |DonesOf(e, s, events, l)| >= |e.pp.cvp[l]|
    ensures QueuedInRun(e, s, events, l, j) || ReportedAt(e, Run(e, s, events), l, j)
  {
    var n := |e.pp.cvp[l]|;
    RunContacts(e, s, events, l, j);
    RoundRobinFair(DonesOf(e, s, events, l), n, s.levels[l].value.lastContacted.value, j);
    if DonesOf(e, s, events, l)[n - 1][j] {
      ReportLasts(e, s, events, l, n - 1, j);
    }
  }

  /** Every peer of the level got a message in the run or had reported completion at its end. */
  ghost predicate ServedInRun(e: Env, s: State, events: seq<Event>, l: nat)
    requires Inv(e, s) && AllEnabled(e, s, events) && l < |e.pp.cvp|
  {
    forall j: nat :: j < |e.pp.cvp[l]| ==> QueuedInRun(e, s, events, l, j) || ReportedAt(e, Run(e, s, events), l, j)
  }

  ghost predicate AllReported(e: Env, s: State, l: nat)
    requires l < |e.pp.cvp|
  {
    forall j: nat :: j < |e.pp.cvp[l]| ==> ReportedAt(e, s, l, j)
  }

  /** A level at its start: active, never contacted anyone, its peers distinct. */
  ghost predicate Unstarted(e: Env, s: State, l: nat)
    requires |s.levels| == |e.pp.cvp|
  {
    ActiveAt(s, l) && s.levels[l].value.lastContacted.None? && Distinct(e.pp.peers) && Distinct(e.pp.cvp[l])
  }

  lemma StartServes(e: Env, s: State, events: seq<Event>, l: nat, j: nat)
    requires Inv(e, s) && AllEnabled(e, s, events) && Unstarted(e, s, l) && j < |e.pp.cvp[l]|
    requires Growing(DonesOf(e, s, events, l), |e.pp.cvp[l]|) && |DonesOf(e, s, events, l)| >= |e.pp.cvp[l]|
    requires !DonesOf(e, s, events, l)[0][0]
    ensures QueuedInRun(e, s, events, l, j) || ReportedAt(e, Run(e, s, events), l, j)
  {
    var ds := DonesOf(e, s, events, l);
    if ds[|ds| - 1][j] {
      ReportLasts(e, s, events, l, |ds| - 1, j);
    } else {
      ServedFromStart(ds, |e.pp.cvp[l]|, j);
      RunContacts(e, s, events, l, j);
    }
  }

  lemma StartStuck(e: Env, s: State, events: seq<Event>, l: nat, j: nat)
    requires Inv(e, s) && AllEnabled(e, s, events) && Unstarted(e, s, l) && j < |e.pp.cvp[l]|
    requires var ds := DonesOf(e, s, events, l); Growing(ds, |e.pp.cvp[l]|) && ds != [] && ds[0][0]
    ensures !QueuedInRun(e, s, events, l, j)
  {
    RunContacts(e, s, events, l, j);
    StuckContactsNobody(DonesOf(e, s, events, l), |e.pp.cvp[l]|, j);
  }

  /** Dissemination queues nothing, for anyone and in any run, at a level whose first peer has reported before any
      contact.  The fast path of a level that completes later is not dissemination. */
  lemma StuckOverRun(e: Env, s: State, events: seq<Event>, l: nat, j: nat)
    requires Inv(e, s) && AllEnabled(e, s, events) && Unstarted(e, s, l) && j < |e.pp.cvp[l]| && ReportedAt(e, s, l, 0)
    ensures !QueuedInRun(e, s, events, l, j)
  {
    var ds := DonesOf(e, s, events, l);
    RunContacts(e, s, events, l, j);
    DonesGrow(e, s, events, l);
    if ds != [] {
      assert DoneAt(e.pp.cvp[l], s.completedLevels, l)[0];
      assert ds[0][0];
      StuckContactsNobody(ds, |e.pp.cvp[l]|, j);
    }
  }

  /** From the start of a level, over any run with as many disseminations as it has peers: everyone is served
      exactly when the first peer has not reported at the first dissemination, or all have in the end. */
  lemma FairFromStartOverRun(e: Env, s: State, events: seq<Event>, l: nat)
    requires Inv(e, s) && AllEnabled(e, s, events) && Unstarted(e, s, l) && e.pp.cvp[l] != []
    requires |DonesOf(e, s, events, l)| >= |e.pp.cvp[l]|
    ensures Growing(DonesOf(e, s, events, l), |e.pp.cvp[l]|)
    ensures ServedInRun(e, s, events, l) <==> !DonesOf(e, s, events, l)[0][0] || AllReported(e, Run(e, s, events), l)
  {
    DonesGrow(e, s, events, l);
    if DonesOf(e, s, events, l)[0][0] {
      forall j: nat | j < |e.pp.cvp[l]| ensures !QueuedInRun(e, s, events, l, j) { StartStuck(e, s, events, l, j); }
    } else {
      forall j: nat | j < |e.pp.cvp[l]|
        ensures QueuedInRun(e, s, events, l, j) || ReportedAt(e, Run(e, s, events), l, j)
      {
        StartServes(e, s, events, l, j);
      }
    }
  }

  // ----- what is frozen -----

  /** A completed level keeps its best for the rest of the run. */
  lemma {:induction false} CompletedFrozen(e: Env, s: State, events: seq<Event>, l: nat)
    requires Inv(e, s) && AllEnabled(e, s, events) && ActiveAt(s, l) && s.levels[l].value.completed
    ensures
      var s' := Run(e, s, events);
      ActiveAt(s', l) && s'.levels[l].value.completed && s'.levels[l].value.best == s.levels[l].value.best
    decreases |events|
  {
    if events != [] {
      StepContacts(e, s, events[0], l);
      StepOk(e, s, events[0], {});
      CompletedFrozen(e, Step(e, s, events[0]), events[1..], l);
    }
  }

  lemma StepKeepsOwn(e: Env, s: State, ev: Event)
    requires Inv(e, s) && Enabled(e, s, ev) && s.levels[0].value.completed
    ensures Inv(e, Step(e, s, ev)) && Step(e, s, ev).levels[0] == s.levels[0]
  {
    StepOk(e, s, ev, {});
    InvContactable(e, s);
    match ev
    case Deliver(from, m) =>
      InjectKeeps(e, s, from, m, 0);
    case Poll(disseminate, activate, ready) =>
      var s1 := if disseminate then DisseminateFrom(e, s, 1) else s;
      if disseminate { LaterTurns(e, s, 1, 0); }
      var next := NextNonActive(s1.levels);
      if activate && next.Some? { TryActivateKeeps(e, s1, next.value, 0); }
  }

  lemma {:induction false} RunKeepsOwn(e: Env, s: State, events: seq<Event>)
    requires Inv(e, s) && AllEnabled(e, s, events) && s.levels[0].value.completed
    ensures Run(e, s, events).levels[0] == s.levels[0]
    decreases |events|
  {
    if events != [] {
      StepKeepsOwn(e, s, events[0]);
      RunKeepsOwn(e, Step(e, s, events[0]), events[1..]);
    }
  }

  /** What a node sends as its own contribution is, after any run, the one it started with. */
  lemma OwnNeverChanges(e: Env, own: Contrib, events: seq<Event>)
    requires Starts(e, own) && CanSee(e, own, events)
    ensures OwnContribution(After(e, own, events)) == Some(own)
  {
    InitialOk(e, own, {});
    RunKeepsOwn(e, Initial(e, own), events);
  }
}
