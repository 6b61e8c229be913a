/** A group of honest hosts that the rest of the network has stopped serving never completes. */
module HandelJam {
  import opened Prelude
  import opened Partitioning
  import opened Contributions
  import opened HandelSpec
  import opened HandelSafety
  import opened HandelDissemination
  import opened HandelFairness
  import opened HandelHonest
  import opened HandelNetwork

  // ----- one host -----

  /** What is queued for the group at level `l` stays within the lesser world's contributions. */
  ghost predicate Quiet(v: World, l: nat, group: set<PeerId>, outbox: seq<Envelope>) {
    forall env :: env in outbox && env.message.level == l && env.to in group ==> HonestMessage(v, env.message)
  }

  /** The level leads to nobody of the group. */
  ghost predicate Apart(e: Env, l: nat, group: set<PeerId>)
    requires l < |e.pp.cvp|
  {
    forall j :: j in e.pp.cvp[l] && j < |e.pp.peers| ==> e.pp.peers[j] !in group
  }

  /** The level is open and knows of the lesser world only. */
  ghost predicate Held(v: World, s: State, l: nat)
    requires 0 < l < |s.levels| == |s.pending|
  {
    && s.levels[l].Some? && !s.levels[l].value.completed && Part(s.levels[l].value.best.contribution, v.truth)
    && HonestWaiting(v, s.pending[l])
    && LevelCompleted(s.levels[0]) && Part(s.levels[0].value.best.contribution, v.truth)
  }

  /** The level is completed and stuck: it has contacted nobody and its first peer has reported. */
  ghost predicate Mute(e: Env, s: State, l: nat)
    requires l < |s.levels| == |e.pp.cvp|
  {
    && LevelCompleted(s.levels[l]) && s.levels[l].value.lastContacted.None?
    && e.pp.cvp[l] != [] && ReportedComplete(s.completedLevels, e.pp.cvp[l][0], l)
  }

  lemma {:induction false} SendAllTo(e: Env, targets: seq<nat>, m: Message)
    ensures forall env :: env in SendAll(e, targets, m) ==>
              env.message == m && exists t :: t in targets && t < |e.pp.peers| && env.to == e.pp.peers[t]
  {
    if targets != [] { SendAllTo(e, targets[1..], m); }
  }

  lemma SentQuiet(v: World, e: Env, l: nat, group: set<PeerId>, outbox: seq<Envelope>, targets: seq<nat>, m: Message)
    requires Quiet(v, l, group, outbox)
    requires m.level != l || HonestMessage(v, m) || forall t :: t in targets && t < |e.pp.peers| ==> e.pp.peers[t] !in group
    ensures Quiet(v, l, group, outbox + SendAll(e, targets, m))
  {
    SendAllTo(e, targets, m);
  }

  lemma FastPathQuiet(v: World, e: Env, s: State, level: nat, l: nat, group: set<PeerId>)
    requires level < |s.levels| == |e.pp.cvp| && l < |e.pp.cvp| && Quiet(v, l, group, s.outbox)
    requires s.levels[level].Some? && e.pp.cvp[level] == [] ==> e.conf.fastPathWindow == 0
    requires level != l || Apart(e, l, group)
    ensures Quiet(v, l, group, RunFastPath(e, s, level).outbox)
  {
    if s.levels[level].Some? {
      var lvl := s.levels[level].value;
      var offset := Offset(lvl.lastContacted);
      var targets := FastPathTargets(e.pp.cvp[level], s.completedLevels, level, offset, e.conf.fastPathWindow);
      forall t | t in targets ensures t in e.pp.cvp[level] {
        FastPathExact(e.pp.cvp[level], s.completedLevels, level, offset, e.conf.fastPathWindow, t);
      }
      SentQuiet(v, e, l, group, s.outbox, targets, Message(level, OwnContribution(s), lvl.best.contribution, false));
    }
  }

  // ----- its turns -----

  lemma TurnApart(v: World, e: Env, s: State, k: nat, l: nat, group: set<PeerId>)
    requires 0 < k < |s.levels| == |e.pp.cvp| && l < |e.pp.cvp| && AllContactable(e, s)
    requires Quiet(v, l, group, s.outbox) && (k != l || Apart(e, l, group))
    ensures Quiet(v, l, group, DisseminateAt(e, s, k).outbox)
  {
    if s.levels[k].Some? {
      var lvl, peers := s.levels[k].value, e.pp.cvp[k];
      var next := NextContact(DoneAt(peers, s.completedLevels, k), lvl.lastContacted);
      if next.Some? {
        SentQuiet(v, e, l, group, s.outbox, [peers[next.value]], Message(k, OwnContribution(s), lvl.best.contribution, !lvl.completed));
      }
    }
  }

  lemma TurnHeld(v: World, e: Env, s: State, k: nat, l: nat, group: set<PeerId>)
    requires 0 < k < |s.levels| == |e.pp.cvp| == |s.pending| && 0 < l < |e.pp.cvp| && l <= v.k && AllContactable(e, s)
    requires Quiet(v, l, group, s.outbox) && Held(v, s, l)
    ensures var s' := DisseminateAt(e, s, k); Quiet(v, l, group, s'.outbox) && Held(v, s', l)
  {
    if k != l {
      TurnApart(v, e, s, k, l, group);
    } else {
      var lvl, peers := s.levels[l].value, e.pp.cvp[l];
      var next := NextContact(DoneAt(peers, s.completedLevels, l), lvl.lastContacted);
      if next.Some? {
        SentQuiet(v, e, l, group, s.outbox, [peers[next.value]], Message(l, OwnContribution(s), lvl.best.contribution, !lvl.completed));
      }
    }
  }

  lemma TurnMute(v: World, e: Env, s: State, k: nat, l: nat, group: set<PeerId>)
    requires 0 < k < |s.levels| == |e.pp.cvp| && l < |e.pp.cvp| && AllContactable(e, s)
    requires Quiet(v, l, group, s.outbox) && Mute(e, s, l)
    ensures var s' := DisseminateAt(e, s, k); Quiet(v, l, group, s'.outbox) && Mute(e, s', l)
  {
    if k != l { TurnApart(v, e, s, k, l, group); }
  }

  lemma {:induction false} RoundApart(v: World, e: Env, s: State, k: nat, l: nat, group: set<PeerId>)
    requires 0 < k <= |s.levels| == |e.pp.cvp| && l < |e.pp.cvp| && AllContactable(e, s)
    requires Quiet(v, l, group, s.outbox) && Apart(e, l, group)
    ensures Quiet(v, l, group, DisseminateFrom(e, s, k).outbox)
    decreases |s.levels| - k
  {
    if k < |s.levels| {
      TurnApart(v, e, s, k, l, group);
      RoundApart(v, e, DisseminateAt(e, s, k), k + 1, l, group);
    }
  }

  lemma {:induction false} RoundHeld(v: World, e: Env, s: State, k: nat, l: nat, group: set<PeerId>)
    requires 0 < k <= |s.levels| == |e.pp.cvp| == |s.pending| && 0 < l < |e.pp.cvp| && l <= v.k && AllContactable(e, s)
    requires Quiet(v, l, group, s.outbox) && Held(v, s, l)
    ensures var s' := DisseminateFrom(e, s, k); Quiet(v, l, group, s'.outbox) && Held(v, s', l)
    decreases |s.levels| - k
  {
    if k < |s.levels| {
      TurnHeld(v, e, s, k, l, group);
      RoundHeld(v, e, DisseminateAt(e, s, k), k + 1, l, group);
    }
  }

  lemma {:induction false} RoundMute(v: World, e: Env, s: State, k: nat, l: nat, group: set<PeerId>)
    requires 0 < k <= |s.levels| == |e.pp.cvp| && l < |e.pp.cvp| && AllContactable(e, s)
    requires Quiet(v, l, group, s.outbox) && Mute(e, s, l)
    ensures var s' := DisseminateFrom(e, s, k); Quiet(v, l, group, s'.outbox) && Mute(e, s', l)
    decreases |s.levels| - k
  {
    if k < |s.levels| {
      TurnMute(v, e, s, k, l, group);
      RoundMute(v, e, DisseminateAt(e, s, k), k + 1, l, group);
    }
  }

  // ----- its aggregations -----

  lemma CompletionApart(v: World, e: Env, s: State, level: nat, l: nat, group: set<PeerId>)
    requires Indexed(e, s) && level < |s.levels| && l < |s.levels| && Quiet(v, l, group, s.outbox)
    requires s.levels[level].Some? && e.pp.cvp[level] == [] ==> e.conf.fastPathWindow == 0
    requires level != l || Apart(e, l, group)
    ensures Quiet(v, l, group, TryActivate(e, RunFastPath(e, s, level), level + 1).outbox)
  {
    FastPathQuiet(v, e, s, level, l, group);
    ActivateSame(e, RunFastPath(e, s, level), level + 1);
  }

  lemma AggregationApart(v: World, e: Env, s: State, level: nat, l: nat, group: set<PeerId>)
    requires Indexed(e, s) && level < |s.levels| && l < |s.levels| && AggregationReady(e, s, level)
    requires Quiet(v, l, group, s.outbox) && (level != l || Apart(e, l, group))
    ensures Quiet(v, l, group, RunAggregation(e, s, level).outbox)
  {
    if s.levels[level].Some? && s.pending[level] != map[] {
      var (s1, lvl) := Aggregate(e, s, level, s.levels[level].value);
      if IsComplete(|lvl.best.contribution|, level, e.conf.threshold) {
        CompletionApart(v, e, s1, level, l, group);
      }
    }
  }

  ghost predicate AggregationReady(e: Env, s: State, level: nat)
    requires Indexed(e, s) && level < |s.levels|
  {
    e.conf.shrinkFactor > 0 && e.conf.threshold.denom > 0 && AggregationSafe(e, s, level)
  }

  /** An aggregation of another level leaves this one and what waits for it alone. */
  lemma AggregationOther(e: Env, s: State, level: nat, l: nat)
    requires Indexed(e, s) && level < |s.levels| && l < |s.levels| && AggregationReady(e, s, level)
    requires level != l && s.levels[l].Some?
    ensures
      var s' := RunAggregation(e, s, level);
      && |s'.levels| == |s.levels| == |s'.pending| && s'.levels[l] == s.levels[l] && s'.pending[l] == s.pending[l]
      && s'.completedLevels == s.completedLevels
  {
    if s.levels[level].Some? && s.pending[level] != map[] {
      AggregateOther(e, s, level, l);
      var (s1, lvl) := Aggregate(e, s, level, s.levels[level].value);
      if IsComplete(|lvl.best.contribution|, level, e.conf.threshold) { CompletionOther(e, s1, level, l); }
    }
  }

  lemma CompletionOther(e: Env, s: State, level: nat, l: nat)
    requires Indexed(e, s) && level < |s.levels| && l < |s.levels| && s.levels[l].Some?
    requires s.levels[level].Some? && e.pp.cvp[level] == [] ==> e.conf.fastPathWindow == 0
    ensures
      var s' := TryActivate(e, RunFastPath(e, s, level), level + 1);
      && |s'.levels| == |s.levels| == |s'.pending| && s'.levels[l] == s.levels[l] && s'.pending[l] == s.pending[l]
      && s'.completedLevels == s.completedLevels
  {
    TryActivateKeeps(e, RunFastPath(e, s, level), level + 1, l);
  }

  lemma AggregateOther(e: Env, s: State, level: nat, l: nat)
    requires Indexed(e, s) && level < |s.levels| && l < |s.levels| && level != l && s.levels[level].Some?
    requires e.conf.shrinkFactor > 0 && e.conf.threshold.denom > 0
    ensures
      var s1 := Aggregate(e, s, level, s.levels[level].value).0;
      && Indexed(e, s1) && s1.levels[l] == s.levels[l] && s1.pending[l] == s.pending[l]
      && s1.completedLevels == s.completedLevels
  {
  }

  /** An aggregation that knows and hears of the lesser world only stays in it. */
  lemma AggregateWithin(v: World, e: Env, s: State, l: nat)
    requires Inv(e, s) && l < |s.levels| && s.levels[l].Some? && Part(s.levels[l].value.best.contribution, v.truth)
    requires HonestWaiting(v, s.pending[l]) && Verifies(e.valid, v.truth)
    ensures
      var (s', lvl) := Aggregate(e, s, l, s.levels[l].value);
      Part(lvl.best.contribution, v.truth) && HonestWaiting(v, s'.pending[l])
  {
    var lvl := s.levels[l].value;
    assert LevelOk(e, l, lvl);
    PickedHonest(v, e.pp.vp[l], s.pending[l], s.window);
    var picked := Prioritize(e.pp.vp[l], s.pending[l], [], s.window).0;
    HonestBest(e, v, lvl, s.banned, s.window, picked);
  }

  /** An aggregation of a held level stays in the lesser world, below the threshold. */
  lemma AggregationHeld(v: World, e: Env, s: State, l: nat)
    requires Inv(e, s) && 0 < l < |s.levels| && AggregationReady(e, s, l) && Held(v, s, l)
    requires Verifies(e.valid, v.truth) && |v.truth| < e.conf.threshold.Min(Pow2(l))
    ensures
      var s' := RunAggregation(e, s, l);
      Indexed(e, s') && Held(v, s', l) && s'.outbox == s.outbox && s'.completedLevels == s.completedLevels
  {
    if s.pending[l] != map[] {
      AggregateWithin(v, e, s, l);
      PartWeighs(Aggregate(e, s, l, s.levels[l].value).1.best.contribution, v.truth);
    }
  }

  // ----- its events -----

  lemma InjectApart(v: World, e: Env, s: State, from: PeerId, m: Message, l: nat, group: set<PeerId>)
    requires Inv(e, s) && Deliverable(e, s, from, m) && l < |s.levels|
    requires Quiet(v, l, group, s.outbox) && Apart(e, l, group)
    ensures Quiet(v, l, group, Inject(e, s, from, m).outbox)
  {
    DeliverableIff(e, s, from, m);
    var (s1, kept) := HandleContribution(e, s, from, m);
    if kept { AggregationApart(v, e, s1, m.level, l, group); }
  }

  /** A message of another level, or one from the lesser world, leaves the level held. */
  lemma InjectHeld(v: World, e: Env, s: State, from: PeerId, m: Message, l: nat, group: set<PeerId>)
    requires Inv(e, s) && Deliverable(e, s, from, m) && 0 < l < |s.levels|
    requires Verifies(e.valid, v.truth) && |v.truth| < e.conf.threshold.Min(Pow2(l))
    requires Quiet(v, l, group, s.outbox) && Held(v, s, l) && (m.level == l ==> HonestMessage(v, m))
    ensures
      var s' := Inject(e, s, from, m);
      Indexed(e, s') && Quiet(v, l, group, s'.outbox) && Held(v, s', l)
  {
    DeliverableIff(e, s, from, m);
    HandleInv(e, s, from, m);
    var (s1, kept) := HandleContribution(e, s, from, m);
    assert Held(v, s1, l);
    if kept && m.level == l {
      AggregationHeld(v, e, s1, l);
    } else if kept {
      AggregationApart(v, e, s1, m.level, l, group);
      AggregationOther(e, s1, m.level, l);
      AggregationOther(e, s1, m.level, 0);
    }
  }

  lemma HandleInv(e: Env, s: State, from: PeerId, m: Message)
    requires Inv(e, s) && (from in e.pp.peers ==> m.level < |s.levels|)
    ensures Inv(e, HandleContribution(e, s, from, m).0)
  {
    HandleOk(e, s, from, m, {});
  }

  lemma InjectMute(v: World, e: Env, s: State, from: PeerId, m: Message, l: nat, group: set<PeerId>)
    requires Inv(e, s) && Deliverable(e, s, from, m) && 0 < l < |s.levels|
    requires Quiet(v, l, group, s.outbox) && Mute(e, s, l)
    ensures
      var s' := Inject(e, s, from, m);
      Indexed(e, s') && Quiet(v, l, group, s'.outbox) && Mute(e, s', l)
  {
    DeliverableIff(e, s, from, m);
    var (s1, kept) := HandleContribution(e, s, from, m);
    if kept {
      AggregationApart(v, e, s1, m.level, l, group);
      AggregationOther(e, s1, m.level, l);
    }
  }

  lemma TickApart(v: World, e: Env, s: State, disseminate: bool, activate: bool, l: nat, group: set<PeerId>)
    requires Inv(e, s) && l < |s.levels| && Quiet(v, l, group, s.outbox) && Apart(e, l, group)
    ensures Quiet(v, l, group, Tick(e, s, disseminate, activate).outbox)
  {
    InvContactable(e, s);
    DisseminateOk(e, s, 1, {});
    RoundApart(v, e, s, 1, l, group);
    var s1 := if disseminate then DisseminateFrom(e, s, 1) else s;
    var next := NextNonActive(s1.levels);
    if activate && next.Some? { ActivateSame(e, s1, next.value); }
  }

  lemma TickHeld(v: World, e: Env, s: State, disseminate: bool, activate: bool, l: nat, group: set<PeerId>)
    requires Inv(e, s) && 0 < l < |s.levels| && l <= v.k && Quiet(v, l, group, s.outbox) && Held(v, s, l)
    ensures var s' := Tick(e, s, disseminate, activate); Indexed(e, s') && Quiet(v, l, group, s'.outbox) && Held(v, s', l)
  {
    InvContactable(e, s);
    DisseminateOk(e, s, 1, {});
    RoundHeld(v, e, s, 1, l, group);
    var s1 := if disseminate then DisseminateFrom(e, s, 1) else s;
    var next := NextNonActive(s1.levels);
    if activate && next.Some? {
      TryActivateKeeps(e, s1, next.value, l);
      TryActivateKeeps(e, s1, next.value, 0);
    }
  }

  lemma TickMute(v: World, e: Env, s: State, disseminate: bool, activate: bool, l: nat, group: set<PeerId>)
    requires Inv(e, s) && 0 < l < |s.levels| && Quiet(v, l, group, s.outbox) && Mute(e, s, l)
    ensures var s' := Tick(e, s, disseminate, activate); Indexed(e, s') && Quiet(v, l, group, s'.outbox) && Mute(e, s', l)
  {
    InvContactable(e, s);
    DisseminateOk(e, s, 1, {});
    RoundMute(v, e, s, 1, l, group);
    var s1 := if disseminate then DisseminateFrom(e, s, 1) else s;
    var next := NextNonActive(s1.levels);
    if activate && next.Some? { TryActivateKeeps(e, s1, next.value, l); }
  }

  // ----- the network -----

  /** `v` is `w` with less known: too little for the threshold of level `l`. */
  ghost predicate Lesser(v: World, w: World, l: nat) {
    && v == w.(truth := v.truth) && Part(v.truth, w.truth) && 0 < l <= w.k
    && forall i: nat :: i < |w.envs| ==>
         w.envs[i].conf.threshold.denom > 0 && |v.truth| < w.envs[i].conf.threshold.Min(Pow2(l))
  }

  /** Hosts of the group are held, every other host is apart from it or mute, and so is all that is queued. */
  ghost predicate JamAt(w: World, v: World, s: State, i: nat, l: nat, group: set<PeerId>)
    requires Addressed(w) && i < |w.envs|
  {
    && 0 < l && Indexed(w.envs[i], s) && l < |s.levels| && Quiet(v, l, group, s.outbox)
    && (if w.envs[0].pp.peers[i] in group then Held(v, s, l) else Apart(w.envs[i], l, group) || Mute(w.envs[i], s, l))
  }

  ghost predicate QuietSent(v: World, l: nat, group: set<PeerId>, sent: set<Packet>) {
    forall p :: p in sent && p.message.level == l && p.to in group ==> HonestMessage(v, p.message)
  }

  ghost predicate Jammed(w: World, v: World, n: Net, l: nat, group: set<PeerId>) {
    && Addressed(w) && |n.nodes| == |w.envs| && QuietSent(v, l, group, n.sent)
    && forall i: nat :: i < |w.envs| ==> JamAt(w, v, n.nodes[i], i, l, group)
  }

  lemma JamInject(w: World, v: World, s: State, i: nat, from: PeerId, m: Message, l: nat, group: set<PeerId>)
    requires Addressed(w) && i < |w.envs| && JamAt(w, v, s, i, l, group)
    requires Inv(w.envs[i], s) && Deliverable(w.envs[i], s, from, m)
    requires Verifies(w.envs[i].valid, v.truth) && |v.truth| < w.envs[i].conf.threshold.Min(Pow2(l))
    requires w.envs[0].pp.peers[i] in group && m.level == l ==> HonestMessage(v, m)
    ensures JamAt(w, v, Inject(w.envs[i], s, from, m), i, l, group)
  {
    var e := w.envs[i];
    if w.envs[0].pp.peers[i] in group {
      InjectHeld(v, e, s, from, m, l, group);
    } else if Mute(e, s, l) {
      InjectMute(v, e, s, from, m, l, group);
    } else {
      InjectApart(v, e, s, from, m, l, group);
      InjectIndexed(e, s, from, m);
    }
  }

  lemma InjectIndexed(e: Env, s: State, from: PeerId, m: Message)
    requires Inv(e, s) && Deliverable(e, s, from, m)
    ensures Indexed(e, Inject(e, s, from, m))
  {
    InjectOk(e, s, from, m, {});
  }

  lemma JamTick(w: World, v: World, s: State, i: nat, disseminate: bool, activate: bool, l: nat, group: set<PeerId>)
    requires Addressed(w) && i < |w.envs| && JamAt(w, v, s, i, l, group) && l <= v.k && Inv(w.envs[i], s)
    ensures JamAt(w, v, Tick(w.envs[i], s, disseminate, activate), i, l, group)
  {
    var e := w.envs[i];
    if w.envs[0].pp.peers[i] in group {
      TickHeld(v, e, s, disseminate, activate, l, group);
    } else if Mute(e, s, l) {
      TickMute(v, e, s, disseminate, activate, l, group);
    } else {
      TickApart(v, e, s, disseminate, activate, l, group);
      TickOk(e, s, disseminate, activate, {});
    }
  }

  lemma JamPop(w: World, v: World, s: State, i: nat, l: nat, group: set<PeerId>)
    requires Addressed(w) && i < |w.envs| && JamAt(w, v, s, i, l, group)
    ensures
      var (s', r) := PopOutbox(s);
      && JamAt(w, v, s', i, l, group)
      && (r.Send? && r.envelope.message.level == l && r.envelope.to in group ==> HonestMessage(v, r.envelope.message))
  {
  }

  lemma DeliverJam(w: World, v: World, a: Net, b: Net, act: Act, l: nat, group: set<PeerId>)
    requires WellFormed(w) && Lesser(v, w, l) && Jammed(w, v, a, l, group) && NetStep(w, a, b, act) && act.ev.Deliver?
    ensures JamAt(w, v, b.nodes[act.host], act.host, l, group)
  {
    var i, m, from := act.host, act.ev.message, act.ev.from;
    assert JamAt(w, v, a.nodes[i], i, l, group) && HostFits(w, i);
    PartVerifies(w.envs[i].valid, v.truth, w.truth);
    var j: nat :| j < |w.envs| && from == w.envs[0].pp.peers[j] && Packet(j, w.envs[0].pp.peers[i], m) in a.sent;
    JamInject(w, v, a.nodes[i], i, from, m, l, group);
  }

  lemma PollJam(w: World, v: World, a: Net, b: Net, act: Act, l: nat, group: set<PeerId>)
    requires Lesser(v, w, l) && Jammed(w, v, a, l, group) && NetStep(w, a, b, act) && act.ev.Poll?
    ensures JamAt(w, v, b.nodes[act.host], act.host, l, group) && QuietSent(v, l, group, b.sent)
  {
    var i, e, s := act.host, w.envs[act.host], a.nodes[act.host];
    assert JamAt(w, v, s, i, l, group);
    JamTick(w, v, s, i, act.ev.disseminate, act.ev.activate, l, group);
    TickOk(e, s, act.ev.disseminate, act.ev.activate, {});
    JamPop(w, v, Tick(e, s, act.ev.disseminate, act.ev.activate), i, l, group);
  }

  lemma OneJams(w: World, v: World, nodes: seq<State>, h: nat, s: State, l: nat, group: set<PeerId>)
    requires Addressed(w) && |nodes| == |w.envs| && h < |nodes| && JamAt(w, v, s, h, l, group)
    requires forall i: nat :: i < |w.envs| ==> JamAt(w, v, nodes[i], i, l, group)
    ensures var after := nodes[h := s]; forall i: nat :: i < |w.envs| ==> JamAt(w, v, after[i], i, l, group)
  {
    var after := nodes[h := s];
    forall i: nat | i < |w.envs| ensures JamAt(w, v, after[i], i, l, group) { assert JamAt(w, v, nodes[i], i, l, group); }
  }

  /** No step of the network undoes a jam. */
  lemma JamLasts(w: World, v: World, a: Net, b: Net, act: Act, l: nat, group: set<PeerId>)
    requires WellFormed(w) && Lesser(v, w, l) && Jammed(w, v, a, l, group) && NetStep(w, a, b, act)
    ensures Jammed(w, v, b, l, group)
  {
    if act.ev.Poll? {
      PollJam(w, v, a, b, act, l, group);
    } else {
      DeliverJam(w, v, a, b, act, l, group);
    }
    OneJams(w, v, a.nodes, act.host, b.nodes[act.host], l, group);
  }

  lemma JamNext(w: World, v: World, run: seq<Net>, acts: seq<Act>, l: nat, group: set<PeerId>, t: nat)
    requires WellFormed(w) && Lesser(v, w, l) && AllSteps(w, run, acts) && t < |acts| && Jammed(w, v, run[t], l, group)
    ensures Jammed(w, v, run[t + 1], l, group)
  {
    assert StepAt(w, run, acts, t);
    JamLasts(w, v, run[t], run[t + 1], acts[t], l, group);
  }

  ghost predicate JamKept(w: World, v: World, run: seq<Net>, l: nat, group: set<PeerId>, t: nat) {
    t + 1 < |run| && Jammed(w, v, run[t], l, group) ==> Jammed(w, v, run[t + 1], l, group)
  }

  lemma {:induction false} JamStays(w: World, v: World, run: seq<Net>, l: nat, group: set<PeerId>, t: nat)
    requires t < |run| && Jammed(w, v, run[0], l, group) && forall u: nat :: u < t ==> JamKept(w, v, run, l, group, u)
    ensures Jammed(w, v, run[t], l, group)
  {
    if t > 0 {
      JamStays(w, v, run, l, group, t - 1);
      assert JamKept(w, v, run, l, group, t - 1);
    }
  }

  /** Over every run from a jammed network the group's level stays open. */
  lemma JammedForever(w: World, v: World, run: seq<Net>, acts: seq<Act>, l: nat, group: set<PeerId>, t: nat)
    requires WellFormed(w) && Lesser(v, w, l) && AllSteps(w, run, acts) && Jammed(w, v, run[0], l, group) && t < |run|
    ensures Jammed(w, v, run[t], l, group)
  {
    forall u: nat | u < t ensures JamKept(w, v, run, l, group, u) {
      if Jammed(w, v, run[u], l, group) { JamNext(w, v, run, acts, l, group, u); }
    }
    JamStays(w, v, run, l, group, t);
  }
}
