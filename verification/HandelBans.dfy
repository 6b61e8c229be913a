/** Which peers an aggregation bans, exactly; what a ban means; and what happens to the scoring window. */
module HandelBans {
  import opened Prelude
  import opened Sorting
  import opened Partitioning
  import opened Contributions
  import opened HandelSpec
  import opened HandelSafety
  import opened HandelScoring
  import Bits

  // ----- one aggregation -----

  predicate PartFails(e: Env, p: Pending) {
    p.individual.Some? && !Verifies(e.valid, p.individual.value)
  }

  /** A pick of `x` comes with an individual part that fails. */
  predicate FailsIn(e: Env, picked: seq<Pending>, x: nat) {
    exists p :: p in picked && p.sender == x && PartFails(e, p)
  }

  /** Scoring bans exactly the senders of failing individual parts. */
  lemma {:induction false} ScoringBansIff(e: Env, best: Contrib, st: Scoring, picked: seq<Pending>, x: nat)
    requires e.conf.shrinkFactor > 0
    ensures x in ScoreAll(e, best, st, picked).banned <==> x in st.banned || FailsIn(e, picked, x)
    decreases |picked|
  {
    if picked != [] {
      var p, rest := picked[|picked| - 1], picked[..|picked| - 1];
      assert picked == rest + [p];
      ScoringBansIff(e, best, ScoreOne(e, best, st, p), rest, x);
    }
  }

  function SoundPart(e: Env, p: Pending): seq<Contrib> {
    if p.individual.Some? && Verifies(e.valid, p.individual.value) then [p.individual.value] else []
  }

  /** The individual parts that verify, in processing order: last pick first. */
  function SoundParts(e: Env, picked: seq<Pending>): seq<Contrib>
    decreases |picked|
  {
    if picked == [] then [] else SoundPart(e, picked[|picked| - 1]) + SoundParts(e, picked[..|picked| - 1])
  }

  lemma ScoreOneKeeps(e: Env, best: Contrib, st: Scoring, p: Pending)
    requires e.conf.shrinkFactor > 0
    ensures ScoreOne(e, best, st, p).individual == st.individual + SoundPart(e, p)
  {
  }

  lemma JoinAssociates<T>(a: seq<T>, b: seq<T>, c: seq<T>)
    ensures a + b + c == a + (b + c)
  {
  }

  /** Scoring keeps exactly the individual parts that verify. */
  lemma {:induction false} ScoringKeepsParts(e: Env, best: Contrib, st: Scoring, picked: seq<Pending>)
    requires e.conf.shrinkFactor > 0
    ensures ScoreAll(e, best, st, picked).individual == st.individual + SoundParts(e, picked)
    decreases |picked|
  {
    if picked != [] {
      var p, rest := picked[|picked| - 1], picked[..|picked| - 1];
      ScoreOneKeeps(e, best, st, p);
      ScoringKeepsParts(e, best, ScoreOne(e, best, st, p), rest);
      JoinAssociates(st.individual, SoundPart(e, p), SoundParts(e, rest));
    }
  }

  /** What an aggregation of the level picks. */
  function Picks(e: Env, s: State, level: nat, lvl: ActiveLevel): seq<Pending>
    requires level < |s.pending| == |e.pp.vp|
  {
    Prioritize(e.pp.vp[level], s.pending[level], lvl.prioritized, s.window).0
  }

  /** The candidate of `x` is the first of its score and fails. */
  ghost predicate JudgedBad(e: Env, generated: seq<Candidate>, x: nat) {
    exists i: nat :: BadAt(e, generated, i, x)
  }

  predicate BadAt(e: Env, generated: seq<Candidate>, i: nat, x: nat) {
    i < |generated| && FirstOfScore(generated, i) && generated[i].sender == x && !Verifies(e.valid, generated[i].contribution)
  }

  /** Peers newly banned by an aggregation: a failing individual part, or a failing candidate that was judged. */
  ghost predicate BannedBy(e: Env, s: State, level: nat, lvl: ActiveLevel, x: nat)
    requires level < |s.pending| == |e.pp.vp|
  {
    var picked := Picks(e, s, level, lvl);
    FailsIn(e, picked, x) || JudgedBad(e, Generated(e, lvl.best.contribution, lvl.individual, picked), x)
  }

  lemma JudgingBansIff(e: Env, generated: seq<Candidate>, v: Verdict, x: nat)
    requires e.conf.shrinkFactor > 0
    ensures x in JudgeAll(e, v, InsertAll([], generated)).banned <==> x in v.banned || JudgedBad(e, generated, x)
  {
    var cs := InsertAll([], generated);
    JudgeAllBest(e, v, cs);
    if c :| c in cs && !Verifies(e.valid, c.contribution) && c.sender == x {
      InsertAllFirst([], generated, c);
      var i :| FirstAt(generated, i, c);
      assert BadAt(e, generated, i, x);
    }
    if i: nat :| BadAt(e, generated, i, x) {
      assert FirstAt(generated, i, generated[i]);
      InsertAllFirst([], generated, generated[i]);
    }
  }

  /** Exactly whom one aggregation bans. */
  lemma AggregationBansIff(e: Env, s: State, level: nat, lvl: ActiveLevel, x: nat)
    requires level < |s.levels| == |s.pending| == |e.pp.vp| && e.conf.shrinkFactor > 0 && e.conf.threshold.denom > 0
    ensures x in Aggregate(e, s, level, lvl).0.banned <==> x in s.banned || BannedBy(e, s, level, lvl, x)
  {
    var picked := Picks(e, s, level, lvl);
    var st0 := Scoring(lvl.individual, [], s.banned, s.window);
    var st := ScoreAll(e, lvl.best.contribution, st0, picked);
    ScoringBansIff(e, lvl.best.contribution, st0, picked, x);
    ScoreAllInserts(e, lvl.best.contribution, st0, picked);
    JudgingBansIff(e, Generated(e, lvl.best.contribution, lvl.individual, picked), Verdict(lvl.best, st.banned, st.window), x);
  }

  // ----- one event -----

  /** The message is kept and its level is active, so that it is aggregated at once. */
  predicate Aggregates(e: Env, s: State, from: PeerId, m: Message)
    requires Indexed(e, s)
  {
    var ix := Position(e.pp.peers, from);
    ix.Some? && m.level < |s.levels| && ix.value !in s.banned && s.levels[m.level].Some? && !s.levels[m.level].value.completed
  }

  /** The state in which that aggregation runs. */
  function Received(e: Env, s: State, from: PeerId, m: Message): State
    requires Indexed(e, s) && (from in e.pp.peers ==> m.level < |s.levels|)
  {
    HandleContribution(e, s, from, m).0
  }

  /** Exactly whom an event bans: a poll nobody, a message whomever the aggregation it starts bans. */
  lemma StepBansIff(e: Env, s: State, ev: Event, x: nat)
    requires Inv(e, s) && Enabled(e, s, ev)
    ensures
      x in Step(e, s, ev).banned <==>
      || x in s.banned
      || (ev.Deliver? && Aggregates(e, s, ev.from, ev.message) &&
          BannedBy(e, Received(e, s, ev.from, ev.message), ev.message.level, s.levels[ev.message.level].value, x))
  {
    match ev
    case Deliver(from, m) => InjectBansIff(e, s, from, m, x);
    case Poll(disseminate, activate, ready) => TickBansNobody(e, s, disseminate, activate);
  }

  lemma TickBansNobody(e: Env, s: State, disseminate: bool, activate: bool)
    requires Inv(e, s)
    ensures Tick(e, s, disseminate, activate).banned == s.banned
  {
    InvContactable(e, s);
    DisseminateOk(e, s, 1, {});
    var s1 := if disseminate then DisseminateFrom(e, s, 1) else s;
    var next := NextNonActive(s1.levels);
    if next.Some? { ActivateSame(e, s1, next.value); }
  }

  lemma RunAggregationBansIff(e: Env, s: State, level: nat, x: nat)
    requires Indexed(e, s) && level < |s.levels| && s.levels[level].Some? && s.pending[level] != map[]
    requires e.conf.shrinkFactor > 0 && e.conf.threshold.denom > 0 && AggregationSafe(e, s, level)
    ensures x in RunAggregation(e, s, level).banned <==> x in s.banned || BannedBy(e, s, level, s.levels[level].value, x)
  {
    AggregationBansIff(e, s, level, s.levels[level].value, x);
    var (s1, lvl) := Aggregate(e, s, level, s.levels[level].value);
    if IsComplete(|lvl.best.contribution|, level, e.conf.threshold) { ActivateSame(e, RunFastPath(e, s1, level), level + 1); }
  }

  lemma InjectBansIff(e: Env, s: State, from: PeerId, m: Message, x: nat)
    requires Inv(e, s) && Deliverable(e, s, from, m)
    ensures
      x in Inject(e, s, from, m).banned <==>
      x in s.banned || (Aggregates(e, s, from, m) && BannedBy(e, Received(e, s, from, m), m.level, s.levels[m.level].value, x))
  {
    DeliverableIff(e, s, from, m);
    var (s1, kept) := HandleContribution(e, s, from, m);
    if kept && s1.levels[m.level].Some? {
      assert Position(e.pp.peers, from).value in s1.pending[m.level];
      RunAggregationBansIff(e, s1, m.level, x);
    }
  }

  /** A peer whose message has a failing individual part, arriving alone at an open level that lists it, is banned. */
  lemma BadPartBanned(e: Env, s: State, from: PeerId, m: Message)
    requires Inv(e, s) && Deliverable(e, s, from, m) && Aggregates(e, s, from, m)
    requires s.pending[m.level] == map[] && s.levels[m.level].value.prioritized == []
    requires Position(e.pp.peers, from).value in e.pp.vp[m.level] && Distinct(e.pp.vp[m.level])
    requires m.individual.Some? && !Verifies(e.valid, m.individual.value)
    ensures Position(e.pp.peers, from).value in Step(e, s, Deliver(from, m)).banned
  {
    var x := Position(e.pp.peers, from).value;
    var s1, lvl := Received(e, s, from, m), s.levels[m.level].value;
    var p := Pending(x, m.aggregate, m.individual);
    assert s1.pending[m.level] == map[x := p];
    PrioritizeTakesFirst(e.pp.vp[m.level], s1.pending[m.level], [], s.window);
    OnlyWaiting(e.pp.vp[m.level], x, p);
    assert Picks(e, s1, m.level, lvl) == [p];
    assert p in [p] && PartFails(e, p);
    StepBansIff(e, s, Deliver(from, m), x);
  }

  lemma {:induction false} OnlyWaiting(peers: seq<nat>, x: nat, p: Pending)
    requires Distinct(peers)
    ensures WaitingOf(peers, map[x := p]) == if x in peers then [p] else []
  {
    if peers != [] {
      assert peers == [peers[0]] + peers[1..];
      assert peers[0] !in peers[1..];
      OnlyWaiting(peers[1..], x, p);
    }
  }

  // ----- what a ban means -----

  /** Of a banned peer only completion reports are taken in. */
  lemma BannedIgnored(e: Env, s: State, from: PeerId, m: Message)
    requires Inv(e, s) && Deliverable(e, s, from, m) && from in e.pp.peers && Position(e.pp.peers, from).value in s.banned
    ensures
      var x := Position(e.pp.peers, from).value;
      Inject(e, s, from, m) ==
      if m.contactSender then s else s.(completedLevels := ReportCompleted(s.completedLevels, x, m.level))
  {
  }

  /** Nothing of `x` waits that did not wait before. */
  ghost predicate NothingNew(a: State, b: State, x: nat) {
    |a.pending| == |b.pending| && forall l: nat :: l < |a.pending| ==> NoneAt(a, b, x, l)
  }

  predicate NoneAt(a: State, b: State, x: nat, l: nat)
    requires l < |a.pending| == |b.pending|
  {
    x in b.pending[l] ==> x in a.pending[l] && b.pending[l][x] == a.pending[l][x]
  }

  lemma AggregateWaits(e: Env, s: State, level: nat, lvl: ActiveLevel, x: nat)
    requires level < |s.levels| == |s.pending| == |e.pp.vp| && e.conf.shrinkFactor > 0 && e.conf.threshold.denom > 0
    ensures NothingNew(s, Aggregate(e, s, level, lvl).0, x)
  {
    PrioritizeSources(e.pp.vp[level], s.pending[level], lvl.prioritized, s.window);
    var s1 := Aggregate(e, s, level, lvl).0;
    assert s1.pending == s.pending[level := Prioritize(e.pp.vp[level], s.pending[level], lvl.prioritized, s.window).1];
  }

  lemma CompletionWaits(e: Env, s: State, level: nat)
    requires Indexed(e, s) && level < |s.levels| && (e.pp.cvp[level] == [] ==> e.conf.fastPathWindow == 0)
    ensures TryActivate(e, RunFastPath(e, s, level), level + 1).pending == s.pending
  {
    ActivateSame(e, RunFastPath(e, s, level), level + 1);
  }

  lemma AggregationWaits(e: Env, s: State, level: nat, x: nat)
    requires Indexed(e, s) && level < |s.levels| && e.conf.shrinkFactor > 0 && e.conf.threshold.denom > 0 && AggregationSafe(e, s, level)
    ensures NothingNew(s, RunAggregation(e, s, level), x)
  {
    if s.levels[level].Some? && s.pending[level] != map[] {
      AggregateWaits(e, s, level, s.levels[level].value, x);
      var (s1, lvl) := Aggregate(e, s, level, s.levels[level].value);
      if IsComplete(|lvl.best.contribution|, level, e.conf.threshold) { CompletionWaits(e, s1, level); }
      var r := RunAggregation(e, s, level);
      forall l: nat | l < |s.pending| ensures NoneAt(s, r, x, l) { assert NoneAt(s, s1, x, l); }
    }
  }

  lemma InjectWaits(e: Env, s: State, from: PeerId, m: Message, x: nat)
    requires Inv(e, s) && Deliverable(e, s, from, m) && x in s.banned
    ensures NothingNew(s, Inject(e, s, from, m), x)
  {
    DeliverableIff(e, s, from, m);
    var (s1, kept) := HandleContribution(e, s, from, m);
    assert NothingNew(s, s1, x);
    if kept {
      AggregationWaits(e, s1, m.level, x);
      var r := RunAggregation(e, s1, m.level);
      forall l: nat | l < |s.pending| ensures NoneAt(s, r, x, l) { assert NoneAt(s, s1, x, l) && NoneAt(s1, r, x, l); }
    }
  }

  lemma TickWaits(e: Env, s: State, disseminate: bool, activate: bool)
    requires Inv(e, s)
    ensures Tick(e, s, disseminate, activate).pending == s.pending
  {
    InvContactable(e, s);
    DisseminateOk(e, s, 1, {});
    var s1 := if disseminate then DisseminateFrom(e, s, 1) else s;
    var next := NextNonActive(s1.levels);
    if next.Some? { ActivateSame(e, s1, next.value); }
  }

  lemma StepWaits(e: Env, s: State, ev: Event, x: nat)
    requires Inv(e, s) && Enabled(e, s, ev) && x in s.banned
    ensures x in Step(e, s, ev).banned && NothingNew(s, Step(e, s, ev), x)
  {
    StepBansIff(e, s, ev, x);
    match ev
    case Deliver(from, m) => InjectWaits(e, s, from, m, x);
    case Poll(disseminate, activate, ready) => TickWaits(e, s, disseminate, activate);
  }

  /** Over every run a banned peer stays banned, and none of its contributions is kept any more. */
  lemma {:induction false} BannedForGood(e: Env, s: State, events: seq<Event>, x: nat)
    requires Inv(e, s) && AllEnabled(e, s, events) && x in s.banned
    ensures x in Run(e, s, events).banned && NothingNew(s, Run(e, s, events), x)
    decreases |events|
  {
    if events != [] {
      StepWaits(e, s, events[0], x);
      StepOk(e, s, events[0], {});
      var s1 := Step(e, s, events[0]);
      BannedForGood(e, s1, events[1..], x);
      var r := Run(e, s1, events[1..]);
      forall l: nat | l < |s.pending| ensures NoneAt(s, r, x, l) { assert NoneAt(s, s1, x, l) && NoneAt(s1, r, x, l); }
    }
  }

  // ----- the scoring window -----

  function Power(f: nat, n: nat): (r: nat)
    ensures f > 0 ==> r > 0
  {
    if n == 0 then 1 else f * Power(f, n - 1)
  }

  /** The window divided by `f` `n` times, never below one. */
  function Shrunk(window: nat, f: nat, n: nat): nat
    requires f > 0
  {
    if n == 0 then window else if window / Power(f, n) > 1 then window / Power(f, n) else 1
  }

  /** The window multiplied by `f` `n` times, never past the largest machine number. */
  function Grown(window: nat, f: nat, n: nat): nat {
    if window * Power(f, n) <= USIZE_MAX then window * Power(f, n) else USIZE_MAX
  }

  lemma Reordered(a: nat, b: nat, c: nat)
    ensures a * b * c == a * (c * b)
  {
    assert a * b * c == a * (b * c);
  }

  lemma DivideTwiceBounds(a: nat, d: nat, f: nat, c: nat)
    requires d > 0 && f > 0 && d * f > 0
    ensures a / d / f >= c <==> a / (d * f) >= c
  {
    Bits.DivisionBounds(a / d, f, c);
    Bits.DivisionBounds(a, d, c * f);
    Bits.DivisionBounds(a, d * f, c);
    Reordered(c, f, d);
  }

  lemma SameQuotient(a: nat, d: nat, f: nat, x: nat, y: nat)
    requires d > 0 && f > 0 && d * f > 0 && a / d / f == x && a / (d * f) == y
    ensures x == y
  {
    DivideTwiceBounds(a, d, f, x);
    DivideTwiceBounds(a, d, f, y);
  }

  lemma DivideTwice(a: nat, d: nat, f: nat)
    requires d > 0 && f > 0 && d * f > 0
    ensures a / d / f == a / (d * f)
  {
    Bits.DivisionBounds(a, d, 0);
    Bits.DivisionBounds(a / d, f, 0);
    Bits.DivisionBounds(a, d * f, 0);
    SameQuotient(a, d, f, a / d / f, a / (d * f));
  }

  /** Shrinking twice is shrinking by the product. */
  lemma ShrinkTwice(window: nat, d: nat, f: nat)
    requires d > 0 && f > 0 && d * f > 0
    ensures Shrink(Shrink(window, d), f) == Shrink(window, d * f)
  {
    DivideTwice(window, d, f);
    Bits.DivisionBounds(window / d, f, 2);
    Bits.DivisionBounds(1, f, 2);
    MulMonotone(1, f, 2);
  }

  lemma PowerStep(f: nat, n: nat)
    requires f > 0
    ensures Power(f, n + 1) == f * Power(f, n) > 0
  {
  }

  lemma ShrunkStep(window: nat, f: nat, n: nat)
    requires f > 0
    ensures Shrunk(Shrink(window, f), f, n) == Shrunk(window, f, n + 1)
  {
    PowerStep(f, n);
    if n == 0 {
      assert Power(f, 0) == 1;
    } else {
      ShrinkTwice(window, f, Power(f, n));
    }
  }

  lemma GrowTwice(window: nat, d: nat, f: nat)
    requires d > 0 && f > 0 && window <= USIZE_MAX
    ensures Grow(Grow(window, d), f) == Grow(window, d * f)
  {
    Reordered(window, d, f);
    assert f * d == d * f;
    MulMonotone(1, f, window * d);
    MulMonotone(1, f, USIZE_MAX);
    assert f * (window * d) == window * d * f && f * USIZE_MAX == USIZE_MAX * f;
  }

  lemma GrownStep(window: nat, f: nat, n: nat)
    requires f > 0 && window <= USIZE_MAX
    ensures Grown(Grow(window, f), f, n) == Grown(window, f, n + 1)
  {
    PowerStep(f, n);
    GrowTwice(window, f, Power(f, n));
  }

  function FailingParts(e: Env, picked: seq<Pending>): nat
    decreases |picked|
  {
    if picked == [] then 0 else (if PartFails(e, picked[|picked| - 1]) then 1 else 0) + FailingParts(e, picked[..|picked| - 1])
  }

  /** The window alone, followed through the picks. */
  function WindowThrough(e: Env, window: nat, picked: seq<Pending>): nat
    requires e.conf.shrinkFactor > 0
    decreases |picked|
  {
    if picked == [] then window
    else
      WindowThrough(e, if PartFails(e, picked[|picked| - 1]) then Shrink(window, e.conf.shrinkFactor) else window, picked[..|picked| - 1])
  }

  lemma {:induction false} ScoringFollows(e: Env, best: Contrib, st: Scoring, picked: seq<Pending>)
    requires e.conf.shrinkFactor > 0
    ensures ScoreAll(e, best, st, picked).window == WindowThrough(e, st.window, picked)
    decreases |picked|
  {
    if picked != [] {
      ScoringFollows(e, best, ScoreOne(e, best, st, picked[|picked| - 1]), picked[..|picked| - 1]);
    }
  }

  lemma {:induction false} WindowShrinks(e: Env, window: nat, picked: seq<Pending>)
    requires e.conf.shrinkFactor > 0
    ensures WindowThrough(e, window, picked) == Shrunk(window, e.conf.shrinkFactor, FailingParts(e, picked))
    decreases |picked|
  {
    if picked != [] {
      var f, p, rest := e.conf.shrinkFactor, picked[|picked| - 1], picked[..|picked| - 1];
      if PartFails(e, p) {
        WindowShrinks(e, Shrink(window, f), rest);
        ShrunkStep(window, f, FailingParts(e, rest));
      } else {
        WindowShrinks(e, window, rest);
      }
    }
  }

  /** Scoring divides the window once for every failing individual part, but never below one. */
  lemma ScoringWindow(e: Env, best: Contrib, st: Scoring, picked: seq<Pending>)
    requires e.conf.shrinkFactor > 0
    ensures ScoreAll(e, best, st, picked).window == Shrunk(st.window, e.conf.shrinkFactor, FailingParts(e, picked))
  {
    ScoringFollows(e, best, st, picked);
    WindowShrinks(e, st.window, picked);
  }

  /** Judging candidates that all verify multiplies the window once for each, up to the largest machine number;
      candidates that all fail divide it. */
  lemma {:induction false} JudgingWindow(e: Env, v: Verdict, cs: seq<Candidate>, sound: bool)
    requires e.conf.shrinkFactor > 0 && v.window <= USIZE_MAX
    requires forall c :: c in cs ==> (Verifies(e.valid, c.contribution) <==> sound)
    ensures
      JudgeAll(e, v, cs).window ==
      if sound then Grown(v.window, e.conf.shrinkFactor, |cs|) else Shrunk(v.window, e.conf.shrinkFactor, |cs|)
    decreases |cs|
  {
    var f := e.conf.shrinkFactor;
    if cs == [] {
      assert Power(f, 0) == 1;
    } else {
      if sound { GrownStep(v.window, f, |cs| - 1); } else { ShrunkStep(v.window, f, |cs| - 1); }
      ShrinkBelow(v.window, f);
      JudgingWindow(e, JudgeOne(e, v, cs[0]), cs[1..], sound);
    }
  }

  lemma ShrinkBelow(window: nat, f: nat)
    requires f > 0 && window <= USIZE_MAX
    ensures Shrink(window, f) <= USIZE_MAX
  {
    MulMonotone(1, f, window + 1);
    Bits.DivisionBounds(window, f, window + 1);
  }
}
