/** A multicaster among peers that send whatever they like. */
module MulticastFaults {
  import opened Contributions
  import opened Multicast
  import opened MulticastNetwork

  // ----- one host -----

  datatype Event = Arrive(from: nat, content: Statement) | Tick(expired: bool)

  function Next(valid: (nat, Value) -> bool, links: Links, h: Host, ev: Event): Host {
    match ev
    case Arrive(from, content) => Inject(valid, links, h, from, content)
    case Tick(expired) => Poll(links, h, expired).0
  }

  function After(valid: (nat, Value) -> bool, links: Links, h: Host, events: seq<Event>): Host
    decreases |events|
  {
    if events == [] then h else After(valid, links, Next(valid, links, h, events[0]), events[1..])
  }

  /** What the polls of the run return, in order. */
  function Results(valid: (nat, Value) -> bool, links: Links, h: Host, events: seq<Event>): seq<PollResult>
    decreases |events|
  {
    if events == [] then []
    else
      (if events[0].Tick? then [Poll(links, h, events[0].expired).1] else [])
      + Results(valid, links, Next(valid, links, h, events[0]), events[1..])
  }

  // ----- nothing unverified is held or passed on -----

  predicate ActionVerifies(valid: (nat, Value) -> bool, a: Action) {
    a.Send? ==> Verifies(valid, a.statement)
  }

  predicate ResultVerifies(valid: (nat, Value) -> bool, r: PollResult) {
    match r
    case Waiting => true
    case Acted(a) => ActionVerifies(valid, a)
    case Finished(stmt) => Verifies(valid, stmt)
  }

  predicate HoldsVerified(valid: (nat, Value) -> bool, h: Host) {
    && (h.statement.Some? ==> Verifies(valid, h.statement.value))
    && forall a :: a in h.outbox ==> ActionVerifies(valid, a)
  }

  lemma {:induction false} NewSendsVerify(valid: (nat, Value) -> bool, children: seq<nat>, contacted: set<nat>, stmt: Statement)
    requires Verifies(valid, stmt)
    ensures forall a :: a in NewSends(children, contacted, stmt) ==> ActionVerifies(valid, a)
    decreases |children|
  {
    if children != [] {
      NewSendsVerify(valid, children[1..], if children[0] in contacted then contacted else contacted + {children[0]}, stmt);
    }
  }

  lemma StepVerified(valid: (nat, Value) -> bool, links: Links, h: Host, ev: Event)
    requires HoldsVerified(valid, h)
    ensures HoldsVerified(valid, Next(valid, links, h, ev))
    ensures ev.Tick? ==> ResultVerifies(valid, Poll(links, h, ev.expired).1)
  {
    match ev
    case Arrive(from, content) =>
      if h.statement.Some? && Compatible(h.statement.value, content) {
        CombineVerifies(valid, h.statement.value, content);
      }
    case Tick(expired) =>
      if h.statement.Some? { NewSendsVerify(valid, links.children, h.contacted, h.statement.value); }
  }

  /** Over every run, whatever arrives and from whom: what is held, queued, sent or handed out verifies. */
  lemma {:induction false} RunVerified(valid: (nat, Value) -> bool, links: Links, h: Host, events: seq<Event>)
    requires HoldsVerified(valid, h)
    ensures HoldsVerified(valid, After(valid, links, h, events))
    ensures forall r :: r in Results(valid, links, h, events) ==> ResultVerifies(valid, r)
    decreases |events|
  {
    if events != [] {
      StepVerified(valid, links, h, events[0]);
      RunVerified(valid, links, Next(valid, links, h, events[0]), events[1..]);
    }
  }

  // ----- who is banned -----

  /** How often the actions ban `x`. */
  function BansOf(actions: seq<Action>, x: nat): nat {
    if actions == [] then 0 else (if actions[0] == Ban(x) then 1 else 0) + BansOf(actions[1..], x)
  }

  function BansIn(results: seq<PollResult>, x: nat): nat {
    if results == [] then 0 else (if results[0] == Acted(Ban(x)) then 1 else 0) + BansIn(results[1..], x)
  }

  /** The event is a statement that fails, from the parent `x`. */
  predicate FailsFrom(valid: (nat, Value) -> bool, links: Links, ev: Event, x: nat) {
    ev.Arrive? && ev.from == x && x in links.parents && !Verifies(valid, ev.content)
  }

  function Failures(valid: (nat, Value) -> bool, links: Links, events: seq<Event>, x: nat): nat {
    if events == [] then 0
    else (if FailsFrom(valid, links, events[0], x) then 1 else 0) + Failures(valid, links, events[1..], x)
  }

  lemma {:induction false} BansJoin(a: seq<Action>, b: seq<Action>, x: nat)
    ensures BansOf(a + b, x) == BansOf(a, x) + BansOf(b, x)
  {
    if a == [] {
      assert a + b == b;
    } else {
      BansJoin(a[1..], b, x);
      assert (a + b)[1..] == a[1..] + b;
    }
  }

  lemma {:induction false} NoBans(children: seq<nat>, contacted: set<nat>, stmt: Statement, x: nat)
    ensures BansOf(NewSends(children, contacted, stmt), x) == 0
    decreases |children|
  {
    if children != [] {
      var c, rest := children[0], children[1..];
      NoBans(rest, if c in contacted then contacted else contacted + {c}, stmt, x);
      if c !in contacted {
        assert ([Send(c, stmt)] + NewSends(rest, contacted + {c}, stmt))[1..] == NewSends(rest, contacted + {c}, stmt);
      }
    }
  }

  lemma ArrivalBans(valid: (nat, Value) -> bool, links: Links, h: Host, ev: Event, x: nat)
    requires ev.Arrive?
    ensures BansOf(Next(valid, links, h, ev).outbox, x) == BansOf(h.outbox, x) + if FailsFrom(valid, links, ev, x) then 1 else 0
  {
    BansJoin(h.outbox, [Ban(ev.from)], x);
    assert [Ban(ev.from)][1..] == [];
  }

  lemma TickBans(links: Links, h: Host, expired: bool, x: nat)
    ensures
      var (h', r) := Poll(links, h, expired);
      BansOf(h.outbox, x) == BansOf(h'.outbox, x) + if r == Acted(Ban(x)) then 1 else 0
  {
    if h.statement.Some? {
      var sends := NewSends(links.children, h.contacted, h.statement.value);
      BansJoin(h.outbox, sends, x);
      NoBans(links.children, h.contacted, h.statement.value, x);
    }
  }

  lemma BansOfOne(r: PollResult, rest: seq<PollResult>, x: nat)
    ensures BansIn([r] + rest, x) == (if r == Acted(Ban(x)) then 1 else 0) + BansIn(rest, x)
  {
    assert ([r] + rest)[1..] == rest;
  }

  /** Over every run: a peer is banned, or about to be, exactly as often as a statement of its failed while it was a
      parent; nobody else is. */
  lemma {:induction false} BansExact(valid: (nat, Value) -> bool, links: Links, h: Host, events: seq<Event>, x: nat)
    ensures
      BansOf(h.outbox, x) + Failures(valid, links, events, x) ==
      BansIn(Results(valid, links, h, events), x) + BansOf(After(valid, links, h, events).outbox, x)
    decreases |events|
  {
    if events != [] {
      var ev, next := events[0], Next(valid, links, h, events[0]);
      BansExact(valid, links, next, events[1..], x);
      match ev
      case Arrive(_, _) =>
        ArrivalBans(valid, links, h, ev, x);
        assert Results(valid, links, h, events) == Results(valid, links, next, events[1..]);
      case Tick(expired) =>
        TickBans(links, h, expired, x);
        BansOfOne(Poll(links, h, expired).1, Results(valid, links, next, events[1..]), x);
    }
  }

  // ----- where what is held comes from -----

  /** A parent sent the entry in a statement that verifies. */
  ghost predicate WasTold(valid: (nat, Value) -> bool, links: Links, events: seq<Event>, k: nat, v: Value) {
    exists i :: 0 <= i < |events| && TellsAt(valid, links, events, i, k, v)
  }

  predicate TellsAt(valid: (nat, Value) -> bool, links: Links, events: seq<Event>, i: nat, k: nat, v: Value)
    requires i < |events|
  {
    var ev := events[i];
    ev.Arrive? && ev.from in links.parents && Verifies(valid, ev.content) && k in ev.content && ev.content[k] == v
  }

  predicate Has(h: Host, k: nat, v: Value) {
    h.statement.Some? && k in h.statement.value && h.statement.value[k] == v
  }

  lemma StepOrigin(valid: (nat, Value) -> bool, links: Links, h: Host, ev: Event, k: nat, v: Value)
    requires Has(Next(valid, links, h, ev), k, v)
    ensures Has(h, k, v) || TellsAt(valid, links, [ev], 0, k, v)
  {
  }

  /** Over every run: an entry held was held before, or came from a parent in a statement that verifies. */
  lemma {:induction false} HeldWasTold(valid: (nat, Value) -> bool, links: Links, h: Host, events: seq<Event>, k: nat, v: Value)
    requires Has(After(valid, links, h, events), k, v)
    ensures Has(h, k, v) || WasTold(valid, links, events, k, v)
    decreases |events|
  {
    if events != [] {
      var next := Next(valid, links, h, events[0]);
      HeldWasTold(valid, links, next, events[1..], k, v);
      if Has(next, k, v) {
        StepOrigin(valid, links, h, events[0], k, v);
        if !Has(h, k, v) { assert TellsAt(valid, links, events, 0, k, v); }
      } else {
        var i :| 0 <= i < |events[1..]| && TellsAt(valid, links, events[1..], i, k, v);
        assert TellsAt(valid, links, events, i + 1, k, v);
      }
    }
  }

  // ----- strangers -----

  /** The events without what strangers send. */
  function FromParents(links: Links, events: seq<Event>): seq<Event> {
    if events == [] then []
    else (if events[0].Arrive? && events[0].from !in links.parents then [] else [events[0]]) + FromParents(links, events[1..])
  }

  /** Whatever strangers send makes no difference at all. */
  lemma {:induction false} StrangersIgnored(valid: (nat, Value) -> bool, links: Links, h: Host, events: seq<Event>)
    ensures After(valid, links, h, events) == After(valid, links, h, FromParents(links, events))
    ensures Results(valid, links, h, events) == Results(valid, links, h, FromParents(links, events))
    decreases |events|
  {
    if events != [] {
      var ev, rest := events[0], FromParents(links, events[1..]);
      StrangersIgnored(valid, links, Next(valid, links, h, ev), events[1..]);
      if ev.Arrive? && ev.from !in links.parents {
        assert FromParents(links, events) == rest;
        assert Results(valid, links, h, events) == Results(valid, links, h, events[1..]);
      } else {
        assert ([ev] + rest)[1..] == rest;
      }
    }
  }

  // ----- a network in which some hosts follow the protocol -----

  /** Everything ever sent may arrive at any time, any number of times; `bans` are the bans handed out so far. */
  datatype Mixed = Mixed(hosts: seq<Host>, wire: set<Packet>, bans: set<(nat, nat)>)

  datatype Cast = Cast(links: seq<Links>, valid: (nat, Value) -> bool, honest: set<nat>)

  ghost predicate HostPolls(w: Cast, a: Mixed, b: Mixed, i: nat, expired: bool)
    requires |a.hosts| == |w.links|
  {
    i in w.honest && i < |a.hosts| &&
    var (h, r) := Poll(w.links[i], a.hosts[i], expired);
    && b.hosts == a.hosts[i := h]
    && b.wire == a.wire + (if r.Acted? && r.action.Send? then {Packet(i, r.action.to, r.action.statement)} else {})
    && b.bans == a.bans + (if r.Acted? && r.action.Ban? then {(i, r.action.peer)} else {})
  }

  ghost predicate HostHears(w: Cast, a: Mixed, b: Mixed, p: Packet)
    requires |a.hosts| == |w.links|
  {
    && p in a.wire && p.to in w.honest && p.to < |a.hosts|
    && b == a.(hosts := a.hosts[p.to := Inject(w.valid, w.links[p.to], a.hosts[p.to], p.from, p.statement)])
  }

  /** A host that does not follow the protocol sends something in its own name. */
  ghost predicate Forges(w: Cast, a: Mixed, b: Mixed, p: Packet) {
    p.from !in w.honest && b == a.(wire := a.wire + {p})
  }

  ghost predicate MixedStep(w: Cast, a: Mixed, b: Mixed)
    requires |a.hosts| == |w.links|
  {
    || (exists i: nat, expired: bool :: HostPolls(w, a, b, i, expired))
    || (exists p :: HostHears(w, a, b, p))
    || (exists p :: Forges(w, a, b, p))
  }

  ghost predicate HostSafe(w: Cast, h: Host) {
    HoldsVerified(w.valid, h) && forall a :: a in h.outbox && a.Ban? ==> a.peer !in w.honest
  }

  ghost predicate SafeAt(w: Cast, hosts: seq<Host>, i: nat) {
    i in w.honest && i < |hosts| ==> HostSafe(w, hosts[i])
  }

  /** Hosts that follow the protocol hold and send what verifies, and ban none of each other. */
  ghost predicate Safe(w: Cast, s: Mixed) {
    && |s.hosts| == |w.links| && (forall i: nat :: SafeAt(w, s.hosts, i))
    && (forall p :: p in s.wire && p.from in w.honest ==> Verifies(w.valid, p.statement))
    && (forall i: nat, x: nat :: (i, x) in s.bans ==> x !in w.honest)
  }

  lemma {:induction false} OnlySends(children: seq<nat>, contacted: set<nat>, stmt: Statement)
    ensures forall a :: a in NewSends(children, contacted, stmt) ==> a.Send?
    decreases |children|
  {
    if children != [] {
      OnlySends(children[1..], if children[0] in contacted then contacted else contacted + {children[0]}, stmt);
    }
  }

  lemma PollSafe(w: Cast, links: Links, h: Host, expired: bool)
    requires HostSafe(w, h)
    ensures
      var (h', r) := Poll(links, h, expired);
      HostSafe(w, h') && ResultVerifies(w.valid, r) && (r.Acted? && r.action.Ban? ==> r.action.peer !in w.honest)
  {
    StepVerified(w.valid, links, h, Tick(expired));
    if h.statement.Some? { OnlySends(links.children, h.contacted, h.statement.value); }
  }

  lemma HearSafe(w: Cast, links: Links, h: Host, p: Packet)
    requires HostSafe(w, h) && (p.from in w.honest ==> Verifies(w.valid, p.statement))
    ensures HostSafe(w, Inject(w.valid, links, h, p.from, p.statement))
  {
    StepVerified(w.valid, links, h, Arrive(p.from, p.statement));
  }

  lemma OneChanged(w: Cast, hosts: seq<Host>, after: seq<Host>, i: nat)
    requires i < |hosts| == |after| && after == hosts[i := after[i]]
    requires (forall j: nat :: SafeAt(w, hosts, j)) && (i in w.honest ==> HostSafe(w, after[i]))
    ensures forall j: nat :: SafeAt(w, after, j)
  {
    forall j: nat ensures SafeAt(w, after, j) { assert SafeAt(w, hosts, j); }
  }

  lemma MixedStepSafe(w: Cast, a: Mixed, b: Mixed)
    requires Safe(w, a) && MixedStep(w, a, b)
    ensures Safe(w, b)
  {
    if i: nat, expired: bool :| HostPolls(w, a, b, i, expired) {
      assert SafeAt(w, a.hosts, i);
      PollSafe(w, w.links[i], a.hosts[i], expired);
      OneChanged(w, a.hosts, b.hosts, i);
    } else if p :| HostHears(w, a, b, p) {
      assert SafeAt(w, a.hosts, p.to);
      HearSafe(w, w.links[p.to], a.hosts[p.to], p);
      OneChanged(w, a.hosts, b.hosts, p.to);
    } else {
      var p :| Forges(w, a, b, p);
    }
  }

  ghost predicate IsMixedRun(w: Cast, run: seq<Mixed>) {
    run != [] && forall t :: 0 <= t < |run| - 1 ==> |run[t].hosts| == |w.links| && MixedStep(w, run[t], run[t + 1])
  }

  /** In every run, whatever the others send: hosts that follow the protocol hold and send only what verifies, and
      never ban one another. */
  lemma {:induction false} HonestSafeAmongOthers(w: Cast, run: seq<Mixed>, t: nat)
    requires IsMixedRun(w, run) && t < |run| && Safe(w, run[0])
    ensures Safe(w, run[t])
  {
    if t > 0 {
      HonestSafeAmongOthers(w, run, t - 1);
      MixedStepSafe(w, run[t - 1], run[t]);
    }
  }
}
