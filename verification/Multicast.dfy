/** DAG multicasting: hosts gossip statements to their children and resend when theirs grows. */
module Multicast {
  import opened Prelude
  import opened Contributions

  type Value(==, !new)
  type Statement = Contribution<Value>

  datatype Action = Send(to: nat, statement: Statement) | Ban(peer: nat)
  datatype Links = Links(parents: set<nat>, children: seq<nat>)

  /** The part of a host that changes. */
  datatype Host = Host(statement: Option<Statement>, contacted: set<nat>, outbox: seq<Action>)

  datatype PollResult = Waiting | Acted(action: Action) | Finished(statement: Statement)

  function Children(links: Links): set<nat> {
    Elements(links.children)
  }

  /** A message comes in.  A statement that cannot be combined is lost together with the host's own. */
  function Inject(valid: (nat, Value) -> bool, links: Links, h: Host, from: nat, content: Statement): Host {
    if from !in links.parents then h
    else if !Verifies(valid, content) then h.(outbox := h.outbox + [Ban(from)])
    else if h.statement.None? then h.(statement := Some(content))
    else
      var combined := TryCombine(h.statement.value, content);
      if combined.None? then h.(statement := None)
      else h.(statement := combined,
              contacted := if |combined.value| > |h.statement.value| then {} else h.contacted)
  }

  /** A combination is heavier exactly when something in it is new. */
  lemma Regrowth(a: Statement, b: Statement)
    requires Compatible(a, b)
    ensures |a + b| > |a| <==> !Part(b, a)
  {
    CombineWeight(a, b);
    if Part(b, a) {
      assert a + b == a;
    } else {
      var k :| k in b && !(k in a && b[k] == a[k]);
      assert k in (a + b).Keys && k !in a.Keys;
    }
  }

  /** One message to every child not contacted yet. */
  function NewSends(children: seq<nat>, contacted: set<nat>, stmt: Statement): seq<Action> {
    if children == [] then []
    else if children[0] in contacted then NewSends(children[1..], contacted, stmt)
    else [Send(children[0], stmt)] + NewSends(children[1..], contacted + {children[0]}, stmt)
  }

  /** One child further along the list. */
  lemma NewSendsStep(children: seq<nat>, i: nat, contacted: set<nat>, stmt: Statement, sent: seq<Action>)
    requires i < |children|
    ensures
      var c := children[i];
      sent + NewSends(children[i..], contacted, stmt) ==
      (if c in contacted then sent else sent + [Send(c, stmt)]) + NewSends(children[i + 1..], contacted + {c}, stmt)
  {
    var c := children[i];
    assert children[i..][0] == c && children[i..][1..] == children[i + 1..];
    if c in contacted {
      assert contacted + {c} == contacted;
    }
  }

  function Among(children: seq<nat>, i: nat): set<nat>
    requires i <= |children|
  {
    Elements(children[..i])
  }

  lemma AmongStep(children: seq<nat>, i: nat)
    requires i < |children|
    ensures Among(children, i + 1) == Among(children, i) + {children[i]}
  {
    assert children[..i + 1] == children[..i] + [children[i]];
  }

  function Announce(links: Links, h: Host): Host {
    if h.statement.None? then h
    else h.(contacted := h.contacted + Children(links),
            outbox := h.outbox + NewSends(links.children, h.contacted, h.statement.value))
  }

  /** A poll whose delay has passed; `expired` says that the multicast's time is up. */
  function Poll(links: Links, h: Host, expired: bool): (Host, PollResult) {
    if expired && h.statement.Some? then (h.(statement := None), Finished(h.statement.value))
    else
      var h1 := Announce(links, h);
      if h1.outbox == [] then (h1, Waiting)
      else (h1.(outbox := h1.outbox[1..]), Acted(h1.outbox[0]))
  }

  /** The host object. */
  class Multicaster {
    const valid: (nat, Value) -> bool
    const links: Links
    var statement: Option<Statement>
    var contacted: set<nat>
    var outbox: seq<Action>

    ghost function View(): Host
      reads this
    {
      Host(statement, contacted, outbox)
    }

    constructor (valid: (nat, Value) -> bool, links: Links, statement: Option<Statement>)
      ensures this.valid == valid && this.links == links
      ensures View() == Host(statement, {}, [])
    {
      this.valid, this.links, this.statement := valid, links, statement;
      contacted, outbox := {}, [];
    }

    method InjectMessage(from: nat, content: Statement)
      modifies this
      ensures View() == Inject(valid, links, old(View()), from, content)
      ensures from !in links.parents ==> View() == old(View())
      ensures from in links.parents && (exists k :: k in content && !valid(k, content[k])) ==>
        statement == old(statement) && contacted == old(contacted) && outbox == old(outbox) + [Ban(from)]
      ensures from in links.parents && (forall k :: k in content ==> valid(k, content[k])) ==>
        && outbox == old(outbox)
        && (old(statement).None? ==> statement == Some(content) && contacted == old(contacted))
        && (old(statement).Some? && !Compatible(old(statement).value, content) ==> statement == None && contacted == old(contacted))
        && (old(statement).Some? && Compatible(old(statement).value, content) ==>
              && statement == Some(old(statement).value + content)
              && contacted == if Part(content, old(statement).value) then old(contacted) else {})
    {
      if from in links.parents {
        if Verifies(valid, content) {
          var taken := statement;
          statement := None;
          if taken.Some? {
            if Compatible(taken.value, content) { Regrowth(taken.value, content); }
            var combined := Combine(taken.value, content);
            if combined.Some? {
              if |combined.value| > |taken.value| {
                contacted := {};
              }
              statement := combined;
            }
          } else {
            statement := Some(content);
          }
        } else {
          outbox := outbox + [Ban(from)];
        }
      }
    }

    /** Queues the statement for every child not contacted since the statement last grew. */
    method AnnounceStatement()
      modifies this
      ensures View() == Announce(links, old(View()))
    {
      if statement.Some? {
        var cs := links.children;
        for i := 0 to |cs|
          invariant statement == old(statement) && statement.Some?
          invariant contacted == old(contacted) + Among(cs, i)
          invariant outbox + NewSends(cs[i..], contacted, statement.value)
                    == old(outbox) + NewSends(cs, old(contacted), statement.value)
        {
          NewSendsStep(cs, i, contacted, statement.value, outbox);
          AmongStep(cs, i);
          if cs[i] !in contacted {
            contacted := contacted + {cs[i]};
            outbox := outbox + [Send(cs[i], statement.value)];
          } else {
            assert contacted + {cs[i]} == contacted;
          }
        }
        assert cs[..|cs|] == cs;
        assert Among(cs, |cs|) == Children(links);
      }
    }

    method PollOnce(expired: bool) returns (r: PollResult)
      modifies this
      ensures (View(), r) == Poll(links, old(View()), expired)
      ensures r.Finished? <==> expired && old(statement).Some?
      ensures r.Finished? ==> Some(r.statement) == old(statement) && View() == Host(None, old(contacted), old(outbox))
    {
      if expired {
        if statement.Some? {
          r := Finished(statement.value);
          statement := None;
          return;
        }
      }
      AnnounceStatement();
      if outbox != [] {
        r := Acted(outbox[0]);
        outbox := outbox[1..];
      } else {
        r := Waiting;
      }
    }
  }
}

/** A network of such hosts, delivering messages in any order. */
module MulticastNetwork {
  import opened Prelude
  import opened Contributions
  import opened Multicast

  datatype Packet = Packet(from: nat, to: nat, statement: Statement)

  /** The hosts, the messages under way, and how many sends each host has queued so far. */
  datatype Net = Net(hosts: seq<Host>, wire: multiset<Packet>, queued: seq<nat>)

  /** What is fixed: the overlay, verification, the initial statements and the assignment `truth`
      they are all parts of. */
  datatype Setup = Setup(links: seq<Links>, valid: (nat, Value) -> bool, init: seq<Option<Statement>>, truth: Statement)

  ghost predicate WellSet(w: Setup) {
    && |w.init| == |w.links|
    && (forall i: nat, c: nat :: Edge(w, i, c) ==> c < |w.links| && i in w.links[c].parents)
    && (forall i: nat :: i < |w.init| && w.init[i].Some? ==> Part(w.init[i].value, w.truth))
    && Verifies(w.valid, w.truth)
  }

  function Start(w: Setup): Net {
    Net(seq(|w.init|, i requires 0 <= i < |w.init| => Host(w.init[i], {}, [])), multiset{}, seq(|w.init|, i => 0))
  }

  // ----- steps -----

  function Sends(before: Host, links: Links): nat {
    if before.statement.None? then 0 else |NewSends(links.children, before.contacted, before.statement.value)|
  }

  /** Host `i` polls, before its time is up, and what it takes from its outbox goes on the wire. */
  ghost predicate PollStep(w: Setup, a: Net, b: Net, i: nat)
    requires |a.hosts| == |a.queued| == |w.links|
  {
    i < |a.hosts| &&
    var (h, r) := Poll(w.links[i], a.hosts[i], false);
    && b.hosts == a.hosts[i := h]
    && b.wire == (if r.Acted? && r.action.Send? then a.wire + multiset{Packet(i, r.action.to, r.action.statement)} else a.wire)
    && b.queued == a.queued[i := a.queued[i] + Sends(a.hosts[i], w.links[i])]
  }

  ghost predicate DeliverStep(w: Setup, a: Net, b: Net, p: Packet)
    requires |a.hosts| == |w.links|
  {
    && p in a.wire && p.to < |a.hosts|
    && b.hosts == a.hosts[p.to := Inject(w.valid, w.links[p.to], a.hosts[p.to], p.from, p.statement)]
    && b.wire == a.wire - multiset{p}
    && b.queued == a.queued
  }

  ghost predicate Step(w: Setup, a: Net, b: Net)
    requires |a.hosts| == |a.queued| == |w.links|
  {
    (exists i: nat :: PollStep(w, a, b, i)) || (exists p :: DeliverStep(w, a, b, p))
  }

  /** A run from the start, of any length and in any order. */
  ghost predicate IsRun(w: Setup, run: seq<Net>) {
    && run != [] && run[0] == Start(w)
    && forall t :: 0 <= t < |run| - 1 ==>
         |run[t].hosts| == |run[t].queued| == |w.links| && Step(w, run[t], run[t + 1])
  }

  /** Nothing under way, nothing left to send. */
  ghost predicate Quiescent(w: Setup, s: Net)
    requires |s.hosts| == |w.links|
  {
    && s.wire == multiset{}
    && forall i: nat :: i < |s.hosts| ==>
         && s.hosts[i].outbox == []
         && (s.hosts[i].statement.Some? ==> Children(w.links[i]) <= s.hosts[i].contacted)
  }

  // ----- reaching along the overlay -----

  predicate Edge(w: Setup, i: nat, c: nat) {
    i < |w.links| && c in w.links[i].children
  }

  ghost predicate IsPath(w: Setup, path: seq<nat>) {
    && path != [] && path[0] < |w.links|
    && forall t :: 0 < t < |path| ==> Edge(w, path[t - 1], path[t])
  }

  ghost predicate Reaches(w: Setup, i: nat, j: nat) {
    exists path :: IsPath(w, path) && path[0] == i && path[|path| - 1] == j
  }

  lemma ReachesSelf(w: Setup, i: nat)
    requires i < |w.links|
    ensures Reaches(w, i, i)
  {
    assert IsPath(w, [i]);
  }

  lemma ReachesChild(w: Setup, i: nat, j: nat, c: nat)
    requires Reaches(w, i, j) && Edge(w, j, c)
    ensures Reaches(w, i, c)
  {
    var path :| IsPath(w, path) && path[0] == i && path[|path| - 1] == j;
    var longer := path + [c];
    forall t | 0 < t < |longer| ensures Edge(w, longer[t - 1], longer[t]) {
      if t < |path| { assert Edge(w, path[t - 1], path[t]); }
    }
    assert IsPath(w, longer);
  }

  /** Host `i` reaches `j` and started with a statement. */
  ghost predicate Source(w: Setup, i: nat, j: nat)
    requires |w.init| == |w.links|
  {
    Reaches(w, i, j) && i < |w.init| && w.init[i].Some?
  }

  /** Entry `k` was part of the initial statement of some host that reaches `j`. */
  ghost predicate Heard(w: Setup, j: nat, k: nat)
    requires |w.init| == |w.links|
  {
    exists i: nat :: Source(w, i, j) && k in w.init[i].value
  }

  ghost predicate HearsAny(w: Setup, j: nat)
    requires |w.init| == |w.links|
  {
    exists i: nat :: Source(w, i, j)
  }

  lemma HeardPassesOn(w: Setup, j: nat, c: nat)
    requires WellSet(w) && Edge(w, j, c)
    ensures forall k :: Heard(w, j, k) ==> Heard(w, c, k)
    ensures HearsAny(w, j) ==> HearsAny(w, c)
  {
    forall k | Heard(w, j, k) ensures Heard(w, c, k) {
      var i: nat :| Source(w, i, j) && k in w.init[i].value;
      ReachesChild(w, i, j, c);
      assert Source(w, i, c);
    }
    if HearsAny(w, j) {
      var i: nat :| Source(w, i, j);
      ReachesChild(w, i, j, c);
      assert Source(w, i, c);
    }
  }

  // ----- what every step keeps -----

  /** A statement that may be held by host `j`. */
  ghost predicate Fair(w: Setup, j: nat, s: Statement)
    requires |w.init| == |w.links|
  {
    Part(s, w.truth) && HearsAny(w, j) && forall k :: k in s ==> Heard(w, j, k)
  }

  ghost predicate FairAction(w: Setup, i: nat, a: Action)
    requires |w.init| == |w.links| && i < |w.links|
  {
    a.Send? && Edge(w, i, a.to) && Fair(w, i, a.statement)
  }

  ghost predicate Holds(h: Host, s: Statement) {
    h.statement.Some? && Part(s, h.statement.value)
  }

  ghost predicate HostOk(w: Setup, i: nat, h: Host)
    requires |w.init| == |w.links| && i < |w.links|
  {
    && (h.statement.Some? ==> Fair(w, i, h.statement.value))
    && (h.statement.None? ==> h.contacted == {} && h.outbox == [])
    && (w.init[i].Some? ==> Holds(h, w.init[i].value))
    && h.contacted <= Children(w.links[i])
    && (forall a :: a in h.outbox ==> FairAction(w, i, a))
  }

  ghost predicate PacketOk(w: Setup, p: Packet)
    requires |w.init| == |w.links|
  {
    Edge(w, p.from, p.to) && Fair(w, p.from, p.statement)
  }

  /** What host `i` has told child `c` is with the child, or on its way to it. */
  ghost predicate Told(s: Net, i: nat, c: nat)
    requires i < |s.hosts| && c < |s.hosts| && s.hosts[i].statement.Some?
  {
    var stmt := s.hosts[i].statement.value;
    || Holds(s.hosts[c], stmt)
    || Send(c, stmt) in s.hosts[i].outbox
    || Packet(i, c, stmt) in s.wire
  }

  ghost predicate HostsOk(w: Setup, hosts: seq<Host>)
    requires |w.init| == |w.links| == |hosts|
  {
    forall i: nat :: i < |hosts| ==> HostOk(w, i, hosts[i])
  }

  ghost predicate WireOk(w: Setup, wire: multiset<Packet>)
    requires |w.init| == |w.links|
  {
    forall p :: p in wire ==> PacketOk(w, p)
  }

  ghost predicate AllTold(s: Net) {
    forall i: nat, c: nat :: i < |s.hosts| && s.hosts[i].statement.Some? && c in s.hosts[i].contacted ==>
      c < |s.hosts| && Told(s, i, c)
  }

  ghost predicate Inv(w: Setup, s: Net) {
    && WellSet(w) && |s.hosts| == |s.queued| == |w.links|
    && HostsOk(w, s.hosts) && WireOk(w, s.wire) && AllTold(s)
  }

  lemma StartOk(w: Setup)
    requires WellSet(w)
    ensures Inv(w, Start(w))
  {
    forall i: nat | i < |w.init| ensures HostOk(w, i, Start(w).hosts[i]) {
      ReachesSelf(w, i);
      if w.init[i].Some? {
        assert Source(w, i, i);
        forall k | k in w.init[i].value ensures Heard(w, i, k) { assert Source(w, i, i); }
      }
    }
  }

  lemma {:induction false} NewSendsExact(children: seq<nat>, contacted: set<nat>, stmt: Statement)
    ensures
      var ns := NewSends(children, contacted, stmt);
      forall a :: a in ns <==> a.Send? && a.statement == stmt && a.to in children && a.to !in contacted
    decreases |children|
  {
    if children != [] {
      var c, rest := children[0], children[1..];
      assert children == [c] + rest;
      NewSendsExact(rest, if c in contacted then contacted else contacted + {c}, stmt);
    }
  }

  /** As many sends as there are children not contacted yet. */
  lemma {:induction false} NewSendsCount(children: seq<nat>, contacted: set<nat>, stmt: Statement)
    ensures |NewSends(children, contacted, stmt)| == |Elements(children) - contacted|
    decreases |children|
  {
    if children != [] {
      var c, rest := children[0], children[1..];
      ElementsCons(children);
      SizeStep(c, Elements(rest), contacted);
      NewSendsCount(rest, if c in contacted then contacted else contacted + {c}, stmt);
    }
  }

  lemma ElementsCons(s: seq<nat>)
    requires s != []
    ensures Elements(s) == {s[0]} + Elements(s[1..])
  {
    assert s == [s[0]] + s[1..];
  }

  lemma SizeStep(c: nat, rest: set<nat>, contacted: set<nat>)
    ensures c in contacted ==> ({c} + rest) - contacted == rest - contacted
    ensures c !in contacted ==> |({c} + rest) - contacted| == 1 + |rest - (contacted + {c})|
  {
    if c !in contacted {
      var later := rest - (contacted + {c});
      assert ({c} + rest) - contacted == {c} + later;
      assert |{c} + later| == 1 + |later|;
    }
  }

  /** What the host's statement becomes: its own combined with the one that came in. */
  function Merged(h: Host, stmt: Statement): Statement {
    if h.statement.Some? then h.statement.value + stmt else stmt
  }

  lemma InjectMerges(w: Setup, h: Host, p: Packet)
    requires WellSet(w) && PacketOk(w, p) && p.to < |w.links| && HostOk(w, p.to, h)
    ensures
      var grown := h.statement.Some? && |Merged(h, p.statement)| > |h.statement.value|;
      Inject(w.valid, w.links[p.to], h, p.from, p.statement)
      == h.(statement := Some(Merged(h, p.statement)), contacted := if grown then {} else h.contacted)
  {
    PartVerifies(w.valid, p.statement, w.truth);
    if h.statement.Some? {
      PartsCombine(h.statement.value, p.statement, w.truth);
    }
  }

  /** Merging fair statements is fair. */
  lemma MergedFair(w: Setup, i: nat, h: Host, stmt: Statement)
    requires |w.init| == |w.links| && i < |w.links| && HostOk(w, i, h) && Fair(w, i, stmt)
    ensures Fair(w, i, Merged(h, stmt)) && Part(stmt, Merged(h, stmt))
    ensures h.statement.Some? ==> Part(h.statement.value, Merged(h, stmt))
    ensures h.statement.Some? ==> |h.statement.value| <= |Merged(h, stmt)|
    ensures h.statement.Some? && |Merged(h, stmt)| == |h.statement.value| ==> Merged(h, stmt) == h.statement.value
  {
    if h.statement.Some? {
      PartsCombine(h.statement.value, stmt, w.truth);
      CombineWeight(h.statement.value, stmt);
    }
  }

  /** What a host makes of a packet that the invariant allows. */
  lemma InjectOk(w: Setup, h: Host, p: Packet)
    requires WellSet(w) && PacketOk(w, p) && p.to < |w.links| && HostOk(w, p.to, h)
    ensures
      var h' := Inject(w.valid, w.links[p.to], h, p.from, p.statement);
      && HostOk(w, p.to, h') && Holds(h', p.statement) && h'.outbox == h.outbox
      && (h.statement.Some? ==> Holds(h', h.statement.value))
      && ((h'.statement == h.statement && h'.contacted == h.contacted) || h'.contacted == {})
      && (h.statement.Some? && h'.statement != h.statement ==> |h'.statement.value| > |h.statement.value|)
  {
    HeardPassesOn(w, p.from, p.to);
    InjectMerges(w, h, p);
    MergedFair(w, p.to, h, p.statement);
    if w.init[p.to].Some? && h.statement.Some? {
      PartTransitive(w.init[p.to].value, h.statement.value, Merged(h, p.statement));
    }
  }

  /** What a host held before a delivery it still holds. */
  lemma StillHolds(w: Setup, a: Net, b: Net, p: Packet, c: nat, stmt: Statement)
    requires Inv(w, a) && DeliverStep(w, a, b, p) && c < |a.hosts| && Holds(a.hosts[c], stmt)
    ensures Holds(b.hosts[c], stmt)
  {
    if c == p.to {
      assert PacketOk(w, p) && HostOk(w, p.to, a.hosts[p.to]);
      InjectOk(w, a.hosts[p.to], p);
      PartTransitive(stmt, a.hosts[c].statement.value, b.hosts[c].statement.value);
    }
  }

  /** A delivery that leaves somebody contacted has not changed the statement. */
  lemma StillContacted(w: Setup, a: Net, b: Net, p: Packet, i: nat, c: nat)
    requires Inv(w, a) && DeliverStep(w, a, b, p)
    requires i < |b.hosts| && b.hosts[i].statement.Some? && c in b.hosts[i].contacted
    ensures b.hosts[i].statement == a.hosts[i].statement && c in a.hosts[i].contacted && b.hosts[i].outbox == a.hosts[i].outbox
  {
    if i == p.to {
      assert PacketOk(w, p) && HostOk(w, p.to, a.hosts[p.to]);
      InjectOk(w, a.hosts[p.to], p);
    }
  }

  lemma DeliverTold(w: Setup, a: Net, b: Net, p: Packet, i: nat, c: nat)
    requires Inv(w, a) && DeliverStep(w, a, b, p)
    requires i < |b.hosts| && b.hosts[i].statement.Some? && c in b.hosts[i].contacted
    ensures c < |b.hosts| && Told(b, i, c)
  {
    StillContacted(w, a, b, p, i, c);
    assert Told(a, i, c);
    var stmt := a.hosts[i].statement.value;
    if Packet(i, c, stmt) == p {
      assert PacketOk(w, p) && HostOk(w, p.to, a.hosts[p.to]);
      InjectOk(w, a.hosts[p.to], p);
    } else if Packet(i, c, stmt) in a.wire {
      assert Packet(i, c, stmt) in b.wire;
    } else if Holds(a.hosts[c], stmt) {
      StillHolds(w, a, b, p, c, stmt);
    }
  }

  lemma DeliverOk(w: Setup, a: Net, b: Net, p: Packet)
    requires Inv(w, a) && DeliverStep(w, a, b, p)
    ensures Inv(w, b)
  {
    assert PacketOk(w, p) && HostOk(w, p.to, a.hosts[p.to]);
    InjectOk(w, a.hosts[p.to], p);
    assert forall q :: q in b.wire ==> q in a.wire;
    forall i: nat, c: nat | i < |b.hosts| && b.hosts[i].statement.Some? && c in b.hosts[i].contacted
      ensures c < |b.hosts| && Told(b, i, c)
    {
      DeliverTold(w, a, b, p, i, c);
    }
  }

  /** What a poll leaves in the host, and what it takes out. */
  lemma PollHostOk(w: Setup, i: nat, h: Host)
    requires WellSet(w) && i < |w.links| && HostOk(w, i, h)
    ensures
      var told := Announce(w.links[i], h);
      var (h', r) := Poll(w.links[i], h, false);
      && HostOk(w, i, told) && HostOk(w, i, h')
      && h'.statement == h.statement && h'.contacted == told.contacted
      && (r.Acted? ==> FairAction(w, i, r.action) && told.outbox == [r.action] + h'.outbox)
      && (!r.Acted? ==> told.outbox == h'.outbox == [])
      && (forall c :: c in told.contacted && c !in h.contacted && h.statement.Some? ==> Send(c, h.statement.value) in told.outbox)
      && (forall x :: x in h.outbox ==> x in told.outbox)
  {
    if h.statement.Some? {
      NewSendsExact(w.links[i].children, h.contacted, h.statement.value);
    }
    var told := Announce(w.links[i], h);
    if told.outbox != [] {
      assert told.outbox[0] in told.outbox;
      assert told.outbox == [told.outbox[0]] + told.outbox[1..];
    }
  }

  lemma PollTold(w: Setup, a: Net, b: Net, i: nat, j: nat, c: nat)
    requires Inv(w, a) && PollStep(w, a, b, i)
    requires j < |b.hosts| && b.hosts[j].statement.Some? && c in b.hosts[j].contacted
    ensures c < |b.hosts| && Told(b, j, c)
  {
    assert HostOk(w, i, a.hosts[i]) && HostOk(w, j, a.hosts[j]);
    PollHostOk(w, i, a.hosts[i]);
    var told := Announce(w.links[i], a.hosts[i]);
    var stmt := a.hosts[j].statement.value;
    if c in a.hosts[j].contacted {
      assert Told(a, j, c);
      assert Holds(a.hosts[c], stmt) ==> Holds(b.hosts[c], stmt);
      assert Packet(j, c, stmt) in a.wire ==> Packet(j, c, stmt) in b.wire;
    } else {
      assert Edge(w, i, c);
    }
    if j == i && Send(c, stmt) in told.outbox && Send(c, stmt) !in b.hosts[i].outbox {
      assert Packet(i, c, stmt) in b.wire;
    }
  }

  lemma PollOk(w: Setup, a: Net, b: Net, i: nat)
    requires Inv(w, a) && PollStep(w, a, b, i)
    ensures Inv(w, b)
  {
    assert HostOk(w, i, a.hosts[i]);
    PollHostOk(w, i, a.hosts[i]);
    forall j: nat, c: nat | j < |b.hosts| && b.hosts[j].statement.Some? && c in b.hosts[j].contacted
      ensures c < |b.hosts| && Told(b, j, c)
    {
      PollTold(w, a, b, i, j, c);
    }
  }

  lemma {:induction false} RunOk(w: Setup, run: seq<Net>, t: nat)
    requires WellSet(w) && IsRun(w, run) && t < |run|
    ensures Inv(w, run[t])
  {
    if t == 0 {
      StartOk(w);
    } else {
      RunOk(w, run, t - 1);
      var a, b := run[t - 1], run[t];
      assert Step(w, run[t - 1], run[t - 1 + 1]);
      if i: nat :| PollStep(w, a, b, i) {
        PollOk(w, a, b, i);
      } else {
        var p :| DeliverStep(w, a, b, p);
        DeliverOk(w, a, b, p);
      }
    }
  }

  // ----- what every host ends up with -----

  /** At rest, statements flow along every edge, hence along every path. */
  lemma {:induction false} FlowsAlong(w: Setup, s: Net, path: seq<nat>)
    requires Inv(w, s) && Quiescent(w, s) && IsPath(w, path) && path[|path| - 1] < |w.links|
    requires w.init[path[0]].Some?
    ensures Holds(s.hosts[path[|path| - 1]], w.init[path[0]].value)
    decreases |path|
  {
    assert HostOk(w, path[0], s.hosts[path[0]]);
    if |path| > 1 {
      var front := path[..|path| - 1];
      forall t | 0 < t < |front| ensures Edge(w, front[t - 1], front[t]) { assert Edge(w, path[t - 1], path[t]); }
      FlowsAlong(w, s, front);
      var i, c := front[|front| - 1], path[|path| - 1];
      assert Edge(w, path[|path| - 1 - 1], path[|path| - 1]);
      assert c in s.hosts[i].contacted;
      assert Told(s, i, c);
    }
  }

  /** At quiescence of any run, each host holds exactly the union of the initial statements of the
      hosts that reach it, its own included: the same entries, with their original values. */
  lemma QuiescentUnion(w: Setup, run: seq<Net>, j: nat)
    requires WellSet(w) && IsRun(w, run) && j < |w.links|
    requires |run[|run| - 1].hosts| == |w.links| && Quiescent(w, run[|run| - 1])
    ensures
      var h := run[|run| - 1].hosts[j];
      && (h.statement.Some? <==> HearsAny(w, j))
      && (h.statement.Some? ==> Part(h.statement.value, w.truth))
      && (h.statement.Some? ==> forall k :: k in h.statement.value <==> Heard(w, j, k))
  {
    var s := run[|run| - 1];
    RunOk(w, run, |run| - 1);
    var h := s.hosts[j];
    assert HostOk(w, j, h);
    forall i: nat | Source(w, i, j) ensures Holds(h, w.init[i].value) {
      var path :| IsPath(w, path) && path[0] == i && path[|path| - 1] == j;
      FlowsAlong(w, s, path);
    }
  }

  // ----- how many sends there can be -----

  function Weight(h: Host): nat {
    if h.statement.Some? then |h.statement.value| else 0
  }

  /** What a host may have queued: a full wave for each entry it holds, and the current wave. */
  function Budget(links: Links, h: Host): nat {
    |Children(links)| * Weight(h) + |h.contacted|
  }

  /** Each wave to all children is paid for by an entry gained since the one before. */
  ghost predicate Paid(w: Setup, s: Net, i: nat)
    requires i < |s.hosts| == |s.queued| == |w.links|
  {
    s.queued[i] <= Budget(w.links[i], s.hosts[i])
  }

  lemma PollPaid(w: Setup, a: Net, b: Net, i: nat)
    requires Inv(w, a) && PollStep(w, a, b, i) && Paid(w, a, i)
    ensures Inv(w, b) && Paid(w, b, i)
  {
    PollOk(w, a, b, i);
    var h, links := a.hosts[i], w.links[i];
    assert HostOk(w, i, h);
    if h.statement.Some? {
      NewSendsCount(links.children, h.contacted, h.statement.value);
      var all := Children(links);
      assert h.contacted + all == h.contacted + (all - h.contacted);
      assert |h.contacted + all| == |h.contacted| + |all - h.contacted|;
    }
  }

  /** Growing by an entry pays for one full wave. */
  lemma WavePaid(n: nat, before: nat, after: nat, contacted: nat)
    requires contacted <= n && before < after
    ensures n * before + contacted <= n * after
  {
    MulMonotone(before + 1, after, n);
    assert n * (before + 1) == n * before + n;
  }

  /** Taking in a message never shrinks the budget. */
  lemma InjectBudget(w: Setup, h: Host, p: Packet)
    requires WellSet(w) && PacketOk(w, p) && p.to < |w.links| && HostOk(w, p.to, h)
    ensures Budget(w.links[p.to], Inject(w.valid, w.links[p.to], h, p.from, p.statement)) >= Budget(w.links[p.to], h)
  {
    var h' := Inject(w.valid, w.links[p.to], h, p.from, p.statement);
    InjectOk(w, h, p);
    Subset(h.contacted, Children(w.links[p.to]));
    if h.statement.Some? && h'.statement != h.statement {
      WavePaid(|Children(w.links[p.to])|, Weight(h), Weight(h'), |h.contacted|);
    } else {
      MulMonotone(Weight(h), Weight(h'), |Children(w.links[p.to])|);
    }
  }

  lemma DeliverPaid(w: Setup, a: Net, b: Net, p: Packet, i: nat)
    requires Inv(w, a) && DeliverStep(w, a, b, p) && i < |a.hosts| && Paid(w, a, i)
    ensures Inv(w, b) && Paid(w, b, i)
  {
    DeliverOk(w, a, b, p);
    assert PacketOk(w, p) && HostOk(w, p.to, a.hosts[p.to]);
    InjectBudget(w, a.hosts[p.to], p);
  }

  lemma StepPaid(w: Setup, a: Net, b: Net, i: nat)
    requires Inv(w, a) && Step(w, a, b) && i < |a.hosts| && Paid(w, a, i)
    ensures Inv(w, b) && Paid(w, b, i)
  {
    if x: nat :| PollStep(w, a, b, x) {
      if x == i {
        PollPaid(w, a, b, i);
      } else {
        PollOk(w, a, b, x);
      }
    } else {
      var p :| DeliverStep(w, a, b, p);
      DeliverPaid(w, a, b, p, i);
    }
  }

  lemma {:induction false} RunPaid(w: Setup, run: seq<Net>, t: nat, i: nat)
    requires WellSet(w) && IsRun(w, run) && t < |run| && i < |w.links|
    ensures Inv(w, run[t]) && Paid(w, run[t], i)
    decreases t
  {
    if t > 0 {
      RunPaid(w, run, t - 1, i);
      assert Step(w, run[t - 1], run[t - 1 + 1]);
      StepPaid(w, run[t - 1], run[t], i);
    } else {
      StartOk(w);
    }
  }

  lemma WavesBounded(n: nat, weight: nat, most: nat, contacted: nat)
    requires weight <= most && contacted <= n
    ensures n * weight + contacted <= n * (most + 1)
  {
    MulMonotone(weight, most, n);
    assert n * (most + 1) == n * most + n;
  }

  lemma BudgetBounded(w: Setup, i: nat, h: Host)
    requires |w.init| == |w.links| && i < |w.links| && HostOk(w, i, h)
    ensures Budget(w.links[i], h) <= |Children(w.links[i])| * (|w.truth| + 1)
  {
    Subset(h.contacted, Children(w.links[i]));
    if h.statement.Some? {
      PartWeighs(h.statement.value, w.truth);
    }
    WavesBounded(|Children(w.links[i])|, Weight(h), |w.truth|, |h.contacted|);
  }

  /** In any run a host queues at most one wave more than there are entries to learn. */
  lemma SendsBounded(w: Setup, run: seq<Net>, t: nat, i: nat)
    requires WellSet(w) && IsRun(w, run) && t < |run| && i < |w.links|
    ensures Inv(w, run[t])
    ensures run[t].queued[i] <= |Children(w.links[i])| * (|w.truth| + 1)
  {
    RunPaid(w, run, t, i);
    assert HostOk(w, i, run[t].hosts[i]);
    BudgetBounded(w, i, run[t].hosts[i]);
  }
}
