/** The round robin a level's dissemination runs over its peers. */
module HandelDissemination {
  import opened Prelude
  import opened Sorting
  import opened Partitioning
  import opened HandelSpec
  import Bits

  /** The states of completion of a level's `n` peers at successive calls: reports only add up. */
  ghost predicate Growing(dones: seq<seq<bool>>, n: nat) {
    && (forall t :: 0 <= t < |dones| ==> |dones[t]| == n)
    && (forall t, u, j :: 0 <= t < u < |dones| && 0 <= j < n ==> (dones[t][j] ==> dones[u][j]))
  }

  /** A report stands at every later call. */
  lemma ReportsStand(dones: seq<seq<bool>>, n: nat, t: nat, u: nat, j: nat)
    requires Growing(dones, n) && t <= u < |dones| && j < n
    ensures dones[t][j] ==> dones[u][j]
  {
  }

  predicate AllDone(done: seq<bool>) {
    forall j :: 0 <= j < |done| ==> done[j]
  }

  ghost predicate InRange(last: Option<nat>, n: nat) {
    last.Some? ==> last.value < n
  }

  /** Where the last contact stands after the calls made under `dones`. */
  ghost function LastAfter(dones: seq<seq<bool>>, n: nat, last: Option<nat>): (r: Option<nat>)
    requires InRange(last, n) && Growing(dones, n)
    ensures InRange(r, n)
    decreases |dones|
  {
    if dones == [] then last
    else
      var next := NextContact(dones[0], last);
      LastAfter(dones[1..], n, if next.Some? then next else last)
  }

  /** Call number `t` contacts position `j`. */
  ghost predicate ContactsAt(dones: seq<seq<bool>>, n: nat, last: Option<nat>, t: nat, j: nat)
    requires InRange(last, n) && Growing(dones, n) && t < |dones|
  {
    assert Growing(dones[..t], n);
    NextContact(dones[t], LastAfter(dones[..t], n, last)) == Some(j)
  }

  ghost predicate EventuallyContacts(dones: seq<seq<bool>>, n: nat, last: Option<nat>, j: nat)
    requires InRange(last, n) && Growing(dones, n)
  {
    exists t: nat :: t < |dones| && ContactsAt(dones, n, last, t, j)
  }

  /** How many places after `from` position `j` comes, between 1 and `n`. */
  function Distance(n: nat, from: nat, j: nat): (d: nat)
    requires from < n && j < n
    ensures 1 <= d <= n && CyclicAt(n, from, d) == j
  {
    if j > from then j - from else j + n - from
  }

  /** The next contact is the nearest position not done: everything nearer is done. */
  lemma {:induction false} NextIsNearest(done: seq<bool>, from: nat, d: nat, j: nat)
    requires from < |done| && j < |done| && !done[j] && 1 <= d <= Distance(|done|, from, j)
    ensures CyclicNext(done, from, d).Some?
    ensures var i := CyclicNext(done, from, d).value;
            d <= Distance(|done|, from, i) <= Distance(|done|, from, j)
    ensures var i := CyclicNext(done, from, d).value;
            forall x :: 0 <= x < |done| && d <= Distance(|done|, from, x) < Distance(|done|, from, i) ==> done[x]
    decreases |done| + 1 - d
  {
    var n := |done|;
    if done[CyclicAt(n, from, d)] {
      NextIsNearest(done, from, d + 1, j);
      var i := CyclicNext(done, from, d).value;
      forall x | 0 <= x < n && d <= Distance(n, from, x) < Distance(n, from, i) ensures done[x] {
        if Distance(n, from, x) == d { assert x == CyclicAt(n, from, d); }
      }
    }
  }

  /** Once some peer was contacted, a call always contacts the cyclically next peer that has not
      reported completion, and contacts nobody only when all have. */
  lemma NextContactNearest(done: seq<bool>, last: nat)
    requires last < |done|
    ensures
      var next := NextContact(done, Some(last));
      && (next.None? <==> AllDone(done))
      && (next.Some? ==>
            && !done[next.value]
            && forall x :: 0 <= x < |done| && Distance(|done|, last, x) < Distance(|done|, last, next.value) ==> done[x])
  {
    var next := NextContact(done, Some(last));
    if exists x :: 0 <= x < |done| && !done[x] {
      var x :| 0 <= x < |done| && !done[x];
      NextIsNearest(done, last, 1, x);
    }
  }

  lemma GrowingTail(dones: seq<seq<bool>>, n: nat)
    requires Growing(dones, n) && dones != []
    ensures Growing(dones[1..], n)
  {
  }

  lemma ContactsShift(dones: seq<seq<bool>>, n: nat, last: Option<nat>, t: nat, j: nat)
    requires InRange(last, n) && Growing(dones, n) && t + 1 < |dones|
    requires Growing(dones[1..], n)
    ensures
      var next := NextContact(dones[0], last);
      ContactsAt(dones[1..], n, if next.Some? then next else last, t, j) <==> ContactsAt(dones, n, last, t + 1, j)
  {
    assert Growing(dones[..t + 1], n) && Growing(dones[1..][..t], n);
    assert dones[..t + 1][1..] == dones[1..][..t];
    assert dones[..t + 1][0] == dones[0];
  }

  /** A contact happens at the first call or in the calls after it. */
  lemma EventuallyUnrolled(dones: seq<seq<bool>>, n: nat, last: Option<nat>, j: nat)
    requires InRange(last, n) && Growing(dones, n) && dones != [] && Growing(dones[1..], n)
    ensures
      var next := NextContact(dones[0], last);
      EventuallyContacts(dones, n, last, j) <==>
      next == Some(j) || EventuallyContacts(dones[1..], n, if next.Some? then next else last, j)
  {
    var next := NextContact(dones[0], last);
    var after := if next.Some? then next else last;
    assert dones[..0] == [];
    if t: nat :| t < |dones| && ContactsAt(dones, n, last, t, j) {
      if t > 0 {
        ContactsShift(dones, n, last, t - 1, j);
        assert ContactsAt(dones[1..], n, after, t - 1, j);
      }
    }
    if next == Some(j) {
      assert ContactsAt(dones, n, last, 0, j);
    } else if t: nat :| t < |dones[1..]| && ContactsAt(dones[1..], n, after, t, j) {
      ContactsShift(dones, n, last, t, j);
      assert ContactsAt(dones, n, last, t + 1, j);
    }
  }

  /** A peer is contacted within as many calls as it is places away, unless it reports first. */
  lemma {:induction false} ReachedInDistance(dones: seq<seq<bool>>, n: nat, last: nat, j: nat)
    requires last < n && j < n && Growing(dones, n)
    requires |dones| >= Distance(n, last, j)
    requires !dones[Distance(n, last, j) - 1][j]
    ensures exists t: nat :: t < Distance(n, last, j) && ContactsAt(dones, n, Some(last), t, j)
    decreases Distance(n, last, j)
  {
    var d := Distance(n, last, j);
    ReportsStand(dones, n, 0, d - 1, j);
    NextIsNearest(dones[0], last, 1, j);
    var i := NextContact(dones[0], Some(last)).value;
    assert dones[..0] == [];
    if i == j {
      assert ContactsAt(dones, n, Some(last), 0, j);
    } else {
      assert Distance(n, i, j) == d - Distance(n, last, i);
      var rest := dones[1..];
      GrowingTail(dones, n);
      var d' := Distance(n, i, j);
      assert rest[d' - 1] == dones[d'];
      ReportsStand(dones, n, d', d - 1, j);
      ReachedInDistance(rest, n, i, j);
      var t: nat :| t < d' && ContactsAt(rest, n, Some(i), t, j);
      ContactsShift(dones, n, Some(last), t, j);
      assert ContactsAt(dones, n, Some(last), t + 1, j);
    }
  }

  /** Once a level has a last contact: within as many calls as it has peers, every peer has been
      contacted or has reported completion, even while reports keep coming in. */
  lemma RoundRobinFair(dones: seq<seq<bool>>, n: nat, last: nat, j: nat)
    requires last < n && j < n && Growing(dones, n) && |dones| >= n
    ensures EventuallyContacts(dones, n, Some(last), j) || dones[n - 1][j]
  {
    var d := Distance(n, last, j);
    if !dones[n - 1][j] {
      ReportsStand(dones, n, d - 1, n - 1, j);
      ReachedInDistance(dones, n, last, j);
      var t: nat :| t < d && ContactsAt(dones, n, Some(last), t, j);
      assert EventuallyContacts(dones, n, Some(last), j);
    }
  }

  // ----- before the first contact -----

  /** A level whose first peer reports before being contacted never contacts anyone. */
  lemma {:induction false} StuckBeforeFirst(dones: seq<seq<bool>>, n: nat)
    requires n > 0 && Growing(dones, n) && dones != [] && dones[0][0]
    ensures LastAfter(dones, n, None) == None
    decreases |dones|
  {
    GrowingTail(dones, n);
    if |dones| > 1 {
      assert dones[1][0];
      StuckBeforeFirst(dones[1..], n);
    }
  }

  lemma StuckContactsNobody(dones: seq<seq<bool>>, n: nat, j: nat)
    requires n > 0 && Growing(dones, n) && dones != [] && dones[0][0]
    ensures !EventuallyContacts(dones, n, None, j)
  {
    forall t: nat | t < |dones| ensures !ContactsAt(dones, n, None, t, j) {
      assert Growing(dones[..t], n);
      if t > 0 {
        assert dones[..t][0] == dones[0];
        StuckBeforeFirst(dones[..t], n);
        assert dones[0][0] ==> dones[t][0];
      }
    }
  }

  lemma ServedFromStart(dones: seq<seq<bool>>, n: nat, j: nat)
    requires j < n && Growing(dones, n) && |dones| >= n && !dones[0][0] && !dones[|dones| - 1][j]
    ensures EventuallyContacts(dones, n, None, j)
  {
    GrowingTail(dones, n);
    EventuallyUnrolled(dones, n, None, j);
    if j > 0 {
      var rest := dones[1..];
      assert rest[j - 1] == dones[j];
      ReportsStand(dones, n, j, |dones| - 1, j);
      ReachedInDistance(rest, n, 0, j);
      var t: nat :| t < j && ContactsAt(rest, n, Some(0), t, j);
      assert EventuallyContacts(rest, n, Some(0), j);
    }
  }

  // ----- the fast path -----

  lemma {:induction false} DedupSorted(s: seq<nat>)
    requires Sorted((p: nat) => p, s)
    ensures forall x :: x in Dedup(s) <==> x in s
    ensures forall i, j :: 0 <= i < j < |Dedup(s)| ==> Dedup(s)[i] < Dedup(s)[j]
    ensures s != [] ==> Dedup(s) != [] && Dedup(s)[0] == s[0]
  {
    if |s| > 1 {
      DedupSorted(s[1..]);
      assert s == [s[0]] + s[1..];
    }
  }

  ghost predicate PassedOver(peers: seq<nat>, offset: nat, window: nat, p: nat)
    requires window > 0 ==> peers != []
  {
    exists ix: nat :: ix < window && p == peers[WindowAt(|peers|, offset, ix)]
  }

  function Passed(peers: seq<nat>, offset: nat, window: nat): seq<nat>
    requires window > 0 ==> peers != []
  {
    seq(window, (ix: nat) requires ix < window => peers[WindowAt(|peers|, offset, ix)])
  }

  lemma PassedMembers(peers: seq<nat>, offset: nat, window: nat, p: nat)
    requires window > 0 ==> peers != []
    ensures p in Passed(peers, offset, window) <==> PassedOver(peers, offset, window, p)
  {
    var passed := Passed(peers, offset, window);
    if p in passed {
      var ix :| 0 <= ix < window && passed[ix] == p;
      assert p == peers[WindowAt(|peers|, offset, ix)];
    }
    if PassedOver(peers, offset, window, p) {
      var ix: nat :| ix < window && p == peers[WindowAt(|peers|, offset, ix)];
      assert passed[ix] == p;
    }
  }

  /** The fast path addresses, each once and in order, exactly the peers the window passes over
      that have not reported the level complete. */
  lemma FastPathExact(peers: seq<nat>, done: map<nat, set<nat>>, level: nat, offset: nat, window: nat, p: nat)
    requires window > 0 ==> peers != []
    ensures
      var ts := FastPathTargets(peers, done, level, offset, window);
      && (forall i, j :: 0 <= i < j < |ts| ==> ts[i] < ts[j])
      && (p in ts <==> PassedOver(peers, offset, window, p) && !ReportedComplete(done, p, level))
  {
    var found := FastPathPeers(peers, done, level, offset, window);
    var key := (p: nat) => p;
    SortCorrect(key, found);
    SameElements(found, SortByKey(key, found));
    DedupSorted(SortByKey(key, found));
    PassedMembers(peers, offset, window, p);
    assert found == Filter(p => !ReportedComplete(done, p, level), Passed(peers, offset, window));
  }

  /** Every addressed peer is sent the message, in order. */
  lemma {:induction false} SendAllReaches(e: Env, targets: seq<nat>, m: Message)
    requires forall i :: 0 <= i < |targets| ==> targets[i] < |e.pp.peers|
    ensures SendAll(e, targets, m) == seq(|targets|, i requires 0 <= i < |targets| => Envelope(e.pp.peers[targets[i]], m))
  {
    if targets != [] { SendAllReaches(e, targets[1..], m); }
  }

  /** How many peers of the level are passed before the one at `pos`, starting after the last contact. */
  function PassedBefore(n: nat, last: Option<nat>, pos: nat): nat
    requires pos < n && (last.Some? ==> last.value < n)
  {
    if last.None? then pos else if pos > last.value then pos - last.value - 1 else pos + n - last.value - 1
  }

  lemma WindowMeets(n: nat, last: Option<nat>, pos: nat)
    requires pos < n && (last.Some? ==> last.value < n)
    ensures WindowAt(n, Offset(last), PassedBefore(n, last, pos)) == pos
  {
    if last.Some? && pos <= last.value { Bits.ModStep(pos + n, n); }
    Bits.QuotientUnique(pos, n, 0, pos);
  }

  lemma {:induction false} WindowPlace(n: nat, last: Option<nat>, ix: nat)
    requires n > 0 && (last.Some? ==> last.value < n)
    ensures PassedBefore(n, last, WindowAt(n, Offset(last), ix)) <= ix
    decreases ix
  {
    if ix >= n {
      Bits.ModStep(ix + Offset(last), n);
      WindowPlace(n, last, ix - n);
    } else if ix + Offset(last) < n {
      Bits.QuotientUnique(ix + Offset(last), n, 0, ix + Offset(last));
    } else {
      Bits.ModStep(ix + Offset(last), n);
      Bits.QuotientUnique(ix + Offset(last) - n, n, 0, ix + Offset(last) - n);
    }
  }

  /** The peer at a position of the level is among the next `window` ones after the last contact. */
  ghost predicate Ahead(peers: seq<nat>, last: Option<nat>, window: nat, q: nat)
    requires last.Some? ==> last.value < |peers|
  {
    exists pos: nat :: pos < |peers| && peers[pos] == q && PassedBefore(|peers|, last, pos) < window
  }

  /** The window beginning after the last contact passes exactly the peers less than its size ahead. */
  lemma PassedIffAhead(peers: seq<nat>, last: Option<nat>, window: nat, q: nat)
    requires (window > 0 ==> peers != []) && (last.Some? ==> last.value < |peers|)
    ensures PassedOver(peers, Offset(last), window, q) <==> Ahead(peers, last, window, q)
  {
    if ix: nat :| ix < window && q == peers[WindowAt(|peers|, Offset(last), ix)] {
      WindowPlace(|peers|, last, ix);
      assert PassedBefore(|peers|, last, WindowAt(|peers|, Offset(last), ix)) < window;
    }
    if pos: nat :| pos < |peers| && peers[pos] == q && PassedBefore(|peers|, last, pos) < window {
      WindowMeets(|peers|, last, pos);
    }
  }

  lemma TargetsListed(peers: seq<nat>, done: map<nat, set<nat>>, level: nat, offset: nat, window: nat)
    requires window > 0 ==> peers != []
    ensures var ts := FastPathTargets(peers, done, level, offset, window); forall i :: 0 <= i < |ts| ==> ts[i] in peers
  {
    var ts := FastPathTargets(peers, done, level, offset, window);
    forall i | 0 <= i < |ts| ensures ts[i] in peers {
      FastPathExact(peers, done, level, offset, window, ts[i]);
      assert ts[i] in ts;
      var ix: nat :| ix < window && ts[i] == peers[WindowAt(|peers|, offset, ix)];
    }
  }

  /** Whom the fast path of a level addresses. */
  function FastTargets(e: Env, s: State, level: nat): seq<nat>
    requires level < |s.levels| == |e.pp.cvp| && s.levels[level].Some? && (e.pp.cvp[level] == [] ==> e.conf.fastPathWindow == 0)
  {
    FastPathTargets(e.pp.cvp[level], s.completedLevels, level, Offset(s.levels[level].value.lastContacted), e.conf.fastPathWindow)
  }

  /** The fast path queues, in ascending order, one message for each of the next peers after the last contact that have
      not reported: the level's best and the own contribution, not asking to be contacted. */
  lemma FastPathFollows(e: Env, s: State, level: nat, q: nat)
    requires level < |s.levels| == |e.pp.cvp| && s.levels[level].Some? && (e.pp.cvp[level] == [] ==> e.conf.fastPathWindow == 0)
    requires forall j :: j in e.pp.cvp[level] ==> j < |e.pp.peers|
    requires var last := s.levels[level].value.lastContacted; last.Some? ==> last.value < |e.pp.cvp[level]|
    ensures
      var lvl, ts := s.levels[level].value, FastTargets(e, s, level);
      && (q in ts <==> Ahead(e.pp.cvp[level], lvl.lastContacted, e.conf.fastPathWindow, q) && !ReportedComplete(s.completedLevels, q, level))
      && (forall i, j :: 0 <= i < j < |ts| ==> ts[i] < ts[j]) && (forall i :: 0 <= i < |ts| ==> ts[i] < |e.pp.peers|)
      && RunFastPath(e, s, level).outbox == s.outbox + seq(|ts|, i requires 0 <= i < |ts| =>
           Envelope(e.pp.peers[ts[i]], Message(level, OwnContribution(s), lvl.best.contribution, false)))
  {
    var peers, lvl, window := e.pp.cvp[level], s.levels[level].value, e.conf.fastPathWindow;
    var ts := FastTargets(e, s, level);
    FastPathExact(peers, s.completedLevels, level, Offset(lvl.lastContacted), window, q);
    PassedIffAhead(peers, lvl.lastContacted, window, q);
    TargetsListed(peers, s.completedLevels, level, Offset(lvl.lastContacted), window);
    SendAllReaches(e, ts, Message(level, OwnContribution(s), lvl.best.contribution, false));
  }
}
