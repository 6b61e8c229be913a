/** The versioned key-value store: every update leaves undo records, and a rollback plays them back. */
module Versioning {
  import opened Prelude

  datatype Undo<T, K, V> = Undo(version: T, key: K, value: V)

  /** A version and the serial numbers of its undo records. */
  datatype Bound<T> = Bound(version: T, first: nat, last: nat)

  datatype Db<T, K, V> = Db(data: map<K, V>, undo: map<nat, Undo<T, K, V>>, bounds: seq<Bound<T>>)

  // ----- updates -----

  function Write<K, V>(data: map<K, V>, es: seq<(K, V)>): map<K, V>
    decreases |es|
  {
    if es == [] then data else Write(data[es[0].0 := es[0].1], es[1..])
  }

  function KeyList<K, V>(es: seq<(K, V)>): seq<K> {
    seq(|es|, i requires 0 <= i < |es| => es[i].0)
  }

  /** What an update makes of the data: the removed keys go first, then the entries are put. */
  function Changed<K, V>(data: map<K, V>, removed: seq<K>, es: seq<(K, V)>): map<K, V> {
    Write(data - Elements(removed), es)
  }

  /** One undo record, under the next serial number, for every key that was there before. */
  function Record<T, K(==), V>(data: map<K, V>, version: T, keys: seq<K>, undo: map<nat, Undo<T, K, V>>, lsn: nat)
    : (map<nat, Undo<T, K, V>>, nat)
    decreases |keys|
  {
    if keys == [] then (undo, lsn)
    else if keys[0] in data then
      Record(data, version, keys[1..], undo[lsn + 1 := Undo(version, keys[0], data[keys[0]])], lsn + 1)
    else Record(data, version, keys[1..], undo, lsn)
  }

  /** The serial numbers from `first` up to, not including, `end`. */
  function Span(first: nat, end: nat): (r: set<nat>)
    ensures forall n: nat :: n in r <==> first <= n < end
  {
    if end <= first then {} else {end - 1} + Span(first, end - 1)
  }

  /** Taking away one number after a span of them. */
  lemma MinusSpan<V>(m: map<nat, V>, first: nat, n: nat)
    requires first <= n
    ensures (m - Span(first, n)) - {n} == m - Span(first, n + 1)
  {
    assert Span(first, n + 1) == Span(first, n) + {n};
  }

  lemma AndThis<V>(m: map<nat, V>, at: nat, end: nat)
    requires at < end
    ensures (m - Span(at + 1, end)) - {at} == m - Span(at, end)
  {
    assert Span(at, end) == Span(at + 1, end) + {at};
  }

  /** Taking away the number before a span, when the ones between are not there. */
  lemma MinusGap<V>(m: map<nat, V>, p: nat, at: nat, end: nat)
    requires p < at < end && forall n: nat :: p < n < at ==> n !in m
    ensures (m - Span(at + 1, end)) - {at} == m - Span(p + 1, end)
  {
    var a, b := (m - Span(at + 1, end)) - {at}, m - Span(p + 1, end);
    forall n: nat ensures n in a <==> n in b {
      assert n in Span(at + 1, end) <==> at + 1 <= n < end;
      assert n in Span(p + 1, end) <==> p + 1 <= n < end;
    }
    assert a.Keys == b.Keys;
  }

  /** The greatest serial number in use, 0 if there is none. */
  ghost function LastLsn<T, K, V>(undo: map<nat, Undo<T, K, V>>): nat {
    Greatest(undo.Keys)
  }

  ghost function Greatest(keys: set<nat>): (m: nat)
    ensures forall k :: k in keys ==> k <= m
    ensures if keys == {} then m == 0 else m in keys
    decreases |keys|
  {
    if keys == {} then 0
    else
      var k :| k in keys;
      var rest := Greatest(keys - {k});
      assert forall j :: j in keys ==> j == k || j in keys - {k};
      if rest > k then rest else k
  }

  /** The oldest version goes when `keep + 1` are there. */
  function TrimUndo<T, K, V>(keep: nat, undo: map<nat, Undo<T, K, V>>, bounds: seq<Bound<T>>): map<nat, Undo<T, K, V>> {
    if |bounds| == keep + 1 then undo - Span(bounds[0].first, bounds[0].last + 1) else undo
  }

  function TrimBounds<T>(keep: nat, bounds: seq<Bound<T>>): seq<Bound<T>> {
    if |bounds| == keep + 1 then bounds[1..] else bounds
  }

  ghost function Updated<T, K, V>(keep: nat, db: Db<T, K, V>, version: T, removed: seq<K>, es: seq<(K, V)>): Db<T, K, V> {
    if removed == [] && es == [] then db
    else
      var top := LastLsn(db.undo);
      var (undo, lsn) := Record(db.data, version, removed + KeyList(es), db.undo, top);
      Db(Changed(db.data, removed, es), TrimUndo(keep, undo, db.bounds),
         TrimBounds(keep, db.bounds) + [Bound(version, if lsn == top then lsn else top + 1, lsn)])
  }

  // ----- rolling back -----

  /** The first entry of the version. */
  function IndexOf<T(==)>(bounds: seq<Bound<T>>, version: T): (r: Option<nat>)
    ensures r.Some? ==> r.value < |bounds| && bounds[r.value].version == version
    ensures r.Some? ==> forall j :: 0 <= j < r.value ==> bounds[j].version != version
    ensures r.None? ==> forall j :: 0 <= j < |bounds| ==> bounds[j].version != version
  {
    if bounds == [] then None
    else if bounds[0].version == version then Some(0)
    else
      var rest := IndexOf(bounds[1..], version);
      if rest.None? then None else Some(rest.value + 1)
  }

  /** The iterator's position after seeking: the least number from `from` on. */
  ghost function Seek(keys: set<nat>, from: nat): (r: Option<nat>)
    ensures r.None? ==> forall k :: k in keys ==> k < from
    ensures r.Some? ==> r.value in keys && from <= r.value && forall k :: k in keys && from <= k ==> r.value <= k
  {
    if exists k :: k in keys && from <= k then SeekUp(keys, from) else None
  }

  ghost function SeekUp(keys: set<nat>, from: nat): (r: Option<nat>)
    requires exists k :: k in keys && from <= k
    ensures r.Some? && r.value in keys && from <= r.value && forall k :: k in keys && from <= k ==> r.value <= k
    decreases Greatest(keys) - from
  {
    if from in keys then Some(from)
    else
      assert exists k :: k in keys && from + 1 <= k;
      SeekUp(keys, from + 1)
  }

  /** The iterator one step back: the greatest number below `at`. */
  function Prev<T, K, V>(undo: map<nat, Undo<T, K, V>>, at: nat): (r: Option<nat>)
    ensures r.Some? ==> r.value < at && r.value in undo && forall n: nat :: r.value < n < at ==> n !in undo
    ensures r.None? ==> forall n: nat :: n < at ==> n !in undo
  {
    if at == 0 then None else if at - 1 in undo then Some(at - 1) else Prev(undo, at - 1)
  }

  /** Plays records back from `at` down to `first`; running out of records is a panic. */
  function PlayBack<T, K, V>(undo: map<nat, Undo<T, K, V>>, data: map<K, V>, at: nat, first: nat): Option<map<K, V>>
    requires at in undo
    decreases at
  {
    var data' := data[undo[at].key := undo[at].value];
    if at == first then Some(data')
    else
      var p := Prev(undo, at);
      if p.None? then None else PlayBack(undo, data', p.value, first)
  }

  /** The store after a rollback; a panic, which commits nothing, is `None`. */
  ghost function RolledBack<T, K, V>(db: Db<T, K, V>, version: T): Option<Db<T, K, V>> {
    var ix := IndexOf(db.bounds, version);
    if ix.None? then None
    else
      var first := db.bounds[ix.value].last + 1;
      var start := Seek(db.undo.Keys, db.bounds[|db.bounds| - 1].last);
      if start.None? then None
      else
        var data := PlayBack(db.undo, db.data, start.value, first);
        if data.None? then None
        else Some(Db(data.value, db.undo - Span(first, start.value + 1), db.bounds[..ix.value + 1]))
  }

  // ----- what a rollback gives back -----

  /** Every key with the value of the first of the states that has it. */
  function Earliest<K, V>(hist: seq<map<K, V>>): map<K, V>
    requires hist != []
  {
    if |hist| == 1 then hist[0] else Earliest(hist[1..]) + hist[0]
  }

  lemma {:induction false} EarliestIs<K, V>(hist: seq<map<K, V>>, k: K, j: nat)
    requires j < |hist| && k in hist[j] && forall i :: 0 <= i < j ==> k !in hist[i]
    ensures k in Earliest(hist) && Earliest(hist)[k] == hist[j][k]
  {
    if j > 0 {
      assert hist[1..][j - 1] == hist[j];
      EarliestIs(hist[1..], k, j - 1);
    }
  }

  lemma {:induction false} EarliestKeys<K, V>(hist: seq<map<K, V>>, k: K)
    requires hist != []
    ensures k in Earliest(hist) <==> exists j :: 0 <= j < |hist| && k in hist[j]
  {
    if |hist| > 1 {
      EarliestKeys(hist[1..], k);
      if k in Earliest(hist[1..]) {
        var j :| 0 <= j < |hist[1..]| && k in hist[1..][j];
        assert k in hist[j + 1];
      }
      if j :| 0 <= j < |hist| && k in hist[j] {
        if j > 0 { assert k in hist[1..][j - 1]; }
      }
    }
  }

  /** The first state is given back exactly when no later one has a key it lacks. */
  lemma EarliestIsFirstIff<K(!new), V>(hist: seq<map<K, V>>)
    requires hist != []
    ensures Earliest(hist) == hist[0] <==> forall j :: 0 <= j < |hist| ==> hist[j].Keys <= hist[0].Keys
  {
    if Earliest(hist) == hist[0] {
      forall j | 0 <= j < |hist| ensures hist[j].Keys <= hist[0].Keys {
        forall k | k in hist[j] ensures k in hist[0] { EarliestKeys(hist, k); }
      }
    }
    if forall j :: 0 <= j < |hist| ==> hist[j].Keys <= hist[0].Keys {
      forall k ensures k in Earliest(hist) <==> k in hist[0] {
        EarliestKeys(hist, k);
        if k in Earliest(hist) {
          var j :| 0 <= j < |hist| && k in hist[j];
          assert hist[j].Keys <= hist[0].Keys;
        }
      }
      forall k | k in hist[0] ensures Earliest(hist)[k] == hist[0][k] { EarliestIs(hist, k, 0); }
    }
  }

  // ----- playing back contiguous records -----

  ghost predicate HasAll<T, K, V>(undo: map<nat, Undo<T, K, V>>, lo: nat, hi: nat) {
    forall n: nat :: lo < n <= hi ==> n in undo
  }

  /** The records `hi` down to `lo + 1` put over the data. */
  function Overlay<T, K, V>(undo: map<nat, Undo<T, K, V>>, data: map<K, V>, lo: nat, hi: nat): map<K, V>
    requires HasAll(undo, lo, hi)
    decreases hi
  {
    if hi <= lo then data else Overlay(undo, data[undo[hi].key := undo[hi].value], lo, hi - 1)
  }

  lemma {:induction false} PlaysBack<T, K, V>(undo: map<nat, Undo<T, K, V>>, data: map<K, V>, lo: nat, hi: nat)
    requires HasAll(undo, lo, hi) && lo < hi
    ensures PlayBack(undo, data, hi, lo + 1) == Some(Overlay(undo, data, lo, hi))
    decreases hi
  {
    var data' := data[undo[hi].key := undo[hi].value];
    if hi == lo + 1 {
      assert Overlay(undo, data, lo, hi) == Overlay(undo, data', lo, lo);
    } else {
      assert Prev(undo, hi) == Some(hi - 1);
      PlaysBack(undo, data', lo, hi - 1);
    }
  }

  /** Below the number to stop at there is no stopping. */
  lemma {:induction false} RunsOut<T, K, V>(undo: map<nat, Undo<T, K, V>>, data: map<K, V>, at: nat, first: nat)
    requires at in undo && at < first
    ensures PlayBack(undo, data, at, first).None?
    decreases at
  {
    var p := Prev(undo, at);
    if p.Some? { RunsOut(undo, data[undo[at].key := undo[at].value], p.value, first); }
  }

  lemma {:induction false} OverlaySplit<T, K, V>(undo: map<nat, Undo<T, K, V>>, data: map<K, V>, lo: nat, mid: nat, hi: nat)
    requires HasAll(undo, lo, hi) && lo <= mid <= hi
    ensures Overlay(undo, data, lo, hi) == Overlay(undo, Overlay(undo, data, mid, hi), lo, mid)
    decreases hi
  {
    if mid < hi { OverlaySplit(undo, data[undo[hi].key := undo[hi].value], lo, mid, hi - 1); }
  }

  // ----- what the records of one update say -----

  ghost predicate Recorded<T, K, V>(undo: map<nat, Undo<T, K, V>>, lo: nat, hi: nat, k: K) {
    exists n: nat :: lo < n <= hi && n in undo && undo[n].key == k
  }

  /** Every record holds a value of the state before. */
  ghost predicate FromBefore<T, K, V>(before: map<K, V>, undo: map<nat, Undo<T, K, V>>, lo: nat, hi: nat) {
    forall n: nat :: lo < n <= hi ==> n in undo && undo[n].key in before && undo[n].value == before[undo[n].key]
  }

  /** The records between `lo` and `hi` bring back whatever the update took away. */
  ghost predicate Covers<T, K(!new), V>(before: map<K, V>, after: map<K, V>, undo: map<nat, Undo<T, K, V>>, lo: nat, hi: nat) {
    && FromBefore(before, undo, lo, hi)
    && forall k :: k in before ==> (k in after && after[k] == before[k]) || Recorded(undo, lo, hi, k)
  }

  lemma {:induction false} OverlayAt<T, K, V>(undo: map<nat, Undo<T, K, V>>, data: map<K, V>, before: map<K, V>, lo: nat, hi: nat, k: K)
    requires FromBefore(before, undo, lo, hi)
    ensures
      var r := Overlay(undo, data, lo, hi);
      && (k in r <==> k in data || Recorded(undo, lo, hi, k))
      && (Recorded(undo, lo, hi, k) ==> k in before && r[k] == before[k])
      && (k in data && !Recorded(undo, lo, hi, k) ==> r[k] == data[k])
    decreases hi
  {
    if lo < hi {
      var data' := data[undo[hi].key := undo[hi].value];
      OverlayAt(undo, data', before, lo, hi - 1, k);
      RecordedNext(undo, lo, hi, k);
    }
  }

  lemma RecordedNext<T, K, V>(undo: map<nat, Undo<T, K, V>>, lo: nat, hi: nat, k: K)
    requires lo < hi && hi in undo
    ensures Recorded(undo, lo, hi, k) <==> Recorded(undo, lo, hi - 1, k) || undo[hi].key == k
  {
    if Recorded(undo, lo, hi - 1, k) {
      var n: nat :| lo < n <= hi - 1 && n in undo && undo[n].key == k;
      assert lo < n <= hi;
    }
  }

  ghost predicate Extends<K, V>(small: map<K, V>, big: map<K, V>) {
    forall k :: k in small ==> k in big && big[k] == small[k]
  }

  /** Undoing one update over anything that extends the state after it. */
  lemma UndoesUpdate<T, K(!new), V>(before: map<K, V>, after: map<K, V>, undo: map<nat, Undo<T, K, V>>, lo: nat, hi: nat, data: map<K, V>)
    requires Covers(before, after, undo, lo, hi) && Extends(after, data)
    ensures Overlay(undo, data, lo, hi) == data + before
  {
    var r := Overlay(undo, data, lo, hi);
    forall k ensures (k in r <==> k in data + before) && (k in r ==> r[k] == (data + before)[k]) {
      OverlayAt(undo, data, before, lo, hi, k);
    }
    assert r.Keys == (data + before).Keys;
  }

  // ----- the states behind the kept versions -----

  /** The last serial number before version `i`. */
  function LsnBefore<T>(bounds: seq<Bound<T>>, base: nat, i: nat): nat
    requires i <= |bounds|
  {
    if i == 0 then base else bounds[i - 1].last
  }

  ghost predicate BoundOk<T>(bounds: seq<Bound<T>>, base: nat, i: nat)
    requires i < |bounds|
  {
    var prev, b := LsnBefore(bounds, base, i), bounds[i];
    prev <= b.last && b.first == if b.last == prev then prev else prev + 1
  }

  ghost predicate StepCovered<T, K(!new), V>(db: Db<T, K, V>, hist: seq<map<K, V>>, i: nat)
    requires i + 1 < |hist| == |db.bounds|
  {
    Covers(hist[i], hist[i + 1], db.undo, db.bounds[i].last, db.bounds[i + 1].last)
  }

  /** `hist` are the states of the kept versions, and the undo records lead from each to the one before. */
  ghost predicate Tracks<T, K(!new), V>(db: Db<T, K, V>, hist: seq<map<K, V>>, base: nat) {
    && |hist| == |db.bounds| && db.data == (if hist == [] then map[] else hist[|hist| - 1]) && (hist == [] ==> base == 0)
    && (forall i: nat :: i < |db.bounds| ==> BoundOk(db.bounds, base, i))
    && (forall n: nat :: n in db.undo <==> base < n <= LsnBefore(db.bounds, base, |db.bounds|))
    && (forall i: nat :: i + 1 < |hist| ==> StepCovered(db, hist, i))
  }

  lemma {:induction false} BoundsGrow<T>(bounds: seq<Bound<T>>, base: nat, i: nat, j: nat)
    requires i <= j <= |bounds| && forall i: nat :: i < |bounds| ==> BoundOk(bounds, base, i)
    ensures LsnBefore(bounds, base, i) <= LsnBefore(bounds, base, j)
    decreases j
  {
    if i < j {
      BoundsGrow(bounds, base, i, j - 1);
      assert BoundOk(bounds, base, j - 1);
    }
  }

  lemma EarliestExtends<K, V>(hist: seq<map<K, V>>)
    requires hist != []
    ensures Extends(hist[0], Earliest(hist))
  {
    forall k | k in hist[0] ensures k in Earliest(hist) && Earliest(hist)[k] == hist[0][k] { EarliestIs(hist, k, 0); }
  }

  /** Undoing everything after version `i` gives the earliest values from version `i` on. */
  lemma {:induction false} UndoesTo<T, K(!new), V>(db: Db<T, K, V>, hist: seq<map<K, V>>, base: nat, i: nat)
    requires Tracks(db, hist, base) && i < |hist|
    ensures HasAll(db.undo, db.bounds[i].last, db.bounds[|hist| - 1].last)
    ensures Overlay(db.undo, db.data, db.bounds[i].last, db.bounds[|hist| - 1].last) == Earliest(hist[i..])
    decreases |hist| - i
  {
    var lo, hi := db.bounds[i].last, db.bounds[|hist| - 1].last;
    BoundsGrow(db.bounds, base, 0, i + 1);
    if i + 1 == |hist| {
      assert hist[i..] == [hist[i]];
    } else {
      UndoesTo(db, hist, base, i + 1);
      BoundsGrow(db.bounds, base, i + 1, i + 2);
      BoundsGrow(db.bounds, base, i + 2, |hist|);
      var mid, rest := db.bounds[i + 1].last, hist[i + 1..];
      OverlaySplit(db.undo, db.data, lo, mid, hi);
      EarliestExtends(rest);
      assert StepCovered(db, hist, i);
      UndoesUpdate(hist[i], hist[i + 1], db.undo, lo, mid, Earliest(rest));
      assert hist[i..][1..] == rest;
    }
  }

  /** Where playing back starts, when the records are in step with the versions. */
  lemma SeeksLast<T, K(!new), V>(db: Db<T, K, V>, hist: seq<map<K, V>>, base: nat)
    requires Tracks(db, hist, base) && hist != []
    ensures
      var last := db.bounds[|hist| - 1].last;
      Seek(db.undo.Keys, last) == if base < last then Some(last) else None
  {
    var last := db.bounds[|hist| - 1].last;
    BoundsGrow(db.bounds, base, 0, |hist|);
    if base < last { assert last in db.undo.Keys; }
  }

  /** A rollback to a kept version goes through exactly when a later update left a record, that is, changed or
      removed a key that was there; it then gives every key the earliest value it had from that version on. */
  lemma RollbackGives<T, K(!new), V>(db: Db<T, K, V>, hist: seq<map<K, V>>, base: nat, version: T)
    requires Tracks(db, hist, base) && IndexOf(db.bounds, version).Some?
    ensures
      var ix := IndexOf(db.bounds, version).value;
      var r := RolledBack(db, version);
      && (r.Some? <==> db.bounds[ix].last < db.bounds[|hist| - 1].last)
      && (r.Some? ==> r.value.data == Earliest(hist[ix..]) && r.value.bounds == db.bounds[..ix + 1])
      && (r.Some? ==> r.value.undo == db.undo - Span(db.bounds[ix].last + 1, db.bounds[|hist| - 1].last + 1))
  {
    var ix := IndexOf(db.bounds, version).value;
    var lo, hi := db.bounds[ix].last, db.bounds[|hist| - 1].last;
    BoundsGrow(db.bounds, base, 0, ix + 1);
    BoundsGrow(db.bounds, base, ix + 1, |hist|);
    SeeksLast(db, hist, base);
    if lo < hi {
      UndoesTo(db, hist, base, ix);
      PlaysBack(db.undo, db.data, lo, hi);
    } else if base < hi {
      RunsOut(db.undo, db.data, hi, hi + 1);
    }
  }

  /** The version's own state comes back exactly when no later state has a key that it lacks. */
  lemma RollbackRestoresIff<T, K(!new), V>(db: Db<T, K, V>, hist: seq<map<K, V>>, base: nat, version: T)
    requires Tracks(db, hist, base) && RolledBack(db, version).Some?
    ensures
      var ix := IndexOf(db.bounds, version).value;
      && ix < |hist|
      && (RolledBack(db, version).value.data == hist[ix] <==> forall j: nat :: ix <= j < |hist| ==> hist[j].Keys <= hist[ix].Keys)
  {
    RollbackGives(db, hist, base, version);
    var ix := IndexOf(db.bounds, version).value;
    EarliestIsFirstIff(hist[ix..]);
    assert hist[ix..][0] == hist[ix];
    if forall j :: 0 <= j < |hist[ix..]| ==> hist[ix..][j].Keys <= hist[ix].Keys {
      forall j: nat | ix <= j < |hist| ensures hist[j].Keys <= hist[ix].Keys { assert hist[ix..][j - ix] == hist[j]; }
    }
  }

  lemma FromBeforeKept<T, K(!new), V>(a: map<K, V>, b: map<K, V>, c: map<K, V>, undo: map<nat, Undo<T, K, V>>,
                                      undo': map<nat, Undo<T, K, V>>, lo: nat, hi: nat)
    requires Covers(a, b, undo, lo, hi) && Extends(b, c)
    requires forall n: nat :: lo < n <= hi ==> n in undo' && undo'[n] == undo[n]
    ensures Covers(a, c, undo', lo, hi)
  {
    forall k | k in a && !(k in c && c[k] == a[k]) ensures Recorded(undo', lo, hi, k) {
      var n: nat :| lo < n <= hi && n in undo && undo[n].key == k;
      assert n in undo' && undo'[n].key == k;
    }
  }

  lemma RollbackCovered<T, K(!new), V>(db: Db<T, K, V>, hist: seq<map<K, V>>, base: nat, undo: map<nat, Undo<T, K, V>>, ix: nat, i: nat)
    requires Tracks(db, hist, base) && i < ix < |hist|
    requires forall n: nat :: n in db.undo && n <= db.bounds[ix].last ==> n in undo && undo[n] == db.undo[n]
    ensures
      var next := if i + 1 == ix then Earliest(hist[ix..]) else hist[i + 1];
      Covers(hist[i], next, undo, db.bounds[i].last, db.bounds[i + 1].last)
  {
    assert StepCovered(db, hist, i);
    BoundsGrow(db.bounds, base, i + 2, ix + 1);
    EarliestExtends(hist[ix..]);
    assert hist[ix..][0] == hist[ix];
    var next := if i + 1 == ix then Earliest(hist[ix..]) else hist[i + 1];
    FromBeforeKept(hist[i], hist[i + 1], next, db.undo, undo, db.bounds[i].last, db.bounds[i + 1].last);
  }

  /** After a rollback the versions left are still backed by their records, the last one with what came back. */
  lemma RollbackTracks<T, K(!new), V>(db: Db<T, K, V>, hist: seq<map<K, V>>, base: nat, version: T)
    requires Tracks(db, hist, base) && RolledBack(db, version).Some?
    ensures
      var ix := IndexOf(db.bounds, version).value;
      ix < |hist| && Tracks(RolledBack(db, version).value, hist[..ix] + [Earliest(hist[ix..])], base)
  {
    RollbackGives(db, hist, base, version);
    var ix := IndexOf(db.bounds, version).value;
    var r, hist' := RolledBack(db, version).value, hist[..ix] + [Earliest(hist[ix..])];
    BoundsGrow(db.bounds, base, ix + 1, |hist|);
    forall i: nat | i < |r.bounds| ensures BoundOk(r.bounds, base, i) { assert BoundOk(db.bounds, base, i); }
    forall i: nat | i + 1 < |hist'| ensures StepCovered(r, hist', i) {
      RollbackCovered(db, hist, base, r.undo, ix, i);
    }
  }

  // ----- updates keep track -----

  /** The serial numbers in use end where the last version ends. */
  ghost predicate InStep<T, K, V>(db: Db<T, K, V>) {
    LastLsn(db.undo) == LsnBefore(db.bounds, 0, |db.bounds|)
  }

  /** A tracked store is in step exactly when nothing was ever recorded or a kept version has a record. */
  lemma InStepIff<T, K(!new), V>(db: Db<T, K, V>, hist: seq<map<K, V>>, base: nat)
    requires Tracks(db, hist, base)
    ensures InStep(db) <==> var end := LsnBefore(db.bounds, 0, |db.bounds|); end == 0 || base < end
  {
    var end := LsnBefore(db.bounds, base, |db.bounds|);
    BoundsGrow(db.bounds, base, 0, |db.bounds|);
    if base < end { assert end in db.undo.Keys; }
  }

  /** What recording adds. */
  ghost predicate Adds<T, K, V>(data: map<K, V>, keys: seq<K>, undo: map<nat, Undo<T, K, V>>, lsn: nat,
                                undo': map<nat, Undo<T, K, V>>, lsn': nat) {
    && lsn <= lsn' && (forall n: nat :: n in undo' <==> n in undo || lsn < n <= lsn')
    && (forall n: nat :: n in undo && n <= lsn ==> undo'[n] == undo[n])
    && FromBefore(data, undo', lsn, lsn')
    && forall k :: k in keys && k in data ==> Recorded(undo', lsn, lsn', k)
  }

  lemma {:induction false} RecordAdds<T, K, V>(data: map<K, V>, version: T, keys: seq<K>, undo: map<nat, Undo<T, K, V>>, lsn: nat)
    requires forall n: nat :: n in undo ==> n <= lsn
    ensures var (undo', lsn') := Record(data, version, keys, undo, lsn); Adds(data, keys, undo, lsn, undo', lsn')
    decreases |keys|
  {
    if keys != [] {
      var rest := keys[1..];
      assert keys == [keys[0]] + rest;
      if keys[0] in data {
        var undo1 := undo[lsn + 1 := Undo(version, keys[0], data[keys[0]])];
        RecordAdds(data, version, rest, undo1, lsn + 1);
        var (undo', lsn') := Record(data, version, rest, undo1, lsn + 1);
        assert lsn + 1 in undo1 && undo'[lsn + 1] == undo1[lsn + 1];
        forall k | k in keys && k in data ensures Recorded(undo', lsn, lsn', k) {
          if k == keys[0] {
            assert undo'[lsn + 1].key == k;
          } else {
            assert Recorded(undo', lsn + 1, lsn', k);
            var n: nat :| lsn + 1 < n <= lsn' && n in undo' && undo'[n].key == k;
            assert lsn < n <= lsn';
          }
        }
      } else {
        RecordAdds(data, version, rest, undo, lsn);
      }
    }
  }

  lemma {:induction false} WriteFrame<K, V>(data: map<K, V>, es: seq<(K, V)>, k: K)
    requires k !in KeyList(es)
    ensures (k in Write(data, es) <==> k in data) && (k in data ==> Write(data, es)[k] == data[k])
    decreases |es|
  {
    if es != [] {
      assert KeyList(es)[0] == es[0].0;
      assert KeyList(es[1..]) == KeyList(es)[1..];
      WriteFrame(data[es[0].0 := es[0].1], es[1..], k);
    }
  }

  /** The records of an update cover it. */
  lemma UpdateCovered<T, K(!new), V>(data: map<K, V>, removed: seq<K>, es: seq<(K, V)>, undo: map<nat, Undo<T, K, V>>, lsn: nat,
                                     undo': map<nat, Undo<T, K, V>>, lsn': nat)
    requires Adds(data, removed + KeyList(es), undo, lsn, undo', lsn')
    ensures Covers(data, Changed(data, removed, es), undo', lsn, lsn')
  {
    var after := Changed(data, removed, es);
    forall k | k in data && !(k in after && after[k] == data[k]) ensures Recorded(undo', lsn, lsn', k) {
      if k !in removed + KeyList(es) { WriteFrame(data - Elements(removed), es, k); }
    }
  }

  /** A version more. */
  lemma Pushed<T, K(!new), V>(db: Db<T, K, V>, hist: seq<map<K, V>>, base: nat, version: T, data: map<K, V>,
                              undo: map<nat, Undo<T, K, V>>, lsn: nat, keys: seq<K>)
    requires Tracks(db, hist, base)
    requires var top := LsnBefore(db.bounds, base, |db.bounds|); Adds(db.data, keys, db.undo, top, undo, lsn) && Covers(db.data, data, undo, top, lsn)
    ensures
      var top := LsnBefore(db.bounds, base, |db.bounds|);
      Tracks(Db(data, undo, db.bounds + [Bound(version, if lsn == top then lsn else top + 1, lsn)]), hist + [data], base)
  {
    var top := LsnBefore(db.bounds, base, |db.bounds|);
    var b := Bound(version, if lsn == top then lsn else top + 1, lsn);
    var r, hist' := Db(data, undo, db.bounds + [b]), hist + [data];
    BoundsGrow(db.bounds, base, 0, |db.bounds|);
    forall i: nat | i < |r.bounds| ensures BoundOk(r.bounds, base, i) {
      if i < |db.bounds| { assert BoundOk(db.bounds, base, i); }
    }
    forall i: nat | i + 1 < |hist'| ensures StepCovered(r, hist', i) {
      if i + 1 < |hist| {
        assert StepCovered(db, hist, i);
        BoundsGrow(db.bounds, base, 0, i + 1);
        BoundsGrow(db.bounds, base, i + 2, |db.bounds|);
        FromBeforeKept(hist[i], hist[i + 1], hist[i + 1], db.undo, undo, db.bounds[i].last, db.bounds[i + 1].last);
      }
    }
  }

  /** The oldest of several versions less. */
  lemma Dropped<T, K(!new), V>(db: Db<T, K, V>, hist: seq<map<K, V>>, base: nat)
    requires Tracks(db, hist, base) && |hist| >= 2
    ensures
      var b := db.bounds[0];
      Tracks(Db(db.data, db.undo - Span(b.first, b.last + 1), db.bounds[1..]), hist[1..], b.last)
  {
    var b := db.bounds[0];
    var r, hist' := Db(db.data, db.undo - Span(b.first, b.last + 1), db.bounds[1..]), hist[1..];
    assert BoundOk(db.bounds, base, 0);
    BoundsGrow(db.bounds, base, 1, |db.bounds|);
    forall i: nat | i < |r.bounds| ensures BoundOk(r.bounds, b.last, i) { assert BoundOk(db.bounds, base, i + 1); }
    forall i: nat | i + 1 < |hist'| ensures StepCovered(r, hist', i) {
      assert StepCovered(db, hist, i + 1);
      BoundsGrow(db.bounds, base, 1, i + 2);
      BoundsGrow(db.bounds, base, i + 3, |db.bounds|);
      FromBeforeKept(hist[i + 1], hist[i + 2], hist[i + 2], db.undo, r.undo, db.bounds[i + 1].last, db.bounds[i + 2].last);
    }
  }

  /** The states and the base after an update. */
  function HistAfter<T, K, V>(keep: nat, db: Db<T, K, V>, hist: seq<map<K, V>>, removed: seq<K>, es: seq<(K, V)>): seq<map<K, V>>
  {
    if removed == [] && es == [] then hist
    else (if |db.bounds| == keep + 1 && hist != [] then hist[1..] else hist) + [Changed(db.data, removed, es)]
  }

  function BaseAfter<T, K, V>(keep: nat, db: Db<T, K, V>, base: nat, removed: seq<K>, es: seq<(K, V)>): nat {
    if (removed != [] || es != []) && |db.bounds| == keep + 1 then db.bounds[0].last else base
  }

  /** An update of a store in step keeps every version it keeps backed by records. */
  lemma UpdateTracks<T, K(!new), V>(keep: nat, db: Db<T, K, V>, hist: seq<map<K, V>>, base: nat, version: T, removed: seq<K>, es: seq<(K, V)>)
    requires Tracks(db, hist, base) && InStep(db)
    ensures Tracks(Updated(keep, db, version, removed, es), HistAfter(keep, db, hist, removed, es), BaseAfter(keep, db, base, removed, es))
  {
    if removed != [] || es != [] {
      var top, keys, data := LastLsn(db.undo), removed + KeyList(es), Changed(db.data, removed, es);
      var (undo, lsn) := Record(db.data, version, keys, db.undo, top);
      RecordAdds(db.data, version, keys, db.undo, top);
      UpdateCovered(db.data, removed, es, db.undo, top, undo, lsn);
      Pushed(db, hist, base, version, data, undo, lsn, keys);
      if |db.bounds| == keep + 1 {
        var b := Bound(version, if lsn == top then lsn else top + 1, lsn);
        Dropped(Db(data, undo, db.bounds + [b]), hist + [data], base);
        assert (db.bounds + [b])[1..] == db.bounds[1..] + [b] && (hist + [data])[1..] == hist[1..] + [data];
      }
    }
  }

  // ----- which updates leave records -----

  lemma {:induction false} RecordsIff<T, K, V>(data: map<K, V>, version: T, keys: seq<K>, undo: map<nat, Undo<T, K, V>>, lsn: nat)
    ensures var lsn' := Record(data, version, keys, undo, lsn).1; lsn <= lsn' && (lsn < lsn' <==> exists k :: k in keys && k in data)
    decreases |keys|
  {
    if keys != [] {
      var rest := keys[1..];
      assert keys == [keys[0]] + rest;
      if keys[0] in data {
        RecordsIff(data, version, rest, undo[lsn + 1 := Undo(version, keys[0], data[keys[0]])], lsn + 1);
      } else {
        RecordsIff(data, version, rest, undo, lsn);
      }
    }
  }

  // ----- whole runs -----

  datatype Op<T, K, V> = UpdateOp(version: T, removed: seq<K>, es: seq<(K, V)>) | RollbackOp(version: T)

  ghost function Done<T, K, V>(keep: nat, db: Db<T, K, V>, op: Op<T, K, V>): Option<Db<T, K, V>> {
    match op
    case UpdateOp(version, removed, es) => Some(Updated(keep, db, version, removed, es))
    case RollbackOp(version) => RolledBack(db, version)
  }

  ghost function AllDone<T, K, V>(keep: nat, db: Db<T, K, V>, ops: seq<Op<T, K, V>>): Option<Db<T, K, V>>
    decreases |ops|
  {
    if ops == [] then Some(db)
    else
      var r := Done(keep, db, ops[0]);
      if r.None? then None else AllDone(keep, r.value, ops[1..])
  }

  /** No update of the run starts out of step. */
  ghost predicate StaysInStep<T, K, V>(keep: nat, db: Db<T, K, V>, ops: seq<Op<T, K, V>>)
    decreases |ops|
  {
    ops == [] ||
    ((ops[0].UpdateOp? ==> InStep(db)) &&
     var r := Done(keep, db, ops[0]); r.Some? ==> StaysInStep(keep, r.value, ops[1..]))
  }

  ghost predicate Tracked<T(!new), K(!new), V(!new)>(db: Db<T, K, V>) {
    exists hist, base: nat :: Tracks(db, hist, base)
  }

  lemma OpTracks<T(!new), K(!new), V(!new)>(keep: nat, db: Db<T, K, V>, op: Op<T, K, V>)
    requires Tracked(db) && (op.UpdateOp? ==> InStep(db)) && Done(keep, db, op).Some?
    ensures Tracked(Done(keep, db, op).value)
  {
    var hist, base: nat :| Tracks(db, hist, base);
    match op
    case UpdateOp(version, removed, es) => UpdateTracks(keep, db, hist, base, version, removed, es);
    case RollbackOp(version) => RollbackTracks(db, hist, base, version);
  }

  lemma {:induction false} RunTracked<T(!new), K(!new), V(!new)>(keep: nat, db: Db<T, K, V>, ops: seq<Op<T, K, V>>)
    requires Tracked(db) && StaysInStep(keep, db, ops) && AllDone(keep, db, ops).Some?
    ensures Tracked(AllDone(keep, db, ops).value)
    decreases |ops|
  {
    if ops != [] {
      OpTracks(keep, db, ops[0]);
      RunTracked(keep, Done(keep, db, ops[0]).value, ops[1..]);
    }
  }

  /** Over every run of updates and rollbacks from the empty store, as long as no update starts out of step,
      the kept versions stay backed by their records. */
  lemma EveryRunTracked<T(!new), K(!new), V(!new)>(keep: nat, db: Db<T, K, V>, ops: seq<Op<T, K, V>>)
    requires db == Db(map[], map[], []) && StaysInStep(keep, db, ops) && AllDone(keep, db, ops).Some?
    ensures Tracked(AllDone(keep, db, ops).value)
  {
    assert Tracks(db, [], 0);
    RunTracked(keep, db, ops);
  }

  /** While no version has been trimmed, every run is in step. */
  lemma {:induction false} RoomStaysInStep<T, K(!new), V>(keep: nat, db: Db<T, K, V>, hist: seq<map<K, V>>, ops: seq<Op<T, K, V>>)
    requires Tracks(db, hist, 0) && |db.bounds| + |ops| <= keep + 1
    ensures StaysInStep(keep, db, ops)
    decreases |ops|
  {
    InStepIff(db, hist, 0);
    if ops != [] && Done(keep, db, ops[0]).Some? {
      match ops[0]
      case UpdateOp(version, removed, es) =>
        UpdateTracks(keep, db, hist, 0, version, removed, es);
        RoomStaysInStep(keep, Updated(keep, db, version, removed, es), HistAfter(keep, db, hist, removed, es), ops[1..]);
      case RollbackOp(version) =>
        RollbackTracks(db, hist, 0, version);
        var ix := IndexOf(db.bounds, version).value;
        RoomStaysInStep(keep, RolledBack(db, version).value, hist[..ix] + [Earliest(hist[ix..])], ops[1..]);
    }
  }

  // ----- out of step -----

  /** A tracked store out of step has no records, and all its versions end at the same number. */
  lemma OutOfStepShape<T, K(!new), V>(db: Db<T, K, V>, hist: seq<map<K, V>>, base: nat)
    requires Tracks(db, hist, base) && !InStep(db)
    ensures base > 0 && db.undo == map[] && LastLsn(db.undo) == 0
    ensures db.bounds != [] && forall i: nat :: i < |db.bounds| ==> db.bounds[i].first == db.bounds[i].last == base
  {
    InStepIff(db, hist, base);
    forall i: nat | i < |db.bounds| ensures db.bounds[i].first == db.bounds[i].last == base {
      BoundsGrow(db.bounds, base, 0, i);
      BoundsGrow(db.bounds, base, i + 1, |db.bounds|);
      assert BoundOk(db.bounds, base, i);
    }
  }

  /** Its next update numbers its records from 1, and trimming takes the one numbered like the versions' end. */
  lemma OutOfStepUpdate<T, K(!new), V>(keep: nat, db: Db<T, K, V>, hist: seq<map<K, V>>, base: nat, version: T,
                                       removed: seq<K>, es: seq<(K, V)>)
    requires Tracks(db, hist, base) && !InStep(db) && (removed != [] || es != [])
    ensures
      var r := Updated(keep, db, version, removed, es);
      var count := r.bounds[|r.bounds| - 1].last;
      && (count > 0 <==> exists k :: k in removed + KeyList(es) && k in db.data)
      && (forall n: nat :: n in r.undo <==> 0 < n <= count && (|db.bounds| == keep + 1 ==> n != base))
      && forall i: nat :: i < |r.bounds| - 1 ==> r.bounds[i].last == base
  {
    OutOfStepShape(db, hist, base);
    RecordAdds(db.data, version, removed + KeyList(es), db.undo, 0);
    RecordsIff(db.data, version, removed + KeyList(es), db.undo, 0);
  }

  /** A rollback over such an update to a version kept from before goes through exactly when the update left more
      records than the versions' end, and then takes back only the records after that number. */
  lemma OutOfStep<T, K(!new), V>(keep: nat, db: Db<T, K, V>, hist: seq<map<K, V>>, base: nat, version: T,
                                 removed: seq<K>, es: seq<(K, V)>, back: T)
    requires Tracks(db, hist, base) && !InStep(db) && (removed != [] || es != [])
    requires var r := Updated(keep, db, version, removed, es); var ix := IndexOf(r.bounds, back); ix.Some? && ix.value < |r.bounds| - 1
    ensures
      var r := Updated(keep, db, version, removed, es);
      var count := r.bounds[|r.bounds| - 1].last;
      && (RolledBack(r, back).Some? <==> base < count)
      && (base < count ==> HasAll(r.undo, base, count) && RolledBack(r, back).value.data == Overlay(r.undo, r.data, base, count))
  {
    OutOfStepUpdate(keep, db, hist, base, version, removed, es);
    var r := Updated(keep, db, version, removed, es);
    var count := r.bounds[|r.bounds| - 1].last;
    if base < count {
      assert count in r.undo.Keys;
      PlaysBack(r.undo, r.data, base, count);
    } else if count in r.undo {
      assert count in r.undo.Keys;
      RunsOut(r.undo, r.data, count, base + 1);
    }
  }

  /** One entry put. */
  ghost function Put<T, K, V>(db: Db<T, K, V>, version: T, k: K, v: V): Db<T, K, V> {
    Updated(1, db, version, [], [(k, v)])
  }

  lemma PutIs<T, K, V>(db: Db<T, K, V>, version: T, k: K, v: V)
    ensures
      var top := LastLsn(db.undo);
      var hit := k in db.data;
      Put(db, version, k, v) ==
        Db(db.data[k := v],
           TrimUndo(1, if hit then db.undo[top + 1 := Undo(version, k, db.data[k])] else db.undo, db.bounds),
           TrimBounds(1, db.bounds) + [if hit then Bound(version, top + 1, top + 1) else Bound(version, top, top)])
  {
    var es := [(k, v)];
    assert [] + KeyList(es) == [k] && [k][1..] == [] && es[1..] == [];
    var no: seq<K> := [];
    assert db.data - Elements(no) == db.data;
    assert Write(db.data, es) == Write(db.data[k := v], []);
    RecordOne(db.data, version, k, db.undo, LastLsn(db.undo));
  }

  lemma RecordOne<T, K, V>(data: map<K, V>, version: T, k: K, undo: map<nat, Undo<T, K, V>>, lsn: nat)
    ensures Record(data, version, [k], undo, lsn) ==
            if k in data then (undo[lsn + 1 := Undo(version, k, data[k])], lsn + 1) else (undo, lsn)
  {
    assert [k][1..] == [];
  }

  /** One key put and overwritten: one record. */
  lemma PutTwice<T(!new), K(!new), V(!new)>(v0: T, v1: T, k: K, x: V, y: V, empty: Db<T, K, V>) returns (db: Db<T, K, V>)
    requires empty == Db(map[], map[], [])
    ensures db == Put(Put(empty, v0, k, x), v1, k, y)
    ensures db == Db(map[k := y], map[1 := Undo(v1, k, x)], [Bound(v0, 0, 0), Bound(v1, 1, 1)])
  {
    var none: map<nat, Undo<T, K, V>> := map[];
    var a := Put(empty, v0, k, x);
    PutIs(empty, v0, k, x);
    assert a == Db(map[k := x], none, [Bound(v0, 0, 0)]);
    PutIs(a, v1, k, y);
    db := Put(a, v1, k, y);
  }

  /** Updates that only insert use up the records of the versions before them. */
  lemma InsertsUseUp<T(!new), K(!new), V(!new)>(b: Db<T, K, V>, v2: T, v3: T, k0: K, k1: K, k2: K, x: V) returns (db: Db<T, K, V>)
    requires b.data.Keys == {k0} && b.undo.Keys == {1} && k0 != k1 && k0 != k2 && k1 != k2
    requires |b.bounds| == 2 && b.bounds[0] == Bound(b.bounds[0].version, 0, 0) && b.bounds[1] == Bound(b.bounds[1].version, 1, 1)
    ensures db == Put(Put(b, v2, k1, x), v3, k2, x)
    ensures db.data.Keys == {k0, k1, k2} && db.undo == map[] && db.bounds == [Bound(v2, 1, 1), Bound(v3, 1, 1)]
  {
    OnlyOne(b.undo);
    var c := Put(b, v2, k1, x);
    PutIs(b, v2, k1, x);
    assert c.undo == b.undo && c.bounds == [b.bounds[1], Bound(v2, 1, 1)];
    db := Put(c, v3, k2, x);
    PutIs(c, v3, k2, x);
    assert db.undo.Keys == {};
  }

  /** Two versions are kept.  Updates that only insert use up the records of the versions before them, the serial
      numbers start over, and trimming then takes the record just written: the last version overwrote a key, and
      rolling back to the version before it, which is kept, panics. */
  lemma RecordLost<T(!new), K(!new), V(!new)>(vs: seq<T>, k0: K, k1: K, k2: K, x: V, y: V, empty: Db<T, K, V>) returns (db: Db<T, K, V>)
    requires |vs| == 5 && (forall i, j :: 0 <= i < j < 5 ==> vs[i] != vs[j]) && k0 != k1 && k0 != k2 && k1 != k2 && x != y
    requires empty == Db(map[], map[], [])
    ensures db == Put(Put(Put(Put(Put(empty, vs[0], k0, x), vs[1], k0, y), vs[2], k1, x), vs[3], k2, x), vs[4], k0, x)
    ensures db.undo == map[] && |db.bounds| == 2 && IndexOf(db.bounds, vs[3]) == Some(0) && RolledBack(db, vs[3]).None?
  {
    var b := PutTwice(vs[0], vs[1], k0, x, y, empty);
    var d := InsertsUseUp(b, vs[2], vs[3], k0, k1, k2, x);
    db := Put(d, vs[4], k0, x);
    PutIs(d, vs[4], k0, x);
    assert db.undo.Keys == {} && db.bounds == [Bound(vs[3], 1, 1), Bound(vs[4], 1, 1)];
  }

  lemma OnlyOne<T, K, V>(undo: map<nat, Undo<T, K, V>>)
    requires undo.Keys == {1}
    ensures LastLsn(undo) == 1
  {
  }
}

/** The store itself. */
module VersionedStore {
  import opened Prelude
  import opened Versioning

  class Store<T(==, !new), K(==, !new), V(!new)> {
    const keep: nat
    var data: map<K, V>
    var undo: map<nat, Undo<T, K, V>>
    var bounds: seq<Bound<T>>

    ghost function View(): Db<T, K, V>
      reads this
    {
      Db(data, undo, bounds)
    }

    constructor (keep: nat)
      ensures View() == Db(map[], map[], []) && this.keep == keep
    {
      this.keep := keep;
      data, undo, bounds := map[], map[], [];
    }

    method GetLastLsn() returns (m: nat)
      ensures m == LastLsn(undo)
    {
      m := 0;
      var rest := undo.Keys;
      while rest != {}
        invariant rest <= undo.Keys && (m == 0 || m in undo) && forall k :: k in undo && k !in rest ==> k <= m
        decreases rest
      {
        var k :| k in rest;
        if k > m { m := k; }
        rest := rest - {k};
      }
    }

    /** Records and deletes the removed keys. */
    method Delete(version: T, removed: seq<K>, ghost later: seq<K>, undo0: map<nat, Undo<T, K, V>>, lsn0: nat)
      returns (tx: map<K, V>, undo1: map<nat, Undo<T, K, V>>, lsn: nat)
      ensures tx == data - Elements(removed)
      ensures Record(data, version, later, undo1, lsn) == Record(data, version, removed + later, undo0, lsn0)
    {
      tx, undo1, lsn := data, undo0, lsn0;
      for i := 0 to |removed|
        invariant tx == data - Elements(removed[..i])
        invariant Record(data, version, removed[i..] + later, undo1, lsn) == Record(data, version, removed + later, undo0, lsn0)
      {
        var key := removed[i];
        assert (removed[i..] + later)[0] == key && (removed[i..] + later)[1..] == removed[i + 1..] + later;
        assert removed[..i + 1] == removed[..i] + [key];
        if key in data {
          tx := tx - {key};
          lsn := lsn + 1;
          undo1 := undo1[lsn := Undo(version, key, data[key])];
        }
      }
      assert removed[|removed|..] + later == later && removed[..|removed|] == removed;
    }

    /** Records and writes the entries. */
    method WriteAll(version: T, es: seq<(K, V)>, tx0: map<K, V>, undo0: map<nat, Undo<T, K, V>>, lsn0: nat)
      returns (tx: map<K, V>, undo1: map<nat, Undo<T, K, V>>, lsn: nat)
      ensures tx == Write(tx0, es) && (undo1, lsn) == Record(data, version, KeyList(es), undo0, lsn0)
    {
      tx, undo1, lsn := tx0, undo0, lsn0;
      ghost var keys := KeyList(es);
      for i := 0 to |es|
        invariant Write(tx, es[i..]) == Write(tx0, es)
        invariant Record(data, version, keys[i..], undo1, lsn) == Record(data, version, keys, undo0, lsn0)
      {
        var (key, value) := es[i];
        assert keys[i..][0] == key && keys[i..][1..] == keys[i + 1..];
        assert es[i..][0] == es[i] && es[i..][1..] == es[i + 1..];
        if key in data {
          lsn := lsn + 1;
          undo1 := undo1[lsn := Undo(version, key, data[key])];
        }
        tx := tx[key := value];
      }
    }

    method Trim(undo0: map<nat, Undo<T, K, V>>) returns (undo1: map<nat, Undo<T, K, V>>, bounds1: seq<Bound<T>>)
      ensures undo1 == TrimUndo(keep, undo0, bounds) && bounds1 == TrimBounds(keep, bounds)
    {
      undo1, bounds1 := undo0, bounds;
      if |bounds| == keep + 1 {
        var first, last := bounds[0].first, bounds[0].last;
        bounds1 := bounds[1..];
        var n := first;
        while n <= last
          invariant first <= n && (first <= last ==> n <= last + 1) && (last < first ==> n == first)
          invariant undo1 == undo0 - Span(first, n)
        {
          MinusSpan(undo0, first, n);
          undo1 := undo1 - {n};
          n := n + 1;
        }
        assert Span(first, n) == Span(first, last + 1);
      }
    }

    method Update(version: T, removed: seq<K>, es: seq<(K, V)>)
      modifies this
      ensures View() == Updated(keep, old(View()), version, removed, es)
    {
      if removed == [] && es == [] { return; }
      var top := GetLastLsn();
      var tx, undo1, lsn := Delete(version, removed, KeyList(es), undo, top);
      tx, undo1, lsn := WriteAll(version, es, tx, undo1, lsn);
      var undo2, bounds1 := Trim(undo1);
      data, undo := tx, undo2;
      bounds := bounds1 + [Bound(version, if lsn == top then lsn else top + 1, lsn)];
    }

    /** The iterator's position after seeking. */
    method SeekFrom(last: nat) returns (at: Option<nat>)
      ensures at == Seek(undo.Keys, last)
    {
      var top := GetLastLsn();
      var n := last;
      while n <= top && n !in undo
        invariant last <= n && forall k :: k in undo && last <= k ==> n <= k
      {
        n := n + 1;
      }
      at := if n in undo then Some(n) else None;
    }

    /** Plays records back from `start` down to `first`. */
    method PlayDown(start: nat, first: nat) returns (tx: Option<map<K, V>>, undo1: map<nat, Undo<T, K, V>>)
      requires start in undo
      ensures tx == PlayBack(undo, data, start, first)
      ensures tx.Some? ==> undo1 == undo - Span(first, start + 1)
    {
      var at, data1 := start, data;
      undo1 := undo;
      while true
        invariant at in undo && at <= start && undo1 == undo - Span(at + 1, start + 1)
        invariant PlayBack(undo, data1, at, first) == PlayBack(undo, data, start, first)
        decreases at
      {
        data1 := data1[undo[at].key := undo[at].value];
        var p := Prev(undo, at);
        if at == first {
          AndThis(undo, at, start + 1);
          return Some(data1), undo1 - {at};
        }
        if p.None? { return None, undo1; }
        MinusGap(undo, p.value, at, start + 1);
        undo1 := undo1 - {at};
        at := p.value;
      }
    }

    /** Plays the undo records back; whether that went through without a panic, which leaves everything as it was. */
    method RollbackTo(version: T) returns (ok: bool)
      modifies this
      ensures ok <==> RolledBack(old(View()), version).Some?
      ensures View() == if ok then RolledBack(old(View()), version).value else old(View())
    {
      var ix := IndexOf(bounds, version);
      if ix.None? { return false; }
      var start := SeekFrom(bounds[|bounds| - 1].last);
      if start.None? { return false; }
      var tx, undo1 := PlayDown(start.value, bounds[ix.value].last + 1);
      if tx.None? { return false; }
      data, undo, bounds := tx.value, undo1, bounds[..ix.value + 1];
      ok := true;
    }
  }
}
