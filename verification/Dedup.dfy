/** The duplicate log filter: a counter table with a periodic sweep, per-key expiry and LRU eviction. */
module Dedup {
  import opened Options
  import opened Sequences

  type Key = string

  datatype Config = Config(allowed: nat, cacheSize: nat, ttl: Option<real>) {
    predicate Valid() { allowed >= 1 && cacheSize >= 1 && (ttl.Some? ==> ttl.value > 0.0) }
  }

  datatype Cell = Cell(count: nat, seen: real)

  /** `order` and `counts` are one ordered dictionary. */
  datatype Table = Table(order: seq<Key>, counts: map<Key, Cell>, nextSweep: real)

  function Keep(order: seq<Key>, counts: map<Key, Cell>): (r: seq<Key>)
    ensures |r| <= |order| && (Distinct(order) ==> Distinct(r))
    ensures forall k :: k in r <==> k in order && k in counts
  {
    if order == [] then []
    else
      var rest := Keep(order[1..], counts);
      assert Distinct(order) ==> Distinct(order[1..]) && order[0] !in order[1..];
      if order[0] in counts then [order[0]] + rest else rest
  }

  function Unswept(counts: map<Key, Cell>, cutoff: real): map<Key, Cell> {
    map k | k in counts && counts[k].seen > cutoff :: counts[k]
  }

  function Sweep(c: Config, t: Table, now: real): Table {
    if c.ttl.Some? && now >= t.nextSweep then
      var counts := Unswept(t.counts, now - c.ttl.value);
      Table(Keep(t.order, counts), counts, now + c.ttl.value)
    else t
  }

  predicate Lapsed(c: Config, cell: Cell, now: real) { c.ttl.Some? && now - cell.seen > c.ttl.value }

  /** The cell a counted record leaves, or the old one when the key is over its allowance. */
  function NextCell(c: Config, cell: Option<Cell>, now: real): Cell {
    if cell.None? || Lapsed(c, cell.value, now) then Cell(1, now)
    else if cell.value.count > c.allowed then cell.value
    else Cell(cell.value.count + 1, now)
  }

  predicate Passes(c: Config, cell: Option<Cell>, now: real) {
    cell.None? || Lapsed(c, cell.value, now) || cell.value.count < c.allowed
  }

  function Find(t: Table, key: Key): Option<Cell> { if key in t.counts then Some(t.counts[key]) else None }

  /** The key that an entry for `key` pushes out. */
  function PushedOut(c: Config, s: Table, key: Key): Option<Key> {
    if key !in s.counts && |s.order| + 1 > c.cacheSize then Some((s.order + [key])[0]) else None
  }

  function Place(c: Config, s: Table, key: Key, cell: Cell): Table {
    var t := Table(Without(s.order, key) + [key], s.counts[key := cell], s.nextSweep);
    var v := PushedOut(c, s, key);
    if v.None? then t else Table(t.order[1..], t.counts - {v.value}, t.nextSweep)
  }

  function Victim(c: Config, t: Table, key: Key, now: real): Option<Key> { PushedOut(c, Sweep(c, t, now), key) }

  function Next(c: Config, t: Table, key: Key, now: real): Table {
    var s := Sweep(c, t, now);
    Place(c, s, key, NextCell(c, Find(s, key), now))
  }

  function Pass(c: Config, t: Table, key: Key, now: real): bool {
    Passes(c, Find(Sweep(c, t, now), key), now)
  }

  class DuplicateFilter {
    const config: Config
    var order: seq<Key>
    var counts: map<Key, Cell>
    var nextSweep: real

    ghost function View(): Table
      reads this
    {
      Table(order, counts, nextSweep)
    }

    constructor (config: Config)
      ensures this.config == config && View() == Table([], map[], 0.0)
    {
      this.config := config;
      order, counts, nextSweep := [], map[], 0.0;
    }

    /** Collect the stale keys, then delete them one by one. */
    method SweepStale(cutoff: real)
      modifies `order, `counts
      ensures counts == Unswept(old(counts), cutoff) && order == Keep(old(order), counts)
    {
      var pending := set k | k in counts && counts[k].seen <= cutoff;
      ghost var stale := pending;
      while pending != {}
        invariant pending <= stale && counts == old(counts) - (stale - pending) && order == old(order)
        decreases pending
      {
        var k :| k in pending;
        counts := counts - {k};
        pending := pending - {k};
      }
      assert counts == Unswept(old(counts), cutoff);
      order := Keep(order, counts);
    }

    method Filter(key: Key, now: real) returns (pass: bool)
      requires key in counts ==> key in order
      requires forall k :: k in order ==> k in counts
      modifies this
      ensures View() == Next(config, old(View()), key, now)
      ensures pass == Pass(config, old(View()), key, now)
    {
      SweepIfDue(now);
      pass := Count(key, now);
    }

    method SweepIfDue(now: real)
      modifies this
      ensures View() == Sweep(config, old(View()), now)
    {
      if config.ttl.Some? && now >= nextSweep {
        SweepStale(now - config.ttl.value);
        nextSweep := now + config.ttl.value;
      }
    }

    /** The rest of the call, on a table that has been swept. */
    method Count(key: Key, now: real) returns (pass: bool)
      requires key in counts ==> key in order
      requires forall k :: k in order ==> k in counts
      modifies this
      ensures View() == Place(config, old(View()), key, NextCell(config, Find(old(View()), key), now))
      ensures pass == Passes(config, Find(old(View()), key), now)
    {
      if key !in counts {
        counts := counts[key := Cell(1, now)];
        order := order + [key];
        if |order| > config.cacheSize {
          counts := counts - {order[0]};
          order := order[1..];
        }
        return true;
      }
      var cell := counts[key];
      order := Without(order, key) + [key];
      if config.ttl.Some? && now - cell.seen > config.ttl.value {
        counts := counts[key := Cell(1, now)];
        return true;
      }
      if cell.count > config.allowed {
        assert counts[key := cell] == counts;
        return false;
      }
      counts := counts[key := Cell(cell.count + 1, now)];
      return cell.count < config.allowed;
    }
  }

  // ---- Whole runs ----

  datatype Record = Record(key: Key, at: real)

  /** `ts` are the tables before, between and after the records, from the empty one on. */
  ghost predicate IsRun(c: Config, run: seq<Record>, ts: seq<Table>) {
    && |ts| == |run| + 1
    && ts[0] == Table([], map[], 0.0)
    && forall i :: 0 <= i < |run| ==> Moves(c, run, ts, i)
  }

  predicate Moves(c: Config, run: seq<Record>, ts: seq<Table>, i: nat)
    requires i < |run| < |ts|
  {
    ts[i + 1] == Next(c, ts[i], run[i].key, run[i].at)
  }

  function Logged(c: Config, t: Table, times: seq<real>, r: Record, k: Key): seq<real> {
    if r.key == k && Pass(c, t, k, r.at) then times + [r.at] else times
  }

  /** When records of `k` passed, among the first `i`. */
  function PassTimes(c: Config, run: seq<Record>, ts: seq<Table>, k: Key, i: nat): seq<real>
    requires i <= |run| < |ts|
  {
    if i == 0 then [] else Logged(c, ts[i - 1], PassTimes(c, run, ts, k, i - 1), run[i - 1], k)
  }

  predicate Evicts(c: Config, t: Table, r: Record, k: Key) { Victim(c, t, r.key, r.at) == Some(k) }

  /** None of the first `i` records pushes `k` out of the table. */
  ghost predicate NeverEvicted(c: Config, run: seq<Record>, ts: seq<Table>, k: Key, i: nat)
    requires i <= |run| < |ts|
  {
    forall n :: 0 <= n < i ==> !Evicts(c, ts[n], run[n], k)
  }

  ghost predicate ClockAdvances(run: seq<Record>) {
    forall i, j :: 0 <= i < j < |run| ==> run[i].at <= run[j].at
  }

  function Min(a: nat, b: nat): nat { if a < b then a else b }

  /** One record, seen from any key that it does not evict. */
  lemma PlacedCell(c: Config, s: Table, key: Key, cell: Cell, k: Key)
    requires PushedOut(c, s, key) != Some(k)
    ensures Find(Place(c, s, key, cell), k) == (if k == key then Some(cell) else Find(s, k))
  {
  }

  lemma CellAfter(c: Config, t: Table, key: Key, now: real, k: Key)
    requires Victim(c, t, key, now) != Some(k)
    ensures Find(Next(c, t, key, now), k)
            == (if k == key then Some(NextCell(c, Find(Sweep(c, t, now), k), now)) else Find(Sweep(c, t, now), k))
  {
    var s := Sweep(c, t, now);
    PlacedCell(c, s, key, NextCell(c, Find(s, key), now), k);
  }

  // ---- The table bound ----

  ghost predicate Consistent(c: Config, t: Table) {
    |t.order| <= c.cacheSize && Distinct(t.order) && forall k :: k in t.order <==> k in t.counts
  }

  lemma NextIsConsistent(c: Config, t: Table, key: Key, now: real)
    requires c.Valid() && Consistent(c, t)
    ensures Consistent(c, Next(c, t, key, now))
  {
    var s := Sweep(c, t, now);
    assert Consistent(c, s);
    PlaceIsConsistent(c, s, key, NextCell(c, Find(s, key), now));
  }

  lemma PlaceIsConsistent(c: Config, s: Table, key: Key, cell: Cell)
    requires c.Valid() && Consistent(c, s)
    ensures Consistent(c, Place(c, s, key, cell))
  {
    Grown(s.order, key);
    var grown := Without(s.order, key) + [key];
    if PushedOut(c, s, key).Some? {
      assert grown == s.order + [key];
    }
  }

  lemma Grown(order: seq<Key>, key: Key)
    requires Distinct(order)
    ensures var grown := Without(order, key) + [key];
            && Distinct(grown) && Distinct(grown[1..])
            && (forall k :: k in grown <==> k in order || k == key)
            && (forall k :: k in grown[1..] <==> k in grown && k != grown[0])
  {
    var grown := Without(order, key) + [key];
    assert grown == [grown[0]] + grown[1..];
  }

  /** In every run the table stays within its size, whatever the clock does. */
  lemma {:induction false} TableIsBounded(c: Config, run: seq<Record>, ts: seq<Table>, i: nat)
    requires c.Valid() && IsRun(c, run, ts) && i <= |run|
    ensures Consistent(c, ts[i])
    decreases i
  {
    if i > 0 {
      TableIsBounded(c, run, ts, i - 1);
      assert Moves(c, run, ts, i - 1);
      NextIsConsistent(c, ts[i - 1], run[i - 1].key, run[i - 1].at);
    }
  }

  // ---- The rate bound ----

  /** Of the passes so far, all but the last `recent` lie at least `ttl` before `now`. */
  ghost predicate OldBut(times: seq<real>, recent: nat, ttl: real, now: real) {
    recent <= |times| && forall m :: 0 <= m < |times| - recent ==> times[m] + ttl <= now
  }

  /** What the table remembers of the passes of a key. */
  ghost predicate Remembers(c: Config, times: seq<real>, cell: Option<Cell>, now: real)
    requires c.ttl.Some?
  {
    && (cell.None? ==> OldBut(times, 0, c.ttl.value, now))
    && (cell.Some? ==>
          && cell.value.count >= 1 && cell.value.seen <= now
          && OldBut(times, Min(cell.value.count, c.allowed), c.ttl.value, now)
          && forall m :: 0 <= m < |times| ==> times[m] <= cell.value.seen)
  }

  /** Any pass and the one `allowed` later are at least `ttl` apart. */
  ghost predicate Spaced(times: seq<real>, allowed: nat, ttl: real) {
    forall m :: 0 <= m < |times| - allowed ==> times[m] + ttl <= times[m + allowed]
  }

  /** Sweeping loses a key only when all its passes are old. */
  lemma SweepRemembers(c: Config, times: seq<real>, t: Table, k: Key, last: real, now: real)
    requires c.Valid() && c.ttl.Some? && last <= now && Remembers(c, times, Find(t, k), last)
    ensures Remembers(c, times, Find(Sweep(c, t, now), k), now)
  {
  }

  lemma StepRemembers(c: Config, times: seq<real>, cell: Option<Cell>, now: real)
    requires c.Valid() && c.ttl.Some? && Remembers(c, times, cell, now) && Spaced(times, c.allowed, c.ttl.value)
    ensures var times' := if Passes(c, cell, now) then times + [now] else times;
            Remembers(c, times', Some(NextCell(c, cell, now)), now) && Spaced(times', c.allowed, c.ttl.value)
  {
    var ttl := c.ttl.value;
    if Passes(c, cell, now) {
      var times' := times + [now];
      var recent := if cell.None? || Lapsed(c, cell.value, now) then 0 else cell.value.count;
      assert OldBut(times, recent, ttl, now);
      forall m | 0 <= m < |times'| - c.allowed ensures times'[m] + ttl <= times'[m + c.allowed] {
        if m + c.allowed < |times| {
          assert times[m] + ttl <= times[m + c.allowed];
        }
      }
      assert OldBut(times', recent + 1, ttl, now);
    }
  }

  lemma {:induction false} RunRemembers(c: Config, run: seq<Record>, ts: seq<Table>, k: Key, i: nat)
    requires IsRun(c, run, ts) && 0 < i <= |run| && NeverEvicted(c, run, ts, k, i)
    requires c.Valid() && c.ttl.Some? && ClockAdvances(run)
    ensures Remembers(c, PassTimes(c, run, ts, k, i), Find(ts[i], k), run[i - 1].at)
    ensures Spaced(PassTimes(c, run, ts, k, i), c.allowed, c.ttl.value)
    decreases i
  {
    var t, times, r := ts[i - 1], PassTimes(c, run, ts, k, i - 1), run[i - 1];
    if i > 1 {
      RunRemembers(c, run, ts, k, i - 1);
      SweepRemembers(c, times, t, k, run[i - 2].at, r.at);
    }
    assert Moves(c, run, ts, i - 1) && !Evicts(c, ts[i - 1], run[i - 1], k);
    CellAfter(c, t, r.key, r.at, k);
    if r.key == k {
      StepRemembers(c, times, Find(Sweep(c, t, r.at), k), r.at);
    }
  }

  /** How many of the times lie in `[from, from + ttl)`. */
  function CountIn(times: seq<real>, from: real, ttl: real): (n: nat)
    ensures n <= |times|
  {
    if times == [] then 0
    else CountIn(times[..|times| - 1], from, ttl) + (if from <= times[|times| - 1] < from + ttl then 1 else 0)
  }

  lemma {:induction false} CountInConcat(a: seq<real>, b: seq<real>, from: real, ttl: real)
    ensures CountIn(a + b, from, ttl) == CountIn(a, from, ttl) + CountIn(b, from, ttl)
  {
    if b == [] {
      assert a + b == a;
    } else {
      assert (a + b)[..|a + b| - 1] == a + b[..|b| - 1];
      CountInConcat(a, b[..|b| - 1], from, ttl);
    }
  }

  lemma {:induction false} NoneBefore(times: seq<real>, from: real, ttl: real)
    requires forall m :: 0 <= m < |times| ==> times[m] < from
    ensures CountIn(times, from, ttl) == 0
  {
    if times != [] {
      NoneBefore(times[..|times| - 1], from, ttl);
    }
  }

  lemma {:induction false} SpacedWindow(times: seq<real>, allowed: nat, from: real, ttl: real)
    requires Spaced(times, allowed, ttl)
    requires forall i, j :: 0 <= i < j < |times| ==> times[i] <= times[j]
    ensures CountIn(times, from, ttl) <= allowed
  {
    if |times| > allowed {
      var init, last := times[..|times| - 1], times[|times| - 1];
      if from <= last < from + ttl {
        WindowAtEnd(times, allowed, from, ttl);
      } else {
        assert Spaced(init, allowed, ttl);
        SpacedWindow(init, allowed, from, ttl);
      }
    }
  }

  /** A window that holds the last time holds at most the last `allowed`. */
  lemma WindowAtEnd(times: seq<real>, allowed: nat, from: real, ttl: real)
    requires Spaced(times, allowed, ttl) && |times| > allowed
    requires times[|times| - 1] < from + ttl
    requires forall i, j :: 0 <= i < j < |times| ==> times[i] <= times[j]
    ensures CountIn(times, from, ttl) <= allowed
  {
    var n := |times|;
    var early, late := times[..n - allowed], times[n - allowed..];
    forall m | 0 <= m < |early| ensures early[m] < from {
      assert times[m] + ttl <= times[m + allowed] <= times[n - 1];
    }
    NoneBefore(early, from, ttl);
    InTwo(times, n - allowed);
    CountInConcat(early, late, from, ttl);
  }

  lemma InTwo(times: seq<real>, m: nat)
    requires m <= |times|
    ensures times == times[..m] + times[m..]
  {
  }

  /** The passes are in time order and none is later than `now`. */
  ghost predicate Timely(times: seq<real>, now: real) {
    && (forall m, n :: 0 <= m < n < |times| ==> times[m] <= times[n])
    && forall m :: 0 <= m < |times| ==> times[m] <= now
  }

  lemma LoggedIsTimely(c: Config, t: Table, times: seq<real>, r: Record, k: Key, last: real)
    requires Timely(times, last) && last <= r.at
    ensures Timely(Logged(c, t, times, r, k), r.at)
  {
  }

  lemma {:induction false} PassTimesSorted(c: Config, run: seq<Record>, ts: seq<Table>, k: Key, i: nat)
    requires ClockAdvances(run) && 0 < i <= |run| < |ts|
    ensures Timely(PassTimes(c, run, ts, k, i), run[i - 1].at)
    decreases i
  {
    var last := if i == 1 then run[0].at else run[i - 2].at;
    var t, before := ts[i - 1], PassTimes(c, run, ts, k, i - 1);
    if i > 1 {
      PassTimesSorted(c, run, ts, k, i - 1);
    }
    LoggedIsTimely(c, t, before, run[i - 1], k, last);
  }

  /**
   Rate bound: in every run on an advancing clock, any half-open window of length `ttl` passes at
   most `allowed` records of a key that was never evicted, across both ways its counter resets.
   */
  lemma RateBound(c: Config, run: seq<Record>, ts: seq<Table>, k: Key, from: real)
    requires c.Valid() && c.ttl.Some? && ClockAdvances(run)
    requires IsRun(c, run, ts) && NeverEvicted(c, run, ts, k, |run|)
    ensures CountIn(PassTimes(c, run, ts, k, |run|), from, c.ttl.value) <= c.allowed
  {
    if run != [] {
      RunRemembers(c, run, ts, k, |run|);
      PassTimesSorted(c, run, ts, k, |run|);
      SpacedWindow(PassTimes(c, run, ts, k, |run|), c.allowed, from, c.ttl.value);
    }
  }

  /** Without a `ttl` the counter tells how many records passed. */
  function Tally(c: Config, cell: Option<Cell>): nat { if cell.None? then 0 else Min(cell.value.count, c.allowed) }

  lemma NextTallies(c: Config, t: Table, times: seq<real>, r: Record, k: Key)
    requires c.Valid() && c.ttl.None? && !Evicts(c, t, r, k) && |times| == Tally(c, Find(t, k))
    ensures |Logged(c, t, times, r, k)| == Tally(c, Find(Next(c, t, r.key, r.at), k))
  {
    CellAfter(c, t, r.key, r.at, k);
  }

  lemma {:induction false} RunTallies(c: Config, run: seq<Record>, ts: seq<Table>, k: Key, i: nat)
    requires c.Valid() && c.ttl.None? && IsRun(c, run, ts) && i <= |run| && NeverEvicted(c, run, ts, k, i)
    ensures |PassTimes(c, run, ts, k, i)| == Tally(c, Find(ts[i], k))
    decreases i
  {
    if i > 0 {
      RunTallies(c, run, ts, k, i - 1);
      assert Moves(c, run, ts, i - 1) && !Evicts(c, ts[i - 1], run[i - 1], k);
      NextTallies(c, ts[i - 1], PassTimes(c, run, ts, k, i - 1), run[i - 1], k);
    }
  }

  /** Without a `ttl` such a key passes at most `allowed` records in all, on any clock. */
  lemma TotalBound(c: Config, run: seq<Record>, ts: seq<Table>, k: Key)
    requires c.Valid() && c.ttl.None? && IsRun(c, run, ts) && NeverEvicted(c, run, ts, k, |run|)
    ensures |PassTimes(c, run, ts, k, |run|)| <= c.allowed
  {
    RunTallies(c, run, ts, k, |run|);
  }
  // ---- What the filter lets through ----

  /** A key is found again after a call as it was, unless it was swept or pushed out; the call's own key is counted. */
  lemma CellKept(c: Config, t: Table, key: Key, now: real, k: Key)
    ensures var after := Find(Next(c, t, key, now), k);
            || after.None?
            || after == (if k == key then Some(NextCell(c, Find(Sweep(c, t, now), k), now)) else Find(t, k))
  {
  }

  /** How many records of `k` the run has from `j` and before `i`. */
  function Repeats(run: seq<Record>, k: Key, j: nat, i: nat): nat
    requires j <= i <= |run|
    decreases i - j
  {
    if j == i then 0 else Repeats(run, k, j, i - 1) + (if run[i - 1].key == k then 1 else 0)
  }

  /** Every record of `k` before `j` is more than `ttl` older than `now`. */
  ghost predicate Forgotten(c: Config, run: seq<Record>, k: Key, j: nat, now: real)
    requires j <= |run|
  {
    forall m :: 0 <= m < j && run[m].key == k ==> c.ttl.Some? && run[m].at + c.ttl.value < now
  }

  predicate OldCell(c: Config, cell: Option<Cell>, now: real) {
    cell.None? || (c.ttl.Some? && cell.value.seen + c.ttl.value < now)
  }

  lemma OldStep(c: Config, t: Table, r: Record, k: Key, now: real)
    requires OldCell(c, Find(t, k), now) && (r.key == k ==> c.ttl.Some? && r.at + c.ttl.value < now)
    ensures OldCell(c, Find(Next(c, t, r.key, r.at), k), now)
  {
    CellKept(c, t, r.key, r.at, k);
  }

  lemma {:induction false} CellIsOld(c: Config, run: seq<Record>, ts: seq<Table>, k: Key, j: nat, now: real)
    requires IsRun(c, run, ts) && j <= |run| && Forgotten(c, run, k, j, now)
    ensures OldCell(c, Find(ts[j], k), now)
    decreases j
  {
    if j > 0 {
      CellIsOld(c, run, ts, k, j - 1, now);
      assert Moves(c, run, ts, j - 1);
      OldStep(c, ts[j - 1], run[j - 1], k, now);
    }
  }

  /** The counter holds no more than the `n` records since some moment, or is still the one found then. */
  predicate CountsSince(cell: Option<Cell>, n: nat, found: Option<Cell>) {
    cell.None? || cell.value.count <= n || (n == 0 && cell == found)
  }

  lemma CountStep(c: Config, t: Table, r: Record, k: Key, n: nat, found: Option<Cell>)
    requires CountsSince(Find(t, k), n, found) && (r.key == k ==> OldCell(c, found, r.at))
    ensures CountsSince(Find(Next(c, t, r.key, r.at), k), n + (if r.key == k then 1 else 0), found)
  {
    CellKept(c, t, r.key, r.at, k);
    if r.key == k {
      var cell := Find(Sweep(c, t, r.at), k);
      assert cell.None? || cell == Find(t, k);
      assert NextCell(c, cell, r.at).count <= n + 1;
    }
  }

  lemma {:induction false} RunCountsSince(c: Config, run: seq<Record>, ts: seq<Table>, k: Key, j: nat, i: nat)
    requires IsRun(c, run, ts) && j <= i <= |run|
    requires forall n :: j <= n < i && run[n].key == k ==> Forgotten(c, run, k, j, run[n].at)
    ensures CountsSince(Find(ts[i], k), Repeats(run, k, j, i), Find(ts[j], k))
    decreases i
  {
    if i > j {
      RunCountsSince(c, run, ts, k, j, i - 1);
      if run[i - 1].key == k {
        CellIsOld(c, run, ts, k, j, run[i - 1].at);
      }
      assert Moves(c, run, ts, i - 1);
      CountStep(c, ts[i - 1], run[i - 1], k, Repeats(run, k, j, i - 1), Find(ts[j], k));
    }
  }

  /**
   A record passes when fewer than the allowed ones of its key came since `j`, and all that came
   before `j` are more than `ttl` older than each of them: on any clock, with whatever other keys
   came in between and were swept or pushed out.
   */
  lemma AllowancePasses(c: Config, run: seq<Record>, ts: seq<Table>, j: nat, i: nat)
    requires IsRun(c, run, ts) && j <= i < |run| && Repeats(run, run[i].key, j, i) < c.allowed
    requires forall n :: j <= n <= i && run[n].key == run[i].key ==> Forgotten(c, run, run[i].key, j, run[n].at)
    ensures Pass(c, ts[i], run[i].key, run[i].at)
  {
    RunCountsSince(c, run, ts, run[i].key, j, i);
    CellIsOld(c, run, ts, run[i].key, j, run[i].at);
  }

  /**
   A due sweep leaves no key that was last counted `ttl` or longer ago and is not due again for
   another `ttl`; without one, only a key that is pushed out goes.
   */
  lemma SweepDropsStale(c: Config, t: Table, key: Key, now: real)
    requires c.Valid() && c.ttl.Some?
    ensures var after := Next(c, t, key, now);
            if now >= t.nextSweep
            then after.nextSweep == now + c.ttl.value
                 && forall k :: k in after.counts ==> after.counts[k].seen + c.ttl.value > now
            else after.nextSweep == t.nextSweep
                 && forall k :: k in t.counts && Some(k) != PushedOut(c, t, key) ==> k in after.counts
  {
    var s := Sweep(c, t, now);
    assert forall k :: k in Next(c, t, key, now).counts ==> k in s.counts || k == key;
  }
  /** The latest record of `k` among the first `i`; -1 when there is none. */
  function LastRecord(run: seq<Record>, k: Key, i: nat): (m: int)
    requires i <= |run|
    ensures -1 <= m < i
  {
    if i == 0 then -1 else if run[i - 1].key == k then i - 1 else LastRecord(run, k, i - 1)
  }

  /** From record `j`, the first of its key in a while, to record `i` there is never a pause of `ttl`. */
  ghost predicate Burst(c: Config, run: seq<Record>, j: nat, i: nat)
    requires j <= i < |run| && c.ttl.Some?
  {
    && run[i].key == run[j].key && Forgotten(c, run, run[j].key, j, run[j].at)
    && forall n :: j < n <= i ==>
        var last := LastRecord(run, run[j].key, n); last >= 0 && run[n].at < run[last].at + c.ttl.value
  }

  lemma YoungCellStays(c: Config, t: Table, r: Record, k: Key)
    requires c.ttl.Some? && !Evicts(c, t, r, k)
    requires Find(t, k).Some? && r.at < Find(t, k).value.seen + c.ttl.value
    ensures Find(Next(c, t, r.key, r.at), k) == Some(if r.key == k then NextCell(c, Find(t, k), r.at) else Find(t, k).value)
    ensures Pass(c, t, k, r.at) <==> Find(t, k).value.count < c.allowed
  {
    CellAfter(c, t, r.key, r.at, k);
    assert Find(Sweep(c, t, r.at), k) == Find(t, k);
  }

  lemma OldCellRestarts(c: Config, t: Table, r: Record)
    requires OldCell(c, Find(t, r.key), r.at) && !Evicts(c, t, r, r.key)
    ensures Find(Next(c, t, r.key, r.at), r.key) == Some(Cell(1, r.at)) && Pass(c, t, r.key, r.at)
  {
    CellAfter(c, t, r.key, r.at, r.key);
    var found := Find(Sweep(c, t, r.at), r.key);
    assert found.None? || found == Find(t, r.key);
  }

  /** Through a burst the counter holds its length and the time of its latest record. */
  lemma {:induction false} BurstCounts(c: Config, run: seq<Record>, ts: seq<Table>, j: nat, i: nat, n: nat)
    requires c.Valid() && c.ttl.Some? && j < n <= i + 1 && i < |run| && Burst(c, run, j, i)
    requires IsRun(c, run, ts) && NeverEvicted(c, run, ts, run[j].key, n)
    requires Repeats(run, run[j].key, j, n) <= c.allowed + 1
    ensures LastRecord(run, run[j].key, n) >= 0
    ensures Find(ts[n], run[j].key) == Some(Cell(Repeats(run, run[j].key, j, n), run[LastRecord(run, run[j].key, n)].at))
    decreases n
  {
    var k := run[j].key;
    assert Moves(c, run, ts, n - 1) && !Evicts(c, ts[n - 1], run[n - 1], k);
    if n == j + 1 {
      CellIsOld(c, run, ts, k, j, run[j].at);
      OldCellRestarts(c, ts[j], run[j]);
    } else {
      BurstCounts(c, run, ts, j, i, n - 1);
      YoungCellStays(c, ts[n - 1], run[n - 1], k);
    }
  }

  /** The cell that a spent allowance leaves, until it is swept or lapses. */
  predicate Spent(c: Config, cell: Option<Cell>, since: real, now: real)
    requires c.ttl.Some?
  {
    (now < since + c.ttl.value ==> cell.Some?) && (cell.Some? ==> cell.value == Cell(c.allowed + 1, since))
  }

  lemma SpentStep(c: Config, t: Table, r: Record, k: Key, since: real, last: real)
    requires c.Valid() && c.ttl.Some? && !Evicts(c, t, r, k) && Spent(c, Find(t, k), since, last) && last <= r.at
    requires r.key == k ==> r.at < since + c.ttl.value
    ensures Spent(c, Find(Next(c, t, r.key, r.at), k), since, r.at)
  {
    if r.at < since + c.ttl.value {
      YoungCellStays(c, t, r, k);
    } else {
      CellKept(c, t, r.key, r.at, k);
    }
  }

  lemma {:induction false} StaysSpent(c: Config, run: seq<Record>, ts: seq<Table>, k: Key, i: nat, n: nat)
    requires c.Valid() && c.ttl.Some? && ClockAdvances(run)
    requires IsRun(c, run, ts) && i < n <= |run| && NeverEvicted(c, run, ts, k, n)
    requires Find(ts[i + 1], k) == Some(Cell(c.allowed + 1, run[i].at))
    requires forall m :: i < m < n && run[m].key == k ==> run[m].at < run[i].at + c.ttl.value
    ensures Spent(c, Find(ts[n], k), run[i].at, run[n - 1].at)
    decreases n
  {
    if n > i + 1 {
      StaysSpent(c, run, ts, k, i, n - 1);
      assert Moves(c, run, ts, n - 1) && !Evicts(c, ts[n - 1], run[n - 1], k);
      SpentStep(c, ts[n - 1], run[n - 1], k, run[i].at, run[n - 2].at);
    }
  }

  lemma SpentDecides(c: Config, t: Table, k: Key, since: real, last: real, now: real)
    requires c.Valid() && c.ttl.Some? && last <= now && Spent(c, Find(t, k), since, last)
    ensures now < since + c.ttl.value ==> !Pass(c, t, k, now)
    ensures now > since + c.ttl.value ==> Pass(c, t, k, now)
    ensures now == since + c.ttl.value ==> (Pass(c, t, k, now) <==> k !in t.counts || now >= t.nextSweep)
  {
    var found := Find(Sweep(c, t, now), k);
    assert found.None? || found == Find(t, k);
    assert now < since + c.ttl.value ==> found == Find(t, k);
  }

  lemma BurstSpends(c: Config, run: seq<Record>, ts: seq<Table>, j: nat, i: nat)
    requires c.Valid() && c.ttl.Some? && j < i < |run| && Burst(c, run, j, i)
    requires IsRun(c, run, ts) && NeverEvicted(c, run, ts, run[j].key, i + 1)
    requires Repeats(run, run[j].key, j, i) == c.allowed
    ensures !Pass(c, ts[i], run[i].key, run[i].at)
    ensures Find(ts[i + 1], run[j].key) == Some(Cell(c.allowed + 1, run[i].at))
  {
    BurstCounts(c, run, ts, j, i, i);
    assert Moves(c, run, ts, i) && !Evicts(c, ts[i], run[i], run[j].key);
    YoungCellStays(c, ts[i], run[i], run[j].key);
  }

  /**
   How long a burst silences its key: the record after the allowed ones is dropped, and so is every
   further one less than `ttl` after that record, which the dropped ones do not put off; the first one
   more than `ttl` after it passes. At that instant itself it passes if a sweep took the key or is due.
   */
  lemma SilenceLasts(c: Config, run: seq<Record>, ts: seq<Table>, j: nat, i: nat, m: nat)
    requires c.Valid() && c.ttl.Some? && ClockAdvances(run) && j < i < m < |run| && Burst(c, run, j, i)
    requires Repeats(run, run[j].key, j, i) == c.allowed && run[m].key == run[j].key
    requires IsRun(c, run, ts) && NeverEvicted(c, run, ts, run[j].key, m)
    requires forall n :: i < n < m && run[n].key == run[j].key ==> run[n].at < run[i].at + c.ttl.value
    ensures !Pass(c, ts[i], run[i].key, run[i].at)
    ensures run[m].at < run[i].at + c.ttl.value ==> !Pass(c, ts[m], run[m].key, run[m].at)
    ensures run[m].at > run[i].at + c.ttl.value ==> Pass(c, ts[m], run[m].key, run[m].at)
    ensures run[m].at == run[i].at + c.ttl.value ==>
              (Pass(c, ts[m], run[m].key, run[m].at) <==> run[m].key !in ts[m].counts || run[m].at >= ts[m].nextSweep)
  {
    var k := run[j].key;
    BurstSpends(c, run, ts, j, i);
    StaysSpent(c, run, ts, k, i, m);
    SpentDecides(c, ts[m], k, run[i].at, run[m - 1].at, run[m].at);
  }

  // ---- Which key is pushed out ----

  ghost predicate Rises(order: seq<Key>, rank: Key -> int) {
    forall a, b :: 0 <= a < b < |order| ==> rank(order[a]) < rank(order[b])
  }

  lemma RisesFromHead(head: Key, rest: seq<Key>, rank: Key -> int)
    requires Rises(rest, rank) && forall x :: x in rest ==> rank(head) < rank(x)
    ensures Rises([head] + rest, rank)
  {
    var s := [head] + rest;
    forall a, b | 0 <= a < b < |s| ensures rank(s[a]) < rank(s[b]) {
      assert s[b] == rest[b - 1];
    }
  }

  lemma HeadIsLeast(order: seq<Key>, rank: Key -> int)
    requires order != [] && Rises(order, rank)
    ensures Rises(order[1..], rank) && forall x :: x in order[1..] ==> rank(order[0]) < rank(x)
  {
    forall x | x in order[1..] ensures rank(order[0]) < rank(x) {
      var i :| 0 <= i < |order[1..]| && order[1..][i] == x;
      assert order[i + 1] == x;
    }
  }

  lemma {:induction false} KeepRises(order: seq<Key>, counts: map<Key, Cell>, rank: Key -> int)
    requires Rises(order, rank)
    ensures Rises(Keep(order, counts), rank)
  {
    if order != [] {
      HeadIsLeast(order, rank);
      KeepRises(order[1..], counts, rank);
      if order[0] in counts {
        RisesFromHead(order[0], Keep(order[1..], counts), rank);
      }
    }
  }

  lemma {:induction false} WithoutRises(order: seq<Key>, key: Key, rank: Key -> int)
    requires Rises(order, rank)
    ensures Rises(Without(order, key), rank)
  {
    if order != [] {
      HeadIsLeast(order, rank);
      WithoutRises(order[1..], key, rank);
      if order[0] != key {
        RisesFromHead(order[0], Without(order[1..], key), rank);
      }
    }
  }

  function Rank(run: seq<Record>, i: nat): Key -> int
    requires i <= |run|
  {
    (k: Key) => LastRecord(run, k, i)
  }

  lemma PlacedRises(order: seq<Key>, key: Key, before: Key -> int, after: Key -> int)
    requires Rises(order, before)
    requires forall k :: k != key ==> after(k) == before(k) && after(k) < after(key)
    ensures Rises(Without(order, key) + [key], after)
  {
    WithoutRises(order, key, before);
    var s := Without(order, key) + [key];
    forall a, b | 0 <= a < b < |s| ensures after(s[a]) < after(s[b]) {
      assert s[a] == Without(order, key)[a] && s[a] in Without(order, key);
      if b < |s| - 1 {
        assert s[b] == Without(order, key)[b] && s[b] in Without(order, key);
      }
    }
  }

  lemma SweptRises(c: Config, t: Table, now: real, rank: Key -> int)
    requires Rises(t.order, rank)
    ensures Rises(Sweep(c, t, now).order, rank)
  {
    KeepRises(t.order, Unswept(t.counts, if c.ttl.Some? then now - c.ttl.value else now), rank);
  }

  lemma RankMoves(run: seq<Record>, i: nat)
    requires i < |run|
    ensures forall k :: k != run[i].key ==>
        Rank(run, i + 1)(k) == Rank(run, i)(k) && Rank(run, i + 1)(k) < Rank(run, i + 1)(run[i].key)
  {
    var before, after := Rank(run, i), Rank(run, i + 1);
    assert after(run[i].key) == LastRecord(run, run[i].key, i + 1) == i;
    forall k | k != run[i].key ensures after(k) == before(k) && after(k) < i {
      assert after(k) == LastRecord(run, k, i + 1) == LastRecord(run, k, i) == before(k);
    }
  }

  lemma NextRises(c: Config, t: Table, r: Record, before: Key -> int, after: Key -> int)
    requires Rises(t.order, before)
    requires forall k :: k != r.key ==> after(k) == before(k) && after(k) < after(r.key)
    ensures Rises(Next(c, t, r.key, r.at).order, after)
  {
    var s := Sweep(c, t, r.at);
    SweptRises(c, t, r.at, before);
    PlacedRises(s.order, r.key, before, after);
    var grown := Without(s.order, r.key) + [r.key];
    HeadIsLeast(grown, after);
    assert Next(c, t, r.key, r.at).order in {grown, grown[1..]};
  }

  /** In every run the table lists its keys from the one logged longest ago to the latest. */
  lemma {:induction false} OrderIsByUse(c: Config, run: seq<Record>, ts: seq<Table>, i: nat)
    requires IsRun(c, run, ts) && i <= |run|
    ensures Rises(ts[i].order, Rank(run, i))
    decreases i
  {
    if i > 0 {
      OrderIsByUse(c, run, ts, i - 1);
      assert Moves(c, run, ts, i - 1);
      RankMoves(run, i - 1);
      NextRises(c, ts[i - 1], run[i - 1], Rank(run, i - 1), Rank(run, i));
    }
  }

  /** A key pushed out is the one logged longest ago, and it goes only when the table is full of other keys. */
  lemma OldestIsPushedOut(c: Config, run: seq<Record>, ts: seq<Table>, i: nat, v: Key)
    requires c.Valid() && IsRun(c, run, ts) && i < |run| && Evicts(c, ts[i], run[i], v)
    ensures var s := Sweep(c, ts[i], run[i].at);
            && v in s.order && v != run[i].key && run[i].key !in s.order && |s.order| == c.cacheSize
            && forall k :: k in s.order && k != v ==> LastRecord(run, v, i) < LastRecord(run, k, i)
  {
    var t := ts[i];
    var s := Sweep(c, t, run[i].at);
    TableIsBounded(c, run, ts, i);
    assert Consistent(c, s);
    OrderIsByUse(c, run, ts, i);
    SweptRises(c, t, run[i].at, Rank(run, i));
    HeadIsLeast(s.order, Rank(run, i));
    assert s.order == [s.order[0]] + s.order[1..];
    forall k | k in s.order && k != v ensures LastRecord(run, v, i) < LastRecord(run, k, i) {
      assert k in s.order[1..];
      assert Rank(run, i)(v) < Rank(run, i)(k);
    }
  }
}
