/** The process-local lock backend: two dictionaries that stand for one lease per name. */
module MemoryLock {
  import opened Options
  import opened Leases

  class MemoryLockAdapter {
    var locks: map<Name, Hold>
    var fences: map<Name, nat>

    ghost predicate Valid()
      reads this
    {
      locks.Keys <= fences.Keys
    }

    /** The lease that the two dictionaries store for `n`. */
    ghost function View(n: Name): Lease
      reads this
    {
      Lease(if n in locks then Some(locks[n]) else None, if n in fences then fences[n] else 0)
    }

    constructor ()
      ensures Valid() && forall n :: View(n) == FREE
    {
      locks, fences := map[], map[];
    }

    /** The clock is read twice: `now0` decides, `now1` dates the new expiry. */
    method Acquire(name: Name, token: Token, duration: real, now0: real, now1: real) returns (fence: Option<nat>)
      requires Valid() && now0 <= now1
      modifies this
      ensures Valid()
      ensures (View(name), fence) == Leases.Acquire(Closed, old(View(name)), token, now1 + duration, now0)
      ensures forall n :: n != name ==> View(n) == old(View(n))
    {
      var free := name !in locks || locks[name].expireAt < now0;
      if free || locks[name].token == token {
        if free {
          fences := fences[name := (if name in fences then fences[name] else 0) + 1];
        }
        locks := locks[name := Hold(token, now1 + duration)];
        return Some(fences[name]);
      }
      return None;
    }

    /** Up to two clock readings; a hold found lapsed at the second one is dropped as well. */
    method Release(name: Name, token: Token, now0: real, now1: real) returns (released: bool)
      requires Valid() && now0 <= now1
      modifies this`locks
      ensures Valid()
      ensures released == Leases.Release(Closed, old(View(name)), token, now0).1
      ensures Same(Closed, View(name), Leases.Release(Closed, old(View(name)), token, now0).0, now1)
      ensures forall n :: n != name ==> View(n) == old(View(n))
    {
      if name in locks && locks[name].token == token && locks[name].expireAt >= now0 {
        locks := locks - {name};
        return true;
      }
      if name in locks && locks[name].token != "" && locks[name].expireAt < now1 {
        locks := locks - {name};
      }
      return false;
    }

    method Locked(name: Name, now: real) returns (r: bool)
      ensures r == Held(Closed, View(name), now)
    {
      r := name in locks && locks[name].expireAt >= now;
    }

    method Owned(name: Name, token: Token, now: real) returns (r: bool)
      ensures r == HeldBy(Closed, View(name), token, now)
    {
      r := name in locks && locks[name].token == token && locks[name].expireAt >= now;
    }

    /** Closing forgets the fences too, so fencing holds within one adapter lifetime only. */
    method Close()
      modifies this
      ensures Valid() && forall n :: View(n) == FREE
    {
      locks, fences := map[], map[];
    }
  }

  ghost predicate ClockAdvances(run: seq<Event>) {
    forall i, j :: 0 <= i < j < |run| ==> run[i].now <= run[j].now
  }

  /** From `now` on nobody can tell the adapter from the book. */
  ghost predicate Follows(a: MemoryLockAdapter, book: Book, now: real)
    reads a
  {
    forall n :: Same(Closed, a.View(n), At(book, n), now)
  }

  lemma FollowsLater(a: MemoryLockAdapter, book: Book, now: real, later: real)
    requires Follows(a, book, now) && now <= later
    ensures Follows(a, book, later)
  {
    forall n ensures Same(Closed, a.View(n), At(book, n), later) {
      SameIsPreserved(Closed, a.View(n), At(book, n), "", 0.0, now, later);
    }
  }

  /** One event, on the adapter and on the book. */
  method Drive(a: MemoryLockAdapter, e: Event, ghost book: Book) returns (grant: Option<nat>)
    requires a.Valid() && Follows(a, book, e.now)
    modifies a
    ensures a.Valid() && Follows(a, Step(Closed, book, e), e.now)
    ensures grant == if e.AcquireEv? then Acquire(Closed, At(book, e.name), e.token, e.until, e.now).1 else None
  {
    ghost var l := a.View(e.name);
    match e
    case AcquireEv(n, t, until, now) =>
      SameIsPreserved(Closed, l, At(book, n), t, until, now, now);
      grant := a.Acquire(n, t, until - now, now, now);
    case ReleaseEv(n, t, now) =>
      SameIsPreserved(Closed, l, At(book, n), t, 0.0, now, now);
      var _ := a.Release(n, t, now, now);
      grant := None;
  }

  /**
   Whole-run refinement: driven through any run on an advancing clock, a fresh adapter hands out
   exactly the fencing tokens of the abstract lease, so every run theorem of `Leases` is about it.
   */
  method DriveRun(run: seq<Event>) returns (grants: seq<Option<nat>>)
    requires ClockAdvances(run)
    ensures |grants| == |run|
    ensures forall k :: 0 <= k < |run| ==> grants[k] == Grant(Closed, map[], run, k)
  {
    var a := new MemoryLockAdapter();
    grants := [];
    for k := 0 to |run|
      invariant a.Valid() && fresh(a)
      invariant |grants| == k
      invariant forall i :: 0 <= i < k ==> grants[i] == Grant(Closed, map[], run, i)
      invariant k < |run| ==> Follows(a, Before(Closed, map[], run, k), run[k].now)
    {
      var grant := Drive(a, run[k], Before(Closed, map[], run, k));
      grants := grants + [grant];
      if k + 1 < |run| {
        FollowsLater(a, Before(Closed, map[], run, k + 1), run[k].now, run[k + 1].now);
      }
    }
  }
}

/** The `Lock` primitive: a task-local ownership marker over a backend, and the retry loop. */
module LockClient {
  import opened Options
  import opened Rounding
  import opened Leases
  import opened MemoryLock

  type Task = nat

  datatype Outcome =
    | Handle(fence: nat)
    | Reentrant
    | WouldBlock
    | NotOwned
    | TimedOut
    | Released
    | BackendError

  /** How a call to the backend fails: before or after it took effect. */
  datatype Fault = NoFault | Lost | AnswerLost

  class Lock {
    const name: Name
    const lease: real
    const token: Task -> Token
    const backend: MemoryLockAdapter
    var heldByTasks: set<Task>

    constructor (name: Name, lease: real, token: Task -> Token, backend: MemoryLockAdapter)
      ensures this.name == name && this.lease == lease && this.token == token && this.backend == backend
      ensures heldByTasks == {}
    {
      this.name, this.lease, this.token, this.backend := name, lease, token, backend;
      heldByTasks := {};
    }

    method AcquireNowait(task: Task, now0: real, now1: real) returns (r: Outcome)
      requires backend.Valid() && now0 <= now1
      modifies this, backend
      ensures backend.Valid()
      ensures task in old(heldByTasks) <==> r == Reentrant
      ensures r == Reentrant ==> unchanged(this) && unchanged(backend)
      ensures r != Reentrant ==>
                var (l, g) := Leases.Acquire(Closed, old(backend.View(name)), token(task), now1 + lease, now0);
                && backend.View(name) == l
                && r == (if g.Some? then Handle(g.value) else WouldBlock)
                && heldByTasks == old(heldByTasks) + (if g.Some? then {task} else {})
    {
      if task in heldByTasks {
        return Reentrant;
      }
      var g := backend.Acquire(name, token(task), lease, now0, now1);
      if g.None? {
        return WouldBlock;
      }
      heldByTasks := heldByTasks + {task};
      return Handle(g.value);
    }

    /**
     Renewing. The fence is kept exactly when the lease is still live and this task's, and the
     call fails exactly when the marker is missing or another token holds the lease live. A lease
     that lapsed untaken is granted again under a new fence; the documentation promises
     `LockNotOwnedError` there.
     */
    method Extend(task: Task, now0: real, now1: real) returns (r: Outcome)
      requires backend.Valid() && now0 <= now1
      modifies backend
      ensures backend.Valid() && (r == NotOwned || r.Handle?)
      ensures r == NotOwned <==>
              || task !in heldByTasks
              || (Held(Closed, old(backend.View(name)), now0) && !HeldBy(Closed, old(backend.View(name)), token(task), now0))
      ensures r.Handle? ==>
                r.fence == old(backend.View(name)).fence
                           + (if HeldBy(Closed, old(backend.View(name)), token(task), now0) then 0 else 1)
      ensures r == NotOwned ==> backend.View(name) == old(backend.View(name))
      ensures r.Handle? ==> backend.View(name) == Lease(Some(Hold(token(task), now1 + lease)), r.fence)
    {
      if task !in heldByTasks {
        return NotOwned;
      }
      var g := backend.Acquire(name, token(task), lease, now0, now1);
      if g.None? {
        return NotOwned;
      }
      return Handle(g.value);
    }

    /**
     Any answer of the backend clears the marker, also "not owned"; a backend error keeps it, so
     that the caller can try again.
     */
    method Release(task: Task, fault: Fault, now0: real, now1: real) returns (r: Outcome)
      requires backend.Valid() && now0 <= now1
      modifies this, backend
      ensures backend.Valid()
      ensures r == BackendError <==> fault != NoFault
      ensures r != BackendError ==> r == if HeldBy(Closed, old(backend.View(name)), token(task), now0) then Released else NotOwned
      ensures heldByTasks == old(heldByTasks) - (if r == BackendError then {} else {task})
      ensures fault == Lost ==> backend.View(name) == old(backend.View(name))
      ensures fault != Lost ==> !HeldBy(Closed, backend.View(name), token(task), now1)
      ensures forall n :: n != name ==> backend.View(n) == old(backend.View(n))
    {
      if fault == Lost {
        return BackendError;
      }
      var released := backend.Release(name, token(task), now0, now1);
      if fault == AnswerLost {
        return BackendError;
      }
      heldByTasks := heldByTasks - {task};
      r := if released then Released else NotOwned;
    }
  }

  /**
   Acquire, wait, extend, with nobody else around: once the lease has lapsed the extension is a
   new grant under a higher fence, where the documentation promises an error.
   */
  method ExtendAfter(lease: real, wait: real, token: Task -> Token) returns (first: Outcome, second: Outcome)
    requires wait >= 0.0
    ensures first == Handle(1) && second.Handle?
    ensures second.fence == if lease < wait then 2 else 1
  {
    var backend := new MemoryLockAdapter();
    var lock := new Lock("lock", lease, token, backend);
    first := lock.AcquireNowait(0, 0.0, 0.0);
    second := lock.Extend(0, wait, wait);
  }

  // ---- The retry loop of `acquire(timeout=...)` ----

  datatype RetryConfig = RetryConfig(interval: real, jitter: real) {
    predicate Valid() { interval >= 0.001 && 0.0 <= jitter < 1.0 }
  }

  function JitteredInterval(base: real, jitter: real, draw: real): (r: real)
    requires base > 0.0 && 0.0 <= jitter < 1.0 && 0.0 <= draw < 1.0
    ensures base * (1.0 - jitter) <= r && (r < base * (1.0 + jitter) || (jitter == 0.0 && r == base))
  {
    if jitter != 0.0 then
      var u := jitter * (2.0 * draw - 1.0);
      assert -jitter <= u < jitter by {
        assert jitter * draw >= 0.0;
        assert jitter * draw < jitter;
      }
      assert base * u >= base * -jitter && base * u < base * jitter;
      base * (1.0 + u)
    else base
  }

  /** The draws spread the interval evenly around its middle, by the jitter's fraction to each side. */
  lemma JitterSpreads(base: real, jitter: real, draw: real, draw': real)
    requires base > 0.0 && 0.0 <= jitter < 1.0 && 0.0 <= draw < 1.0 && 0.0 <= draw' < 1.0
    ensures JitteredInterval(base, jitter, draw') - JitteredInterval(base, jitter, draw)
            == 2.0 * (base * jitter) * (draw' - draw)
    ensures JitteredInterval(base, jitter, 0.5) == base
  {
    LinearDraw(base, jitter, draw);
    LinearDraw(base, jitter, draw');
    LinearDraw(base, jitter, 0.5);
    assert 2.0 * (base * jitter) * (draw' - draw) == 2.0 * (base * jitter) * draw' - 2.0 * (base * jitter) * draw;
  }

  lemma LinearDraw(base: real, jitter: real, draw: real)
    requires base > 0.0 && 0.0 <= jitter < 1.0 && 0.0 <= draw < 1.0
    ensures JitteredInterval(base, jitter, draw) == base - base * jitter + 2.0 * (base * jitter) * draw
  {
  }

  /** The shortest sleep the jitter allows. */
  function MinInterval(c: RetryConfig): (step: real)
    requires c.Valid()
    ensures step > 0.0
  {
    var factor := 1.0 - c.jitter;
    assert factor > 0.0;
    c.interval * factor
  }

  /** The most backend attempts a timeout allows. */
  function AttemptBound(c: RetryConfig, timeout: real): int
    requires c.Valid()
  {
    Ceil(timeout / MinInterval(c)) + 1
  }

  /** What that many sleeps last at least. */
  ghost function Slept(c: RetryConfig, sleeps: nat): real
    requires c.Valid()
  {
    if sleeps == 0 then 0.0 else Slept(c, sleeps - 1) + MinInterval(c)
  }

  lemma {:induction false} SleptIsProduct(c: RetryConfig, sleeps: nat)
    requires c.Valid()
    ensures Slept(c, sleeps) == sleeps as real * MinInterval(c)
  {
    if sleeps > 0 {
      SleptIsProduct(c, sleeps - 1);
      var step, n := MinInterval(c), (sleeps - 1) as real;
      assert (n + 1.0) * step == n * step + step;
    }
  }

  /** While the shortest sleeps do not fill the timeout, another attempt is within the bound. */
  lemma SleepsFitTimeout(c: RetryConfig, timeout: real, sleeps: nat)
    requires c.Valid() && Slept(c, sleeps) < timeout
    ensures sleeps + 2 <= AttemptBound(c, timeout)
  {
    SleptIsProduct(c, sleeps);
    var q := timeout / MinInterval(c);
    assert q * MinInterval(c) == timeout;
    assert sleeps as real < q;
    assert sleeps as real < Ceil(q) as real;
  }

  lemma IntervalIsShortest(c: RetryConfig, draw: real)
    requires c.Valid() && 0.0 <= draw < 1.0
    ensures MinInterval(c) <= JitteredInterval(c.interval, c.jitter, draw)
  {
  }

  /**
   `clock(k)` and `replies(k)` are the loop time read and the backend answer after attempt `k`,
   `draws(k)` the random number behind sleep `k`. A sleep lasts at least its interval. For every
   such environment the loop ends within `AttemptBound` attempts, returns the first grant there
   is, and times out only past the deadline.
   */
  method AcquireWithTimeout(c: RetryConfig, timeout: real, start: real,
                            clock: nat -> real, draws: nat -> real, replies: nat -> Option<nat>)
    returns (r: Outcome, attempts: nat)
    requires c.Valid() && timeout > 0.0
    requires start <= clock(0)
    requires forall k: nat :: 0.0 <= draws(k) < 1.0
    requires forall k: nat :: clock(k) + JitteredInterval(c.interval, c.jitter, draws(k)) <= clock(k + 1)
    ensures 1 <= attempts <= AttemptBound(c, timeout)
    ensures attempts > 1 ==> (attempts - 2) as real * (c.interval * (1.0 - c.jitter)) < timeout
    ensures forall k :: 0 <= k < attempts - 1 ==> replies(k).None? && clock(k) < start + timeout
    ensures r.Handle? || r == TimedOut
    ensures r.Handle? ==> replies(attempts - 1) == Some(r.fence)
    ensures r == TimedOut ==> replies(attempts - 1).None? && start + timeout <= clock(attempts - 1)
  {
    var deadline := start + timeout;
    var fence := replies(0);
    attempts := 1;
    SleepsFitTimeout(c, timeout, 0);
    while fence.None?
      invariant 1 <= attempts <= AttemptBound(c, timeout)
      invariant fence == replies(attempts - 1)
      invariant attempts > 1 ==> Slept(c, attempts - 2) < timeout
      invariant forall k :: 0 <= k < attempts - 1 ==> replies(k).None? && clock(k) < deadline
      invariant start + Slept(c, attempts - 1) <= clock(attempts - 1)
      decreases AttemptBound(c, timeout) - attempts
    {
      if clock(attempts - 1) >= deadline {
        if attempts > 1 {
          SleptIsProduct(c, attempts - 2);
        }
        return TimedOut, attempts;
      }
      SleepsFitTimeout(c, timeout, attempts - 1);
      IntervalIsShortest(c, draws(attempts - 1));
      assert clock(attempts - 1) + JitteredInterval(c.interval, c.jitter, draws(attempts - 1)) <= clock(attempts);
      fence := replies(attempts);
      attempts := attempts + 1;
    }
    if attempts > 1 {
      SleptIsProduct(c, attempts - 2);
    }
    r := Handle(fence.value);
  }
}
