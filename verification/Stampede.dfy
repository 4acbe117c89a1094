/**
 `compute_with_stampede` with the in-process lock, as interleaved calls: each stretch between two
 awaits is one step. Nobody else writes or deletes the cached keys.
 */
module Stampede {
  import opened Options
  import opened Sequences
  import opened KeyedLocks
  import opened LockProtocol

  type Value = int

  datatype Cached = Cached(value: Value, expiry: real)

  datatype Phase =
    | New
    | Waiting(key: Key, lock: LockId)
    | Peeking(key: Key, lock: LockId)
    | Computing(key: Key, lock: LockId, startedAt: real)
    | Returned(value: Value)
    | Failed

  /** A finished compute; `expiry` is set when it stored its value. */
  datatype Compute = Compute(key: Key, startedAt: real, endedAt: real, stored: Option<Cached>)

  datatype State = State(now: real, guard: Guard, calls: map<CallId, Phase>, store: map<Key, Cached>, computes: seq<Compute>)

  datatype Step =
    | Tick(now: real)
    | CallFor(c: CallId, key: Key)
    | WakeUp(c: CallId)
    | CancelWaiting(c: CallId)
    | Peek(c: CallId)
    | Finish(c: CallId, value: Value, ttl: real)
    | Abort(c: CallId)

  predicate LiveValue(s: State, k: Key) { k in s.store && s.now < s.store[k].expiry }

  predicate Enabled(s: State, step: Step) {
    if step.Tick? then s.now <= step.now
    else
      step.c in s.calls &&
      var p := s.calls[step.c];
      match step
      case Tick(_) => true
      case CallFor(_, _) => p.New?
      case WakeUp(c) =>
        && p.Waiting? && p.lock < |s.guard.heap| && HandOff(s.guard.heap[p.lock])
        && s.guard.heap[p.lock].waiters[0] == c
      case CancelWaiting(_) => p.Waiting? && p.lock < |s.guard.heap|
      case Peek(_) => p.Peeking? && p.lock < |s.guard.heap|
      case Finish(_, _, ttl) => p.Computing? && p.lock < |s.guard.heap| && ttl > 0.0
      case Abort(_) => (p.Peeking? || p.Computing?) && p.lock < |s.guard.heap|
  }

  function Put(s: State, c: CallId, p: Phase, g: Guard): State { s.(calls := s.calls[c := p], guard := g) }

  function PhaseIn(r: Role, key: Key): Phase {
    match r
    case Waits(id) => Waiting(key, id)
    case Holds(id) => Peeking(key, id)
    case Away => Failed
  }

  function AfterCall(g: Guard, key: Key): Phase { PhaseIn(RoleAfterCall(g, key), key) }

  function Do(s: State, step: Step): State
    requires Enabled(s, step)
  {
    if step.Tick? then s.(now := step.now)
    else
      var c := step.c;
      var p := s.calls[c];
      match step
      case Tick(_) => s
      case CallFor(_, key) => Put(s, c, AfterCall(s.guard, key), Call(s.guard, key, c))
      case WakeUp(_) => Put(s, c, Peeking(p.key, p.lock), Wake(s.guard, p.lock))
      case CancelWaiting(_) => Put(s, c, Failed, CancelWait(s.guard, p.lock, c))
      case Peek(_) =>
        if LiveValue(s, p.key) then Put(s, c, Returned(s.store[p.key].value), ReleaseLock(s.guard, p.lock))
        else Put(s, c, Computing(p.key, p.lock, s.now), s.guard)
      case Finish(_, v, ttl) =>
        var entry := Cached(v, s.now + ttl);
        Put(s, c, Returned(v), ReleaseLock(s.guard, p.lock)).
          (store := s.store[p.key := entry], computes := s.computes + [Compute(p.key, p.startedAt, s.now, Some(entry))])
      case Abort(_) =>
        var s' := Put(s, c, Failed, ReleaseLock(s.guard, p.lock));
        if p.Computing? then s'.(computes := s.computes + [Compute(p.key, p.startedAt, s.now, None)]) else s'
  }

  predicate Init(s: State) {
    && s.guard == Guard([], map[], []) && s.computes == []
    && forall c :: c in s.calls ==> s.calls[c].New?
  }

  ghost predicate IsRun(states: seq<State>, steps: seq<Step>) {
    && |states| == |steps| + 1
    && Init(states[0])
    && forall i :: 0 <= i < |steps| ==> Enabled(states[i], steps[i]) && states[i + 1] == Do(states[i], steps[i])
  }

  /** A call for a lock pushes no busy lock out of the registry. */
  predicate SafeStep(s: State, step: Step) { step.CallFor? ==> SafeFor(s.guard, step.key) }

  ghost predicate SafeUpTo(states: seq<State>, steps: seq<Step>, k: nat)
    requires k <= |steps| < |states|
  {
    forall i :: 0 <= i < k ==> SafeStep(states[i], steps[i])
  }

  // ---- Invariant ----

  function SeatOf(p: Phase): Seat {
    match p
    case Waiting(k, id) => Seat(Waits(id), k)
    case Peeking(k, id) => Seat(Holds(id), k)
    case Computing(k, id, _) => Seat(Holds(id), k)
    case _ => Seat(Away, "")
  }

  function SeatsOf(calls: map<CallId, Phase>): Seats { map c | c in calls :: SeatOf(calls[c]) }

  /** A finished compute is over, and its value lapsed, before `p` began computing the same key. */
  predicate Precedes(c: Compute, p: Phase) {
    p.Computing? && p.key == c.key ==> c.endedAt <= p.startedAt && (c.stored.Some? ==> c.stored.value.expiry <= p.startedAt)
  }

  predicate StoreCovers(s: State, c: Compute) {
    && c.endedAt <= s.now
    && (c.stored.Some? ==> c.key in s.store && c.stored.value.expiry <= s.store[c.key].expiry)
  }

  predicate Ordered(c: Compute, d: Compute) {
    c.key == d.key ==> c.endedAt <= d.startedAt && (c.stored.Some? ==> c.stored.value.expiry <= d.startedAt)
  }

  ghost predicate Inv(s: State) {
    && LocksFit(s)
    && BusyRegistered(s.guard)
    && StartsFine(s)
    && (forall i :: 0 <= i < |s.computes| ==> StoreCovers(s, s.computes[i]))
    && CallsFollow(s)
    && (forall i, j :: 0 <= i < j < |s.computes| ==> Ordered(s.computes[i], s.computes[j]))
  }

  predicate StartsFine(s: State) { forall c :: c in s.calls && s.calls[c].Computing? ==> s.calls[c].startedAt <= s.now }

  /** Whatever is being computed comes after every finished compute. */
  predicate CallsFollow(s: State) {
    forall i, c :: 0 <= i < |s.computes| && c in s.calls ==> Precedes(s.computes[i], s.calls[c])
  }

  /** Moving one call moves one seat; the key of an empty seat does not matter. */
  lemma Reseat(g: Guard, calls: map<CallId, Phase>, c: CallId, p: Phase, key: Key)
    requires SeatsFit(g, SeatsOf(calls)[c := Seat(SeatOf(p).role, key)])
    requires SeatOf(p).role.Away? || SeatOf(p).key == key
    ensures SeatsFit(g, SeatsOf(calls[c := p]))
  {
    var before, after := SeatsOf(calls)[c := Seat(SeatOf(p).role, key)], SeatsOf(calls[c := p]);
    assert RolesIn(after) == RolesIn(before);
    forall d | d in after ensures Fits(g, after[d]) {
      assert Fits(g, before[d]);
    }
  }

  ghost predicate LocksFit(s: State) { SeatsFit(s.guard, SeatsOf(s.calls)) }

  lemma CallKeepsLocks(s: State, c: CallId, key: Key)
    requires LocksFit(s) && c in s.calls && s.calls[c].New?
    ensures LocksFit(Put(s, c, AfterCall(s.guard, key), Call(s.guard, key, c)))
  {
    SeatCall(s.guard, SeatsOf(s.calls), c, key);
    ReseatAfterCall(s, c, key, RoleAfterCall(s.guard, key), Call(s.guard, key, c));
  }

  lemma ReseatAfterCall(s: State, c: CallId, key: Key, r: Role, g: Guard)
    requires SeatsFit(g, SeatsOf(s.calls)[c := Seat(r, key)])
    ensures LocksFit(Put(s, c, PhaseIn(r, key), g))
  {
    Reseat(g, s.calls, c, PhaseIn(r, key), key);
  }

  lemma CancelKeepsLocks(s: State, c: CallId)
    requires LocksFit(s) && c in s.calls && s.calls[c].Waiting?
    ensures s.calls[c].lock < |s.guard.heap|
    ensures LocksFit(Put(s, c, Failed, CancelWait(s.guard, s.calls[c].lock, c)))
    ensures BusyRegistered(s.guard) ==> BusyRegistered(CancelWait(s.guard, s.calls[c].lock, c))
  {
    var p, seats := s.calls[c], SeatsOf(s.calls);
    assert seats[c] == Seat(Waits(p.lock), p.key) && Fits(s.guard, seats[c]);
    SeatCancel(s.guard, seats, c);
    Reseat(CancelWait(s.guard, p.lock, c), s.calls, c, Failed, p.key);
  }

  lemma WakeKeepsLocks(s: State, c: CallId)
    requires LocksFit(s) && c in s.calls && s.calls[c].Waiting? && s.calls[c].lock < |s.guard.heap|
    requires var m := s.guard.heap[s.calls[c].lock]; HandOff(m) && m.waiters[0] == c
    ensures LocksFit(Put(s, c, Peeking(s.calls[c].key, s.calls[c].lock), Wake(s.guard, s.calls[c].lock)))
    ensures BusyRegistered(s.guard) ==> BusyRegistered(Wake(s.guard, s.calls[c].lock))
  {
    var p, seats := s.calls[c], SeatsOf(s.calls);
    assert seats[c] == Seat(Waits(p.lock), p.key) && Fits(s.guard, seats[c]);
    SeatWake(s.guard, seats, c);
    Reseat(Wake(s.guard, p.lock), s.calls, c, Peeking(p.key, p.lock), p.key);
  }

  lemma HolderLeaves(s: State, c: CallId, p: Phase)
    requires LocksFit(s) && c in s.calls && (s.calls[c].Peeking? || s.calls[c].Computing?)
    requires SeatOf(p).role.Away?
    ensures s.calls[c].lock < |s.guard.heap| && s.guard.heap[s.calls[c].lock].holder == Some(c)
    ensures LocksFit(Put(s, c, p, ReleaseLock(s.guard, s.calls[c].lock)))
    ensures BusyRegistered(s.guard) ==> BusyRegistered(ReleaseLock(s.guard, s.calls[c].lock))
  {
    var q, seats := s.calls[c], SeatsOf(s.calls);
    assert seats[c] == Seat(Holds(q.lock), q.key) && Fits(s.guard, seats[c]);
    SeatRelease(s.guard, seats, c);
    Reseat(ReleaseLock(s.guard, q.lock), s.calls, c, p, q.key);
  }

  lemma HolderComputes(s: State, c: CallId)
    requires LocksFit(s) && c in s.calls && (s.calls[c].Peeking? || s.calls[c].Computing?)
    ensures LocksFit(Put(s, c, Computing(s.calls[c].key, s.calls[c].lock, s.now), s.guard))
  {
    var q, seats := s.calls[c], SeatsOf(s.calls);
    assert seats[c] == Seat(Holds(q.lock), q.key) && seats[c := seats[c]] == seats;
    Reseat(s.guard, s.calls, c, Computing(q.key, q.lock, s.now), q.key);
  }

  /** The lock side of every step, and the only step that can lose a busy lock. */
  lemma StepKeepsLocks(s: State, step: Step)
    requires LocksFit(s) && Enabled(s, step)
    ensures LocksFit(Do(s, step))
    ensures BusyRegistered(s.guard) ==> (SafeStep(s, step) <==> BusyRegistered(Do(s, step).guard))
  {
    match step {
      case Tick(_) =>
      case CallFor(c, key) =>
        CallKeepsLocks(s, c, key);
        SeatCall(s.guard, SeatsOf(s.calls), c, key);
      case WakeUp(c) => WakeKeepsLocks(s, c);
      case CancelWaiting(c) => CancelKeepsLocks(s, c);
      case Peek(c) =>
        if LiveValue(s, s.calls[c].key) {
          HolderLeaves(s, c, Returned(s.store[s.calls[c].key].value));
        } else {
          HolderComputes(s, c);
        }
      case Finish(c, v, _) => HolderLeaves(s, c, Returned(v));
      case Abort(c) => HolderLeaves(s, c, Failed);
    }
  }

  /** Two calls past the lock of one key are one call. */
  lemma OneFlight(s: State, c: CallId, d: CallId)
    requires Inv(s) && c in s.calls && d in s.calls
    requires (s.calls[c].Peeking? || s.calls[c].Computing?) && (s.calls[d].Peeking? || s.calls[d].Computing?)
    requires s.calls[c].key == s.calls[d].key
    ensures c == d
  {
    OneSeatHolds(s.guard, SeatsOf(s.calls), c, d);
  }

  /** The bookkeeping side of every step. */
  lemma StepKeepsStore(s: State, step: Step)
    requires Inv(s) && Enabled(s, step)
    ensures forall i :: 0 <= i < |Do(s, step).computes| ==> StoreCovers(Do(s, step), Do(s, step).computes[i])
  {
    var s' := Do(s, step);
    forall i | 0 <= i < |s.computes| ensures StoreCovers(s', s.computes[i]) {
      assert StoreCovers(s, s.computes[i]);
      if step.Finish? {
        assert Precedes(s.computes[i], s.calls[step.c]);
      }
    }
  }

  lemma StartsStayFine(s: State, step: Step)
    requires StartsFine(s) && Enabled(s, step)
    ensures StartsFine(Do(s, step))
  {
  }

  /** No other call is computing the key of the step's call once it holds the lock. */
  lemma NobodyElseComputes(s: State, step: Step, c: CallId)
    requires Inv(s) && Enabled(s, step) && (step.Finish? || step.Abort?) && c in s.calls && c != step.c
    ensures !(s.calls[c].Computing? && s.calls[c].key == s.calls[step.c].key)
  {
    if s.calls[c].Computing? && s.calls[c].key == s.calls[step.c].key {
      OneFlight(s, c, step.c);
    }
  }

  lemma CallsStillFollow(s: State, step: Step)
    requires Inv(s) && Enabled(s, step)
    ensures CallsFollow(Do(s, step))
  {
    var s' := Do(s, step);
    forall i, c | 0 <= i < |s'.computes| && c in s'.calls ensures Precedes(s'.computes[i], s'.calls[c]) {
      if i < |s.computes| {
        assert Precedes(s.computes[i], s.calls[c]) && StoreCovers(s, s.computes[i]);
      } else if c != step.c {
        NobodyElseComputes(s, step, c);
      }
    }
  }

  lemma StepKeepsOrder(s: State, step: Step)
    requires Inv(s) && Enabled(s, step)
    ensures var s' := Do(s, step);
            forall i, j :: 0 <= i < j < |s'.computes| ==> Ordered(s'.computes[i], s'.computes[j])
  {
    var s' := Do(s, step);
    forall i, j | 0 <= i < j < |s'.computes| ensures Ordered(s'.computes[i], s'.computes[j]) {
      if j == |s.computes| {
        assert Precedes(s.computes[i], s.calls[step.c]);
      }
    }
  }

  lemma StepKeepsInv(s: State, step: Step)
    requires Inv(s) && Enabled(s, step) && SafeStep(s, step)
    ensures Inv(Do(s, step))
  {
    StepKeepsLocks(s, step);
    StepKeepsStore(s, step);
    StartsStayFine(s, step);
    CallsStillFollow(s, step);
    StepKeepsOrder(s, step);
  }

  lemma InitFits(s: State)
    requires Init(s)
    ensures Inv(s)
  {
    assert RolesMatch(s.guard, RolesIn(SeatsOf(s.calls)));
  }

  /** Callers and locks agree in every run whatsoever. */
  lemma {:induction false} RunKeepsLocks(states: seq<State>, steps: seq<Step>, k: nat)
    requires IsRun(states, steps) && k < |states|
    ensures LocksFit(states[k])
    decreases k
  {
    if k == 0 {
      InitFits(states[0]);
    } else {
      RunKeepsLocks(states, steps, k - 1);
      StepKeepsLocks(states[k - 1], steps[k - 1]);
    }
  }

  /** Every busy lock can be found under its key in all states so far exactly when every call so far was safe. */
  lemma {:induction false} RegisteredExactly(states: seq<State>, steps: seq<Step>, k: nat)
    requires IsRun(states, steps) && k < |states|
    ensures RegisteredUpTo(states, k) <==> SafeUpTo(states, steps, k)
    decreases k
  {
    if k > 0 {
      RegisteredExactly(states, steps, k - 1);
      RunKeepsLocks(states, steps, k - 1);
      StepKeepsLocks(states[k - 1], steps[k - 1]);
      assert RegisteredUpTo(states, k) <==> RegisteredUpTo(states, k - 1) && BusyRegistered(states[k].guard);
      assert SafeUpTo(states, steps, k) <==> SafeUpTo(states, steps, k - 1) && SafeStep(states[k - 1], steps[k - 1]);
    }
  }

  ghost predicate RegisteredUpTo(states: seq<State>, k: nat)
    requires k < |states|
  {
    forall j :: 0 <= j <= k ==> BusyRegistered(states[j].guard)
  }

  lemma {:induction false} RunKeepsInv(states: seq<State>, steps: seq<Step>, k: nat)
    requires IsRun(states, steps) && k < |states| && SafeUpTo(states, steps, k)
    ensures Inv(states[k])
    decreases k
  {
    if k == 0 {
      InitFits(states[0]);
    } else {
      RunKeepsInv(states, steps, k - 1);
      StepKeepsInv(states[k - 1], steps[k - 1]);
    }
  }

  // ---- The guarantees ----

  /** At most one compute per key is in flight, in every state of every run until a call is unsafe. */
  lemma SingleFlight(states: seq<State>, steps: seq<Step>, k: nat, c: CallId, d: CallId)
    requires IsRun(states, steps) && k < |states| && SafeUpTo(states, steps, k) && c in states[k].calls && d in states[k].calls
    requires states[k].calls[c].Computing? && states[k].calls[d].Computing?
    requires states[k].calls[c].key == states[k].calls[d].key
    ensures c == d
  {
    RunKeepsInv(states, steps, k);
    OneFlight(states[k], c, d);
  }

  /** No key has two usable locks: all locks of a key that anyone holds or awaits are one object. */
  lemma OneUsableLock(states: seq<State>, steps: seq<Step>, k: nat, a: LockId, b: LockId)
    requires IsRun(states, steps) && k < |states| && SafeUpTo(states, steps, k)
    requires a < |states[k].guard.heap| && b < |states[k].guard.heap|
    requires Busy(states[k].guard.heap[a]) && Busy(states[k].guard.heap[b])
    requires states[k].guard.heap[a].key == states[k].guard.heap[b].key
    ensures a == b
  {
    RunKeepsInv(states, steps, k);
  }

  /**
   Computes of one key never overlap, and the next one starts only after the value the previous
   one stored has lapsed.
   */
  lemma ComputesAreSpaced(states: seq<State>, steps: seq<Step>, k: nat, i: nat, j: nat)
    requires IsRun(states, steps) && k < |states| && SafeUpTo(states, steps, k) && i < j < |states[k].computes|
    requires states[k].computes[i].key == states[k].computes[j].key
    ensures states[k].computes[i].endedAt <= states[k].computes[j].startedAt
    ensures states[k].computes[i].stored.Some? ==>
              states[k].computes[i].stored.value.expiry <= states[k].computes[j].startedAt
  {
    RunKeepsInv(states, steps, k);
    assert Ordered(states[k].computes[i], states[k].computes[j]);
  }

  /**
   No waiting call is stranded: another call holds the lock it waits on and can give it up, or the
   call at the head of the queue can go on.
   */
  lemma NoStrandedCall(states: seq<State>, steps: seq<Step>, k: nat, c: CallId) returns (d: CallId)
    requires IsRun(states, steps) && k < |states| && c in states[k].calls && states[k].calls[c].Waiting?
    ensures var s := states[k];
            && d in s.calls
            && (Enabled(s, WakeUp(d)) || Enabled(s, Abort(d))) && KeyOfPhase(s.calls[d]).Some?
            && s.calls[d].lock == s.calls[c].lock
  {
    RunKeepsLocks(states, steps, k);
    var s := states[k];
    assert SeatsOf(s.calls)[c] == SeatOf(s.calls[c]);
    d := SomebodyGoesOn(s.guard, SeatsOf(s.calls), c);
    assert SeatsOf(s.calls)[d] == SeatOf(s.calls[d]);
  }

  /** A caller that gets the lock behind a compute whose value is still live returns without computing. */
  lemma WaiterReusesValue(states: seq<State>, steps: seq<Step>, k: nat, i: nat)
    requires IsRun(states, steps) && k < |steps| && SafeUpTo(states, steps, k) && steps[k].Peek?
    requires i < |states[k].computes| && states[k].computes[i].key == states[k].calls[steps[k].c].key
    requires states[k].computes[i].stored.Some? && states[k].now < states[k].computes[i].stored.value.expiry
    ensures states[k].computes[i].key in states[k].store
    ensures states[k + 1].calls[steps[k].c] == Returned(states[k].store[states[k].computes[i].key].value)
  {
    RunKeepsInv(states, steps, k);
    assert StoreCovers(states[k], states[k].computes[i]);
  }

  // ---- What a call returns ----

  /** Step `i` ends a compute of `key` with `value`. */
  predicate Computed(states: seq<State>, steps: seq<Step>, i: nat, key: Key, value: Value)
    requires i < |steps| && i < |states|
  {
    && steps[i].Finish? && steps[i].value == value && steps[i].c in states[i].calls
    && states[i].calls[steps[i].c].Computing? && states[i].calls[steps[i].c].key == key
  }

  /** A call that computes returns what it computed. */
  lemma ComputerReturnsItsValue(states: seq<State>, steps: seq<Step>, k: nat)
    requires IsRun(states, steps) && k < |steps| && steps[k].Finish?
    ensures states[k + 1].calls[steps[k].c] == Returned(steps[k].value)
    ensures var key := states[k].calls[steps[k].c].key;
            key in states[k + 1].store && states[k + 1].store[key] == Cached(steps[k].value, states[k].now + steps[k].ttl)
  {
  }

  lemma StoreStep(s: State, step: Step, key: Key)
    requires Enabled(s, step) && key in Do(s, step).store
    ensures if step.Finish? && s.calls[step.c].key == key
            then Do(s, step).store[key] == Cached(step.value, s.now + step.ttl)
            else key in s.store && Do(s, step).store[key] == s.store[key]
  {
  }

  /** A stored value was there from the start, or was computed for its key and lives for the time asked for then. */
  lemma {:induction false} StoreGoesBack(states: seq<State>, steps: seq<Step>, k: nat, key: Key) returns (i: nat)
    requires IsRun(states, steps) && k < |states| && key in states[k].store
    ensures var entry := states[k].store[key];
            || (key in states[0].store && states[0].store[key] == entry)
            || (i < k && Computed(states, steps, i, key, entry.value) && entry.expiry == states[i].now + steps[i].ttl)
    decreases k
  {
    i := 0;
    if k > 0 {
      var s, step := states[k - 1], steps[k - 1];
      StoreStep(s, step, key);
      if step.Finish? && s.calls[step.c].key == key {
        i := k - 1;
      } else {
        i := StoreGoesBack(states, steps, k - 1, key);
      }
    }
  }

  function KeyOfPhase(p: Phase): Option<Key> {
    if p.Waiting? || p.Peeking? || p.Computing? then Some(p.key) else None
  }

  lemma KeyStep(s: State, step: Step, c: CallId)
    requires Enabled(s, step) && c in s.calls && KeyOfPhase(Do(s, step).calls[c]).Some?
    ensures step == CallFor(c, KeyOfPhase(Do(s, step).calls[c]).value) || KeyOfPhase(s.calls[c]) == KeyOfPhase(Do(s, step).calls[c])
  {
  }

  /** A call works on the key it asked for. */
  lemma {:induction false} KeyGoesBack(states: seq<State>, steps: seq<Step>, k: nat, c: CallId) returns (j: nat)
    requires IsRun(states, steps) && k < |states| && c in states[k].calls && KeyOfPhase(states[k].calls[c]).Some?
    ensures j < k && steps[j] == CallFor(c, KeyOfPhase(states[k].calls[c]).value)
    decreases k
  {
    KeyStep(states[k - 1], steps[k - 1], c);
    if steps[k - 1].CallFor? && steps[k - 1].c == c {
      j := k - 1;
    } else {
      j := KeyGoesBack(states, steps, k - 1, c);
    }
  }

  /** A step makes a call return what it computed or what it found alive. */
  lemma ReturnStep(s: State, step: Step, c: CallId)
    requires Enabled(s, step) && c in s.calls && Do(s, step).calls[c].Returned?
    ensures var v := Do(s, step).calls[c].value;
            || s.calls[c] == Returned(v)
            || (step.Finish? && step.c == c && step.value == v && KeyOfPhase(s.calls[c]).Some?)
            || (step.Peek? && step.c == c && KeyOfPhase(s.calls[c]).Some? && LiveValue(s, s.calls[c].key)
                && s.store[s.calls[c].key].value == v)
  {
  }

  /** The value of `key` was stored before the run, or computed by a call, perhaps another one. */
  ghost predicate Sourced(states: seq<State>, steps: seq<Step>, k: nat, i: nat, key: Key, value: Value)
    requires |states| == |steps| + 1 && k < |states|
  {
    || (key in states[0].store && states[0].store[key].value == value)
    || (i < k && Computed(states, steps, i, key, value))
  }

  /** Every returned value comes from a compute, or from before, of the key that was asked for. */
  lemma {:induction false} ReturnGoesBack(states: seq<State>, steps: seq<Step>, k: nat, c: CallId) returns (j: nat, i: nat)
    requires IsRun(states, steps) && k < |states| && c in states[k].calls && states[k].calls[c].Returned?
    ensures j < k && steps[j].CallFor? && steps[j].c == c
    ensures Sourced(states, steps, k, i, steps[j].key, states[k].calls[c].value)
    decreases k
  {
    var s, step := states[k - 1], steps[k - 1];
    ReturnStep(s, step, c);
    if s.calls[c].Returned? {
      j, i := ReturnGoesBack(states, steps, k - 1, c);
    } else {
      j := KeyGoesBack(states, steps, k - 1, c);
      if step.Finish? {
        i := k - 1;
      } else {
        i := StoreGoesBack(states, steps, k - 1, s.calls[c].key);
      }
    }
  }

  /** What a step that ends a compute leaves behind. */
  function Left(s: State, step: Step): Compute
    requires Enabled(s, step) && step.Finish?
  {
    var p := s.calls[step.c];
    Compute(p.key, p.startedAt, s.now, Some(Cached(step.value, s.now + step.ttl)))
  }

  /** A finished compute whose value is stored and recorded. */
  ghost predicate Kept(s: State, n: nat, done: Compute) {
    && n < |s.computes| && s.computes[n] == done && done.stored.Some?
    && done.key in s.store && s.store[done.key] == done.stored.value
  }

  lemma KeptAtFirst(s: State, step: Step)
    requires Enabled(s, step) && step.Finish?
    ensures Kept(Do(s, step), |s.computes|, Left(s, step))
  {
  }

  lemma KeptStep(s: State, step: Step, n: nat, done: Compute)
    requires Inv(s) && Enabled(s, step) && Kept(s, n, done) && Do(s, step).now < done.stored.value.expiry
    ensures Kept(Do(s, step), n, done)
  {
    if step.Finish? {
      assert Precedes(s.computes[n], s.calls[step.c]);
      assert StartsFine(s);
    }
  }

  lemma {:induction false} KeptUntil(states: seq<State>, steps: seq<Step>, j: nat, k: nat, n: nat, done: Compute)
    requires IsRun(states, steps) && j <= k < |states| && SafeUpTo(states, steps, k)
    requires Kept(states[j], n, done) && states[k].now < done.stored.value.expiry
    ensures Kept(states[k], n, done)
    decreases k
  {
    if j < k {
      ClockStep(states[k - 1], steps[k - 1]);
      KeptUntil(states, steps, j, k - 1, n, done);
      RunKeepsInv(states, steps, k - 1);
      KeptStep(states[k - 1], steps[k - 1], n, done);
    }
  }

  /** The value of a finished compute stays stored for its time. */
  lemma ValueStays(states: seq<State>, steps: seq<Step>, i: nat, k: nat)
    requires IsRun(states, steps) && i < k < |states| && SafeUpTo(states, steps, k) && steps[i].Finish?
    requires states[k].now < states[i].now + steps[i].ttl
    ensures Kept(states[k], |states[i].computes|, Left(states[i], steps[i]))
  {
    KeptAtFirst(states[i], steps[i]);
    KeptUntil(states, steps, i + 1, k, |states[i].computes|, Left(states[i], steps[i]));
  }

  lemma ClockStep(s: State, step: Step)
    requires Enabled(s, step)
    ensures s.now <= Do(s, step).now
  {
  }

  /** Until that time is up, every caller that gets to look returns exactly that value. */
  lemma FinishedValueIsReused(states: seq<State>, steps: seq<Step>, i: nat, k: nat)
    requires IsRun(states, steps) && i < k < |steps| && SafeUpTo(states, steps, k) && steps[i].Finish? && steps[k].Peek?
    requires states[k].calls[steps[k].c].key == states[i].calls[steps[i].c].key
    requires states[k].now < states[i].now + steps[i].ttl
    ensures states[k + 1].calls[steps[k].c] == Returned(steps[i].value)
  {
    ValueStays(states, steps, i, k);
  }

  /** A caller that looks and finds nothing live computes. */
  lemma MissComputes(states: seq<State>, steps: seq<Step>, k: nat)
    requires IsRun(states, steps) && k < |steps| && steps[k].Peek? && !LiveValue(states[k], states[k].calls[steps[k].c].key)
    ensures var p := states[k].calls[steps[k].c];
            states[k + 1].calls[steps[k].c] == Computing(p.key, p.lock, states[k].now)
  {
  }

  // ---- An unsafe call breaks single flight ----

  ghost predicate TwoComputes(s: State) {
    exists a, b :: a in s.calls && b in s.calls && a != b && BothComputing(s.calls[a], s.calls[b])
  }

  predicate BothComputing(p: Phase, q: Phase) { p.Computing? && q.Computing? && p.key == q.key }

  function Last(states: seq<State>): State
    requires states != []
  {
    states[|states| - 1]
  }

  lemma Append(states: seq<State>, steps: seq<Step>, step: Step) returns (states': seq<State>, steps': seq<Step>)
    requires IsRun(states, steps) && Enabled(Last(states), step)
    ensures IsRun(states', steps') && states <= states' && steps' == steps + [step]
    ensures Last(states') == Do(Last(states), step)
  {
    states', steps' := states + [Do(Last(states), step)], steps + [step];
    forall i | 0 <= i < |steps'|
      ensures Enabled(states'[i], steps'[i]) && states'[i + 1] == Do(states'[i], steps'[i])
    {
      if i < |steps| {
        assert states'[i] == states[i] && steps'[i] == steps[i] && states'[i + 1] == states[i + 1];
      }
    }
  }

  /** Two calls inside the locks of one key both compute, once the stored value has lapsed. */
  lemma BothCompute(states: seq<State>, steps: seq<Step>, a: CallId, b: CallId)
    returns (states': seq<State>, steps': seq<Step>)
    requires IsRun(states, steps) && a != b && TwoPeeking(Last(states), a, b)
    ensures IsRun(states', steps') && states <= states' && steps <= steps' && TwoComputes(Last(states'))
  {
    var s := Last(states);
    var key := s.calls[a].key;
    var later := if key in s.store && s.now < s.store[key].expiry then s.store[key].expiry else s.now;
    states', steps' := Append(states, steps, Tick(later));
    states', steps' := Append(states', steps', Peek(a));
    states', steps' := Append(states', steps', Peek(b));
    assert BothComputing(Last(states').calls[a], Last(states').calls[b]);
  }

  predicate TwoPeeking(s: State, a: CallId, b: CallId) {
    Enabled(s, Peek(a)) && Enabled(s, Peek(b)) && s.calls[a].key == s.calls[b].key
  }

  /** When every registered lock is held, the caller's own new lock is the one that goes. */
  lemma OwnLockLost(s: State, c: CallId, d: CallId, key: Key)
    requires LocksFit(s) && c in s.calls && d in s.calls && c != d && s.calls[c].New? && s.calls[d].New?
    requires !SafeFor(s.guard, key) && FirstUnlocked(s.guard, s.guard.order) == |s.guard.order|
    ensures OwnLost(s, c, d, key)
  {
    FreshCall(s, c, key);
    UnsafeCallLoses(s.guard, key, c);
    FreshCall(Do(s, CallFor(c, key)), d, key);
  }

  /** After `c` asks for a lock it does not keep, `d` is let in beside it. */
  predicate OwnLost(s: State, c: CallId, d: CallId, key: Key) {
    && Enabled(s, CallFor(c, key))
    && var s1 := Do(s, CallFor(c, key));
       Enabled(s1, CallFor(d, key)) && TwoPeeking(Do(s1, CallFor(d, key)), c, d)
  }

  /** A call for a key without a lock is let in at once, and touches no other call and no other lock. */
  lemma FreshCall(s: State, c: CallId, key: Key)
    requires c in s.calls && s.calls[c].New? && key !in s.guard.locks
    ensures var s', id := Do(s, CallFor(c, key)), |s.guard.heap|;
            && s'.calls == s.calls[c := Peeking(key, id)]
            && s'.guard.heap == s.guard.heap + [Mutex(key, Some(c), [])]
  {
    InsertLocksNothing(s.guard, key);
  }

  /** Otherwise it is a lock between its release and its next holder. */
  lemma WaiterOfVictim(s: State, key: Key) returns (w: CallId)
    requires LocksFit(s) && !SafeFor(s.guard, key)
    requires FirstUnlocked(s.guard, s.guard.order) < |s.guard.order|
    ensures Enabled(s, WakeUp(w)) && s.calls[w].key == LostKey(s.guard, key)
    ensures s.guard.locks[s.calls[w].key] == s.calls[w].lock
  {
    var g := s.guard;
    LostIsHandedOver(g, key);
    var id := g.locks[LostKey(g, key)];
    w := g.heap[id].waiters[0];
    var roles := RolesIn(SeatsOf(s.calls));
    assert Matches(g.heap[id], id, roles) && w in g.heap[id].waiters;
    assert RoleOf(roles, w) == Waits(id);
    assert w in s.calls && SeatOf(s.calls[w]).role == Waits(id);
    assert Fits(g, SeatsOf(s.calls)[w]);
  }

  lemma VictimGetsTwoLocks(s: State, c: CallId, d: CallId, w: CallId, key: Key)
    requires LocksFit(s) && c in s.calls && d in s.calls && c != d && s.calls[c].New? && s.calls[d].New?
    requires !SafeFor(s.guard, key) && FirstUnlocked(s.guard, s.guard.order) < |s.guard.order|
    requires Enabled(s, WakeUp(w)) && s.calls[w].key == LostKey(s.guard, key)
    ensures VictimLost(s, c, d, w, key, s.calls[w].key)
  {
    FreshCall(s, c, key);
    UnsafeCallLoses(s.guard, key, c);
    FreshCall(Do(s, CallFor(c, key)), d, s.calls[w].key);
  }

  /** After `c` pushes the lock of `k` out, `d` and the waiter `w` are both let in. */
  predicate VictimLost(s: State, c: CallId, d: CallId, w: CallId, key: Key, k: Key) {
    && Enabled(s, CallFor(c, key))
    && var s1 := Do(s, CallFor(c, key));
       && Enabled(s1, CallFor(d, k))
       && var s2 := Do(s1, CallFor(d, k));
          Enabled(s2, WakeUp(w)) && w != d && TwoPeeking(Do(s2, WakeUp(w)), w, d)
  }

  ghost predicate Ready(states: seq<State>, steps: seq<Step>, c: CallId, d: CallId, key: Key) {
    && IsRun(states, steps) && c != d
    && var s := Last(states);
       && !SafeFor(s.guard, key)
       && c in s.calls && s.calls[c].New? && d in s.calls && s.calls[d].New?
  }

  lemma WaiterLockLost(states: seq<State>, steps: seq<Step>, c: CallId, d: CallId, key: Key) returns (w: CallId, k: Key)
    requires Ready(states, steps, c, d, key)
    requires FirstUnlocked(Last(states).guard, Last(states).guard.order) < |Last(states).guard.order|
    ensures VictimLost(Last(states), c, d, w, key, k)
  {
    RunKeepsLocks(states, steps, |states| - 1);
    w := WaiterOfVictim(Last(states), key);
    k := Last(states).calls[w].key;
    VictimGetsTwoLocks(Last(states), c, d, w, key);
  }

  lemma OwnLockLostRun(states: seq<State>, steps: seq<Step>, c: CallId, d: CallId, key: Key)
    returns (states': seq<State>, steps': seq<Step>)
    requires Ready(states, steps, c, d, key)
    requires FirstUnlocked(Last(states).guard, Last(states).guard.order) == |Last(states).guard.order|
    ensures IsRun(states', steps') && states <= states' && steps + [CallFor(c, key)] <= steps'
    ensures TwoComputes(Last(states'))
  {
    var s := Last(states);
    assert OwnLost(s, c, d, key) by {
      RunKeepsLocks(states, steps, |states| - 1);
      OwnLockLost(s, c, d, key);
    }
    states', steps' := Append(states, steps, CallFor(c, key));
    states', steps' := Append(states', steps', CallFor(d, key));
    states', steps' := BothCompute(states', steps', c, d);
  }

  lemma WaiterLockLostRun(states: seq<State>, steps: seq<Step>, c: CallId, d: CallId, key: Key)
    returns (states': seq<State>, steps': seq<Step>)
    requires Ready(states, steps, c, d, key)
    requires FirstUnlocked(Last(states).guard, Last(states).guard.order) < |Last(states).guard.order|
    ensures IsRun(states', steps') && states <= states' && steps + [CallFor(c, key)] <= steps'
    ensures TwoComputes(Last(states'))
  {
    var s := Last(states);
    var w, k := WaiterLockLost(states, steps, c, d, key);
    states', steps' := Append(states, steps, CallFor(c, key));
    states', steps' := Append(states', steps', CallFor(d, k));
    states', steps' := Append(states', steps', WakeUp(w));
    states', steps' := BothCompute(states', steps', w, d);
  }

  /**
   The condition is exact: from any state of any run, one unsafe call and one more caller lead to
   two computes of one key in flight.
   */
  lemma UnsafeCallBreaksFlight(states: seq<State>, steps: seq<Step>, c: CallId, d: CallId, key: Key)
    returns (states': seq<State>, steps': seq<Step>)
    requires Ready(states, steps, c, d, key)
    ensures IsRun(states', steps') && states <= states' && steps + [CallFor(c, key)] <= steps'
    ensures TwoComputes(Last(states'))
  {
    if FirstUnlocked(Last(states).guard, Last(states).guard.order) == |Last(states).guard.order| {
      states', steps' := OwnLockLostRun(states, steps, c, d, key);
    } else {
      states', steps' := WaiterLockLostRun(states, steps, c, d, key);
    }
  }

  // ---- Both parts of the bound of `FewBusyKeysAreSafe` are needed, and both failures are reached ----

  function Callers(n: nat): (calls: map<CallId, Phase>)
    ensures forall c: CallId :: c in calls <==> c < n
    ensures forall c :: c in calls ==> calls[c] == New
  {
    if n == 0 then map[] else Callers(n - 1)[n - 1 := New]
  }

  /** A run in which every call is safe. */
  ghost predicate IsSafeRun(states: seq<State>, steps: seq<Step>) {
    IsRun(states, steps) && SafeUpTo(states, steps, |steps|)
  }

  lemma AppendSafe(states: seq<State>, steps: seq<Step>, step: Step) returns (states': seq<State>, steps': seq<Step>)
    requires IsSafeRun(states, steps) && Enabled(Last(states), step) && SafeStep(Last(states), step)
    ensures IsSafeRun(states', steps') && Last(states') == Do(Last(states), step)
  {
    states', steps' := Append(states, steps, step);
    forall i | 0 <= i < |steps'| ensures SafeStep(states'[i], steps'[i]) {
      if i < |steps| {
        assert SafeStep(states[i], steps[i]) && states'[i] == states[i];
      }
    }
  }

  /** Callers from `n` on have not called yet. */
  ghost predicate FreshFrom(s: State, n: nat) {
    forall c: CallId :: n <= c < BUDGET + 3 ==> c in s.calls && s.calls[c] == New
  }

  /** `n` keys are registered and held. */
  ghost predicate HeldState(s: State, n: nat) {
    && InOrder(s.guard) && |s.guard.heap| == n && FreshFrom(s, n)
    && (forall i :: 0 <= i < n ==> s.guard.heap[i] == Mutex(Name(i), Some(i), []))
    && forall i :: 0 <= i < n ==> i in s.calls && s.calls[i] == Peeking(Name(i), i)
  }

  lemma HeldNext(s: State, n: nat)
    requires HeldState(s, n) && n < BUDGET
    ensures Enabled(s, CallFor(n, Name(n))) && SafeFor(s.guard, Name(n)) && HeldState(Do(s, CallFor(n, Name(n))), n + 1)
  {
    NextName(s.guard, n);
  }

  lemma {:induction false} FillHeld(n: nat) returns (states: seq<State>, steps: seq<Step>)
    requires n <= BUDGET
    ensures IsSafeRun(states, steps) && HeldState(Last(states), n)
  {
    if n == 0 {
      states, steps := [State(0.0, Guard([], map[], []), Callers(BUDGET + 3), map[], [])], [];
    } else {
      states, steps := FillHeld(n - 1);
      HeldNext(Last(states), n - 1);
      states, steps := AppendSafe(states, steps, CallFor(n - 1, Name(n - 1)));
    }
  }

  /** One key is between its release and its next holder, and `n` more are registered and idle. */
  ghost predicate IdleState(s: State, n: nat) {
    && InOrder(s.guard) && |s.guard.heap| == n + 1 && FreshFrom(s, n + 2)
    && s.guard.heap[0] == Mutex(Name(0), None, [1])
    && forall i :: 1 <= i <= n ==> s.guard.heap[i] == Mutex(Name(i), None, [])
  }

  /** A second caller queues up behind the first. */
  lemma QueueUp(g: Guard)
    requires InOrder(g) && g.heap == [Mutex(Name(0), Some(0), [])]
    ensures SafeFor(g, Name(0)) && RoleAfterCall(g, Name(0)) == Waits(0)
    ensures Call(g, Name(0), 1) == g.(heap := [Mutex(Name(0), Some(0), [1])])
  {
    assert g.order == [Name(0)] && MoveToEnd(g.order, Name(0)) == g.order;
    assert Taken(g.heap[0], 1) == Mutex(Name(0), Some(0), [1]);
    assert g.heap[0 := Mutex(Name(0), Some(0), [1])] == [Mutex(Name(0), Some(0), [1])];
  }

  lemma Contended(s: State)
    requires HeldState(s, 1)
    ensures Enabled(s, CallFor(1, Name(0))) && SafeFor(s.guard, Name(0))
    ensures var s1 := Do(s, CallFor(1, Name(0))); Enabled(s1, Abort(0)) && IdleState(Do(s1, Abort(0)), 0)
  {
    assert s.guard.heap == [Mutex(Name(0), Some(0), [])];
    QueueUp(s.guard);
  }

  lemma IdleNext(s: State, n: nat)
    requires IdleState(s, n) && n + 1 < BUDGET
    ensures Enabled(s, CallFor(n + 2, Name(n + 1))) && SafeFor(s.guard, Name(n + 1))
    ensures var s1 := Do(s, CallFor(n + 2, Name(n + 1)));
            Enabled(s1, Abort(n + 2)) && IdleState(Do(s1, Abort(n + 2)), n + 1)
  {
    RegisterNext(s, n);
    AbortIdles(Do(s, CallFor(n + 2, Name(n + 1))), n);
  }

  lemma RegisterNext(s: State, n: nat)
    requires IdleState(s, n) && n + 1 < BUDGET
    ensures Enabled(s, CallFor(n + 2, Name(n + 1))) && SafeFor(s.guard, Name(n + 1))
    ensures var s1 := Do(s, CallFor(n + 2, Name(n + 1)));
            && s1.calls == s.calls[n + 2 := Peeking(Name(n + 1), n + 1)]
            && s1.guard.heap == s.guard.heap + [Mutex(Name(n + 1), Some(n + 2), [])] && InOrder(s1.guard)
  {
    NextName(s.guard, n + 2);
  }

  /** The call that registered the last name gives up. */
  lemma AbortIdles(s: State, n: nat)
    requires InOrder(s.guard) && |s.guard.heap| == n + 2 && FreshFrom(s, n + 3) && s.guard.heap[0] == Mutex(Name(0), None, [1])
    requires forall i :: 1 <= i <= n ==> s.guard.heap[i] == Mutex(Name(i), None, [])
    requires s.guard.heap[n + 1] == Mutex(Name(n + 1), Some(n + 2), [])
    requires n + 2 in s.calls && s.calls[n + 2] == Peeking(Name(n + 1), n + 1)
    ensures Enabled(s, Abort(n + 2)) && IdleState(Do(s, Abort(n + 2)), n + 1)
  {
  }

  lemma {:induction false} FillIdle(n: nat) returns (states: seq<State>, steps: seq<Step>)
    requires n < BUDGET
    ensures IsSafeRun(states, steps) && IdleState(Last(states), n)
  {
    if n == 0 {
      states, steps := FillHeld(1);
      Contended(Last(states));
      states, steps := AppendSafe(states, steps, CallFor(1, Name(0)));
      states, steps := AppendSafe(states, steps, Abort(0));
    } else {
      states, steps := FillIdle(n - 1);
      IdleNext(Last(states), n - 1);
      states, steps := AppendSafe(states, steps, CallFor(n + 1, Name(n)));
      states, steps := AppendSafe(states, steps, Abort(n + 1));
    }
  }

  ghost predicate NoHandOff(g: Guard) { forall id :: 0 <= id < |g.heap| ==> !HandOff(g.heap[id]) }

  /** A run whose first unsafe step is `n`, and in which that step leads to two computes of one key. */
  ghost predicate BreaksAt(states: seq<State>, steps: seq<Step>, n: nat) {
    && IsRun(states, steps) && n < |steps| && SafeUpTo(states, steps, n)
    && !SafeStep(states[n], steps[n]) && TwoComputes(Last(states))
  }

  /** As many busy keys as the budget break single flight, although no lock is being handed over. */
  lemma FullRegistryBreaksFlight() returns (states: seq<State>, steps: seq<Step>, n: nat)
    ensures BreaksAt(states, steps, n)
    ensures |BusyKeys(states[n].guard)| == BUDGET && NoHandOff(states[n].guard)
  {
    var before, plan := FillHeld(BUDGET);
    n := |plan|;
    var s := Last(before);
    FirstUnlockedIs(s.guard, s.guard.order, BUDGET);
    assert Name(BUDGET) !in s.guard.locks;
    states, steps := UnsafeCallBreaksFlight(before, plan, BUDGET, BUDGET + 1, Name(BUDGET));
    SafePrefix(before, plan, states, steps);
    assert states[n] == s && steps[n] == CallFor(BUDGET, Name(BUDGET));
    assert BusyKeys(s.guard) == set k | k in s.guard.order;
    assert forall i, j :: 0 <= i < j < BUDGET ==> |s.guard.order[i]| != |s.guard.order[j]|;
    DistinctSize(s.guard.order);
  }

  /** One lock being handed over breaks it too, although no other key is busy. */
  lemma HandOffEvictionBreaksFlight() returns (states: seq<State>, steps: seq<Step>, n: nat)
    ensures BreaksAt(states, steps, n)
    ensures |BusyKeys(states[n].guard)| == 1
  {
    var before, plan := FillIdle(BUDGET - 1);
    n := |plan|;
    var s := Last(before);
    assert !Locked(s.guard, s.guard.order[0]);
    FirstUnlockedIs(s.guard, s.guard.order, 0);
    assert Name(BUDGET) !in s.guard.locks && BusyKey(s.guard, Name(0));
    states, steps := UnsafeCallBreaksFlight(before, plan, BUDGET + 1, BUDGET + 2, Name(BUDGET));
    SafePrefix(before, plan, states, steps);
    assert states[n] == s && steps[n] == CallFor(BUDGET + 1, Name(BUDGET));
    assert BusyKeys(s.guard) == {Name(0)};
  }

  lemma SafePrefix(before: seq<State>, plan: seq<Step>, states: seq<State>, steps: seq<Step>)
    requires IsSafeRun(before, plan) && IsRun(states, steps) && before <= states && plan <= steps
    ensures SafeUpTo(states, steps, |plan|)
  {
    forall i | 0 <= i < |plan| ensures SafeStep(states[i], steps[i]) {
      assert SafeStep(before[i], plan[i]);
    }
  }
}
