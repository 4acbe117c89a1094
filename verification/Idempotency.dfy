/**
 Blocks on one `Idempotency` object, interleaved at every await: the double-checked replay, the
 in-process lock, the optional distributed lock, the body, the two writes and the release, with
 errors, cancellations and timeouts at every point.
 */
module Idempotency {
  import opened Options
  import opened KeyedLocks
  import opened LockProtocol

  type Fp = string
  type Value = int

  /** A stored response, with the fingerprint of the call that stored it. */
  datatype Stored = Stored(value: Value, fp: Option<Fp>, expiry: real)

  /** The fingerprint entry kept beside it. */
  datatype Mark = Mark(fp: Fp, expiry: real)

  datatype Outcome = Replayed(stored: Stored) | Executed | Raised

  /** `dist`: the distributed lock is held too. `retry`: a failing release is tried once more. */
  datatype Phase =
    | First
    | FirstMark(found: Stored)
    | Asking
    | Queued(lock: LockId)
    | Look(lock: LockId, dist: bool)
    | LookMark(lock: LockId, dist: bool, found: Stored)
    | Acquiring(lock: LockId)
    | Body(lock: LockId, dist: bool, missedAt: real)
    | Marking(lock: LockId, dist: bool, missedAt: real, value: Value)
    | Storing(lock: LockId, dist: bool, missedAt: real, value: Value, markedAt: Option<real>)
    | Releasing(local: Option<LockId>, dist: bool, outcome: Outcome, retry: bool)
    | Done(outcome: Outcome)

  /** The counters record how often the block took and gave back the in-process lock. */
  datatype Block = Block(key: Key, fp: Option<Fp>, phase: Phase, acquired: nat, released: nat)

  datatype Replay = Replay(key: Key, fp: Option<Fp>, stored: Stored, at: real)

  datatype State = State(now: real, guard: Guard, blocks: map<CallId, Block>,
                         responses: map<Key, Stored>, marks: map<Key, Mark>, replays: seq<Replay>)

  datatype Step =
    | Tick(now: real)
    | ReadFirst(c: CallId)
    | ReadMark(c: CallId)
    | AskLock(c: CallId)
    | WakeUp(c: CallId)
    | ReadLocked(c: CallId, useDist: bool)
    | DistLocked(c: CallId)
    | EndBody(c: CallId, ok: bool, value: Option<Value>)
    | WriteMark(c: CallId)
    | WriteResponse(c: CallId)
    | Interrupt(c: CallId)
    | Release(c: CallId, distOk: bool)

  predicate LiveAt(s: State, k: Key) { k in s.responses && s.now < s.responses[k].expiry }

  /** The fingerprint read finds a live entry that differs. */
  predicate Conflicts(s: State, b: Block) {
    && b.fp.Some? && b.key in s.marks
    && s.now < s.marks[b.key].expiry && s.marks[b.key].fp != b.fp.value
  }

  predicate Owns(p: Phase) {
    p.Look? || p.LookMark? || p.Acquiring? || p.Body? || p.Marking? || p.Storing?
  }

  predicate HasDist(p: Phase)
    requires Owns(p)
  {
    !p.Acquiring? && p.dist
  }

  predicate Executing(p: Phase) { p.Body? || p.Marking? || p.Storing? }

  predicate Enabled(s: State, step: Step) {
    if step.Tick? then s.now <= step.now
    else
      step.c in s.blocks &&
      var p := s.blocks[step.c].phase;
      match step
      case Tick(_) => true
      case ReadFirst(_) => p.First?
      case ReadMark(_) => p.FirstMark? || (p.LookMark? && p.lock < |s.guard.heap|)
      case AskLock(_) => p.Asking?
      case WakeUp(c) =>
        && p.Queued? && p.lock < |s.guard.heap| && HandOff(s.guard.heap[p.lock])
        && s.guard.heap[p.lock].waiters[0] == c
      case ReadLocked(_, _) => p.Look? && p.lock < |s.guard.heap|
      case DistLocked(_) => p.Acquiring?
      case EndBody(_, _, _) => p.Body?
      case WriteMark(_) => p.Marking?
      case WriteResponse(_) => p.Storing?
      case Interrupt(_) => !p.Done? && !p.Releasing? && (p.Queued? ==> p.lock < |s.guard.heap|)
      case Release(_, _) => p.Releasing? && (p.local.Some? ==> p.local.value < |s.guard.heap|)
  }

  function Go(s: State, c: CallId, p: Phase): (s': State)
    requires c in s.blocks
    ensures s'.blocks.Keys == s.blocks.Keys
  {
    s.(blocks := s.blocks[c := s.blocks[c].(phase := p)])
  }

  /** Give the in-process lock back and go on. */
  function FreeAndGo(s: State, c: CallId, id: LockId, p: Phase): (s': State)
    requires c in s.blocks && id < |s.guard.heap|
    ensures s'.blocks.Keys == s.blocks.Keys
  {
    s.(guard := ReleaseLock(s.guard, id),
       blocks := s.blocks[c := s.blocks[c].(phase := p, released := s.blocks[c].released + 1)])
  }

  function Join(s: State, c: CallId, g: Guard, r: Role): (s': State)
    requires c in s.blocks && !r.Away?
    ensures s'.blocks.Keys == s.blocks.Keys
  {
    var b := s.blocks[c];
    var b' := if r.Waits? then b.(phase := Queued(r.lock)) else b.(phase := Look(r.lock, false), acquired := b.acquired + 1);
    s.(guard := g, blocks := s.blocks[c := b'])
  }

  function Note(s: State, b: Block, found: Stored): State {
    s.(replays := s.replays + [Replay(b.key, b.fp, found, s.now)])
  }

  /** A replay found while owning the locks: free the local one, or release both in order. */
  function ReplayOwned(s: State, c: CallId, lock: LockId, dist: bool, found: Stored): (s': State)
    requires c in s.blocks && lock < |s.guard.heap|
    ensures s'.blocks.Keys == s.blocks.Keys
  {
    var noted := Note(s, s.blocks[c], found);
    if dist then Go(noted, c, Releasing(Some(lock), true, Replayed(found), true))
    else FreeAndGo(noted, c, lock, Done(Replayed(found)))
  }

  function DoRead(s: State, step: Step): (s': State)
    requires Enabled(s, step) && (step.ReadFirst? || step.ReadMark? || step.ReadLocked?)
    ensures s'.blocks.Keys == s.blocks.Keys
  {
    var b := s.blocks[step.c];
    var p := b.phase;
    match step
    case ReadFirst(c) =>
      if !LiveAt(s, b.key) then Go(s, c, Asking)
      else if b.fp.Some? then Go(s, c, FirstMark(s.responses[b.key]))
      else Go(Note(s, b, s.responses[b.key]), c, Done(Replayed(s.responses[b.key])))
    case ReadMark(c) =>
      if p.FirstMark? then
        if Conflicts(s, b) then Go(s, c, Done(Raised)) else Go(Note(s, b, p.found), c, Done(Replayed(p.found)))
      else if Conflicts(s, b) then Go(s, c, Releasing(Some(p.lock), p.dist, Raised, false))
      else ReplayOwned(s, c, p.lock, p.dist, p.found)
    case ReadLocked(c, useDist) =>
      if LiveAt(s, b.key) then
        if b.fp.Some? then Go(s, c, LookMark(p.lock, p.dist, s.responses[b.key]))
        else ReplayOwned(s, c, p.lock, p.dist, s.responses[b.key])
      else if useDist && !p.dist then Go(s, c, Acquiring(p.lock))
      else Go(s, c, Body(p.lock, p.dist, s.now))
    case _ => s
  }

  /** `_release`: the distributed lock first, the in-process one in any case. */
  function DoRelease(s: State, c: CallId, distOk: bool): (s': State)
    requires Enabled(s, Release(c, distOk))
    ensures s'.blocks.Keys == s.blocks.Keys
  {
    var p := s.blocks[c].phase;
    var next :=
      if !p.dist || distOk then Done(p.outcome)
      else if p.retry then Releasing(None, true, Raised, false)
      else Done(Raised);
    if p.local.Some? then FreeAndGo(s, c, p.local.value, next) else Go(s, c, next)
  }

  function DoInterrupt(s: State, c: CallId): (s': State)
    requires Enabled(s, Interrupt(c))
    ensures s'.blocks.Keys == s.blocks.Keys
  {
    var p := s.blocks[c].phase;
    if p.Queued? then Go(s.(guard := CancelWait(s.guard, p.lock, c)), c, Done(Raised))
    else if Owns(p) then Go(s, c, Releasing(Some(p.lock), HasDist(p), Raised, false))
    else Go(s, c, Done(Raised))
  }

  function DoExecute(ttl: real, s: State, step: Step): (s': State)
    requires Enabled(s, step) && (step.EndBody? || step.WriteMark? || step.WriteResponse?)
    ensures s'.blocks.Keys == s.blocks.Keys
  {
    var b := s.blocks[step.c];
    var p := b.phase;
    match step
    case EndBody(c, ok, value) =>
      if !ok then Go(s, c, Releasing(Some(p.lock), p.dist, Raised, false))
      else if value.None? then Go(s, c, Releasing(Some(p.lock), p.dist, Executed, false))
      else if b.fp.Some? then Go(s, c, Marking(p.lock, p.dist, p.missedAt, value.value))
      else Go(s, c, Storing(p.lock, p.dist, p.missedAt, value.value, None))
    case WriteMark(c) =>
      var marked := if b.fp.Some? then s.(marks := s.marks[b.key := Mark(b.fp.value, s.now + ttl + 1.0)]) else s;
      Go(marked, c, Storing(p.lock, p.dist, p.missedAt, p.value, Some(s.now)))
    case WriteResponse(c) =>
      var stored := s.(responses := s.responses[b.key := Stored(p.value, b.fp, s.now + ttl)]);
      Go(stored, c, Releasing(Some(p.lock), p.dist, Executed, false))
    case _ => s
  }

  function Do(ttl: real, s: State, step: Step): (s': State)
    requires Enabled(s, step)
    ensures s'.blocks.Keys == s.blocks.Keys
  {
    match step
    case Tick(now) => s.(now := now)
    case AskLock(c) =>
      var key := s.blocks[c].key;
      Join(s, c, Call(s.guard, key, c), RoleAfterCall(s.guard, key))
    case WakeUp(c) => Join(s, c, Wake(s.guard, s.blocks[c].phase.lock), Holds(s.blocks[c].phase.lock))
    case DistLocked(c) => Go(s, c, Look(s.blocks[c].phase.lock, true))
    case Interrupt(c) => DoInterrupt(s, c)
    case Release(c, distOk) => DoRelease(s, c, distOk)
    case ReadFirst(_) => DoRead(s, step)
    case ReadMark(_) => DoRead(s, step)
    case ReadLocked(_, _) => DoRead(s, step)
    case _ => DoExecute(ttl, s, step)
  }

  predicate Init(s: State) {
    && s.guard == Guard([], map[], []) && s.replays == [] && s.responses == map[] && s.marks == map[]
    && forall c :: c in s.blocks ==> s.blocks[c].phase.First? && s.blocks[c].acquired == 0 == s.blocks[c].released
  }

  ghost predicate IsRun(ttl: real, states: seq<State>, steps: seq<Step>) {
    && ttl > 0.0 && |states| == |steps| + 1
    && Init(states[0])
    && forall i :: 0 <= i < |steps| ==> Enabled(states[i], steps[i]) && states[i + 1] == Do(ttl, states[i], steps[i])
  }

  /** A request for a lock pushes no busy lock out of the registry. */
  predicate SafeStep(s: State, step: Step) {
    step.AskLock? && step.c in s.blocks ==> SafeFor(s.guard, s.blocks[step.c].key)
  }

  ghost predicate SafeUpTo(states: seq<State>, steps: seq<Step>, k: nat)
    requires k <= |steps| < |states|
  {
    forall i :: 0 <= i < k ==> SafeStep(states[i], steps[i])
  }

  // ---- The lock side ----

  function SeatOf(b: Block): Seat {
    var p := b.phase;
    if Owns(p) then Seat(Holds(p.lock), b.key)
    else if p.Queued? then Seat(Waits(p.lock), b.key)
    else if p.Releasing? && p.local.Some? then Seat(Holds(p.local.value), b.key)
    else Seat(Away, b.key)
  }

  function SeatsOf(blocks: map<CallId, Block>): Seats { map c | c in blocks :: SeatOf(blocks[c]) }

  ghost predicate LocksFit(s: State) { SeatsFit(s.guard, SeatsOf(s.blocks)) }

  lemma SeatsAfter(blocks: map<CallId, Block>, c: CallId, b: Block)
    ensures SeatsOf(blocks[c := b]) == SeatsOf(blocks)[c := SeatOf(b)]
  {
  }

  /** How a step can touch the locks. */
  datatype Touch = Keeps | Frees(lock: LockId) | Leaves(lock: LockId)

  predicate Touches(s: State, s': State, c: CallId, t: Touch)
    requires c in s.blocks
  {
    && c in s'.blocks && s'.blocks == s.blocks[c := s'.blocks[c]] && s'.blocks[c].key == s.blocks[c].key
    && var seat, seat' := SeatOf(s.blocks[c]), SeatOf(s'.blocks[c]);
       match t
       case Keeps => s'.guard == s.guard && seat' == seat
       case Frees(id) =>
         id < |s.guard.heap| && s'.guard == ReleaseLock(s.guard, id) && seat.role == Holds(id) && seat'.role.Away?
       case Leaves(id) =>
         id < |s.guard.heap| && s'.guard == CancelWait(s.guard, id, c) && seat.role == Waits(id) && seat'.role.Away?
  }

  function TouchOf(s: State, step: Step): Touch
    requires Enabled(s, step) && !step.Tick?
  {
    var b := s.blocks[step.c];
    var p := b.phase;
    match step
    case ReadMark(_) => if p.LookMark? && !p.dist && !Conflicts(s, b) then Frees(p.lock) else Keeps
    case ReadLocked(_, _) => if LiveAt(s, b.key) && b.fp.None? && !p.dist then Frees(p.lock) else Keeps
    case Interrupt(_) => if p.Queued? then Leaves(p.lock) else Keeps
    case Release(_, _) => if p.local.Some? then Frees(p.local.value) else Keeps
    case _ => Keeps
  }

  lemma ReadTouches(s: State, step: Step)
    requires Enabled(s, step) && (step.ReadFirst? || step.ReadMark? || step.ReadLocked?)
    ensures Touches(s, DoRead(s, step), step.c, TouchOf(s, step))
  {
    assert s.blocks[step.c := DoRead(s, step).blocks[step.c]] == DoRead(s, step).blocks;
  }

  lemma ExecuteTouches(ttl: real, s: State, step: Step)
    requires Enabled(s, step) && (step.EndBody? || step.WriteMark? || step.WriteResponse?)
    ensures Touches(s, DoExecute(ttl, s, step), step.c, Keeps)
  {
    assert s.blocks[step.c := DoExecute(ttl, s, step).blocks[step.c]] == DoExecute(ttl, s, step).blocks;
  }

  lemma LeaveTouches(s: State, step: Step)
    requires Enabled(s, step) && (step.Interrupt? || step.Release?)
    ensures var s' := if step.Interrupt? then DoInterrupt(s, step.c) else DoRelease(s, step.c, step.distOk);
            Touches(s, s', step.c, TouchOf(s, step))
  {
  }

  lemma StepTouches(ttl: real, s: State, step: Step)
    requires Enabled(s, step) && !step.Tick? && !step.AskLock? && !step.WakeUp?
    ensures Touches(s, Do(ttl, s, step), step.c, TouchOf(s, step))
  {
    if step.ReadFirst? || step.ReadMark? || step.ReadLocked? {
      ReadTouches(s, step);
    } else if step.Interrupt? || step.Release? {
      LeaveTouches(s, step);
    } else if !step.DistLocked? {
      ExecuteTouches(ttl, s, step);
    }
  }

  /** The seats after a touch: the acting block keeps or leaves its seat. */
  lemma SeatsAfterTouch(s: State, s': State, c: CallId, t: Touch)
    requires c in s.blocks && Touches(s, s', c, t)
    ensures SeatsOf(s'.blocks) == (if t.Keeps? then SeatsOf(s.blocks)
                                   else SeatsOf(s.blocks)[c := Seat(Away, SeatsOf(s.blocks)[c].key)])
    ensures SeatsOf(s.blocks)[c] == SeatOf(s.blocks[c])
  {
    SeatsAfter(s.blocks, c, s'.blocks[c]);
  }

  lemma TouchKeepsLocks(s: State, s': State, c: CallId, t: Touch)
    requires LocksFit(s) && c in s.blocks && Touches(s, s', c, t)
    ensures LocksFit(s') && (BusyRegistered(s.guard) ==> BusyRegistered(s'.guard))
    ensures t.Frees? ==> s.guard.heap[t.lock].holder == Some(c)
  {
    SeatsAfterTouch(s, s', c, t);
    LeaveSeat(s.guard, SeatsOf(s.blocks), c, t);
  }

  lemma LeaveSeat(g: Guard, seats: Seats, c: CallId, t: Touch)
    requires SeatsFit(g, seats) && c in seats
    requires t.Frees? ==> seats[c].role == Holds(t.lock)
    requires t.Leaves? ==> seats[c].role == Waits(t.lock)
    ensures !t.Keeps? ==> t.lock < |g.heap|
    ensures t.Frees? ==> g.heap[t.lock].holder == Some(c)
    ensures t.Frees? ==> SeatsFit(ReleaseLock(g, t.lock), seats[c := Seat(Away, seats[c].key)])
    ensures t.Leaves? ==> SeatsFit(CancelWait(g, t.lock, c), seats[c := Seat(Away, seats[c].key)])
    ensures BusyRegistered(g) && t.Frees? ==> BusyRegistered(ReleaseLock(g, t.lock))
    ensures BusyRegistered(g) && t.Leaves? ==> BusyRegistered(CancelWait(g, t.lock, c))
  {
    assert Fits(g, seats[c]);
    if t.Frees? {
      SeatRelease(g, seats, c);
    } else if t.Leaves? {
      SeatCancel(g, seats, c);
    }
  }

  lemma JoinKeepsLocks(s: State, c: CallId, g: Guard, r: Role)
    requires c in s.blocks && !r.Away? && SeatsFit(g, SeatsOf(s.blocks)[c := Seat(r, s.blocks[c].key)])
    ensures LocksFit(Join(s, c, g, r))
  {
    SeatsAfter(s.blocks, c, Join(s, c, g, r).blocks[c]);
  }

  lemma AskKeepsLocks(s: State, c: CallId)
    requires LocksFit(s) && c in s.blocks && s.blocks[c].phase.Asking?
    ensures LocksFit(Join(s, c, Call(s.guard, s.blocks[c].key, c), RoleAfterCall(s.guard, s.blocks[c].key)))
    ensures BusyRegistered(s.guard) ==>
              (SafeFor(s.guard, s.blocks[c].key) <==> BusyRegistered(Call(s.guard, s.blocks[c].key, c)))
  {
    SeatCall(s.guard, SeatsOf(s.blocks), c, s.blocks[c].key);
    JoinKeepsLocks(s, c, Call(s.guard, s.blocks[c].key, c), RoleAfterCall(s.guard, s.blocks[c].key));
  }

  lemma WakeKeepsLocks(s: State, c: CallId)
    requires LocksFit(s) && Enabled(s, WakeUp(c))
    ensures LocksFit(Join(s, c, Wake(s.guard, s.blocks[c].phase.lock), Holds(s.blocks[c].phase.lock)))
    ensures BusyRegistered(s.guard) ==> BusyRegistered(Wake(s.guard, s.blocks[c].phase.lock))
  {
    var seats, id := SeatsOf(s.blocks), s.blocks[c].phase.lock;
    assert seats[c] == Seat(Waits(id), s.blocks[c].key) && Fits(s.guard, seats[c]);
    SeatWake(s.guard, seats, c);
    JoinKeepsLocks(s, c, Wake(s.guard, id), Holds(id));
  }

  lemma StepKeepsLocks(ttl: real, s: State, step: Step)
    requires LocksFit(s) && Enabled(s, step)
    ensures LocksFit(Do(ttl, s, step))
    ensures BusyRegistered(s.guard) ==> (SafeStep(s, step) <==> BusyRegistered(Do(ttl, s, step).guard))
  {
    if step.AskLock? {
      AskKeepsLocks(s, step.c);
    } else if step.WakeUp? {
      WakeKeepsLocks(s, step.c);
    } else if !step.Tick? {
      StepTouches(ttl, s, step);
      TouchKeepsLocks(s, Do(ttl, s, step), step.c, TouchOf(s, step));
    }
  }

  lemma InitFits(s: State)
    requires Init(s)
    ensures LocksFit(s) && BusyRegistered(s.guard)
  {
    assert RolesMatch(s.guard, RolesIn(SeatsOf(s.blocks)));
  }

  /** Blocks and locks agree in every run whatsoever. */
  lemma {:induction false} RunKeepsLocks(ttl: real, states: seq<State>, steps: seq<Step>, k: nat)
    requires IsRun(ttl, states, steps) && k < |states|
    ensures LocksFit(states[k])
    decreases k
  {
    if k == 0 {
      InitFits(states[0]);
    } else {
      RunKeepsLocks(ttl, states, steps, k - 1);
      StepKeepsLocks(ttl, states[k - 1], steps[k - 1]);
    }
  }

  ghost predicate RegisteredUpTo(states: seq<State>, k: nat)
    requires k < |states|
  {
    forall j :: 0 <= j <= k ==> BusyRegistered(states[j].guard)
  }

  /** Every busy lock can be found under its key in all states so far exactly when every request so far was safe. */
  lemma {:induction false} RegisteredExactly(ttl: real, states: seq<State>, steps: seq<Step>, k: nat)
    requires IsRun(ttl, states, steps) && k < |states|
    ensures RegisteredUpTo(states, k) <==> SafeUpTo(states, steps, k)
    decreases k
  {
    if k > 0 {
      RegisteredExactly(ttl, states, steps, k - 1);
      RunKeepsLocks(ttl, states, steps, k - 1);
      StepKeepsLocks(ttl, states[k - 1], steps[k - 1]);
      assert RegisteredUpTo(states, k) <==> RegisteredUpTo(states, k - 1) && BusyRegistered(states[k].guard);
      assert SafeUpTo(states, steps, k) <==> SafeUpTo(states, steps, k - 1) && SafeStep(states[k - 1], steps[k - 1]);
    }
  }

  // ---- The counters ----

  predicate CountersFine(b: Block) {
    if SeatOf(b).role.Holds? then b.acquired == 1 && b.released == 0
    else if b.phase.Done? || b.phase.Releasing? then b.acquired == b.released <= 1
    else b.acquired == 0 == b.released
  }

  lemma ReaderCounts(s: State, step: Step)
    requires Enabled(s, step) && (step.ReadFirst? || step.ReadMark? || step.ReadLocked?)
    requires CountersFine(s.blocks[step.c])
    ensures CountersFine(DoRead(s, step).blocks[step.c])
  {
    var b := s.blocks[step.c];
    if step.ReadMark? && b.phase.LookMark? {
      OwnerCounts(s, step.c, b.phase.lock, b.phase.dist, b.phase.found);
    } else if step.ReadLocked? && LiveAt(s, b.key) {
      OwnerCounts(s, step.c, b.phase.lock, b.phase.dist, s.responses[b.key]);
    }
  }

  lemma OwnerCounts(s: State, c: CallId, lock: LockId, dist: bool, found: Stored)
    requires c in s.blocks && lock < |s.guard.heap| && SeatOf(s.blocks[c]).role == Holds(lock)
    requires CountersFine(s.blocks[c])
    ensures CountersFine(ReplayOwned(s, c, lock, dist, found).blocks[c])
  {
  }

  lemma LeaverCounts(ttl: real, s: State, step: Step)
    requires Enabled(s, step) && (step.Interrupt? || step.Release?) && CountersFine(s.blocks[step.c])
    ensures CountersFine(Do(ttl, s, step).blocks[step.c])
  {
  }

  lemma StepCounts(ttl: real, s: State, step: Step)
    requires Enabled(s, step) && !step.Tick? && CountersFine(s.blocks[step.c])
    ensures CountersFine(Do(ttl, s, step).blocks[step.c])
  {
    if step.ReadFirst? || step.ReadMark? || step.ReadLocked? {
      ReaderCounts(s, step);
    } else if step.Interrupt? || step.Release? {
      LeaverCounts(ttl, s, step);
    }
  }

  lemma {:induction false} RunCounts(ttl: real, states: seq<State>, steps: seq<Step>, k: nat, c: CallId)
    requires IsRun(ttl, states, steps) && k < |states| && c in states[k].blocks
    ensures CountersFine(states[k].blocks[c])
    decreases k
  {
    if k > 0 {
      RunCounts(ttl, states, steps, k - 1, c);
      AnyCounts(ttl, states[k - 1], steps[k - 1], c);
    }
  }

  lemma AnyCounts(ttl: real, s: State, step: Step, c: CallId)
    requires Enabled(s, step) && c in s.blocks && CountersFine(s.blocks[c])
    ensures CountersFine(Do(ttl, s, step).blocks[c])
  {
    if !step.Tick? {
      Frame(ttl, s, step);
      if c == step.c {
        StepCounts(ttl, s, step);
      }
    }
  }

  // ---- The data side ----

  /** A response read earlier is still the stored one until it lapses. */
  predicate FoundFine(s: State, key: Key, found: Stored) {
    s.now < found.expiry ==> key in s.responses && s.responses[key] == found
  }

  predicate BlockFine(ttl: real, s: State, b: Block) {
    && (b.phase.FirstMark? || b.phase.LookMark? ==> b.fp.Some? && FoundFine(s, b.key, b.phase.found))
    && (Executing(b.phase) ==>
          && b.phase.missedAt <= s.now
          && (b.key in s.responses ==> s.responses[b.key].expiry <= b.phase.missedAt))
    && (b.phase.Marking? ==> b.fp.Some?)
    && (b.phase.Storing? ==>
          && b.fp.Some? == b.phase.markedAt.Some?
          && (b.fp.Some? ==>
                && b.key in s.marks
                && s.marks[b.key] == Mark(b.fp.value, b.phase.markedAt.value + ttl + 1.0)))
  }

  ghost predicate Inv(ttl: real, s: State) {
    && LocksFit(s) && BusyRegistered(s.guard)
    && (forall c :: c in s.blocks ==> BlockFine(ttl, s, s.blocks[c]))
  }

  lemma OneExecutor(ttl: real, s: State, c: CallId, d: CallId)
    requires Inv(ttl, s) && c in s.blocks && d in s.blocks && s.blocks[c].key == s.blocks[d].key
    requires Owns(s.blocks[c].phase) && Owns(s.blocks[d].phase)
    ensures c == d
  {
    OneSeatHolds(s.guard, SeatsOf(s.blocks), c, d);
  }

  /** Block `c` alone moves, under its own key and fingerprint, and the clock stands still. */
  predicate Framed(s: State, s': State, c: CallId)
    requires c in s.blocks && s'.blocks.Keys == s.blocks.Keys
  {
    && s'.now == s.now
    && s'.blocks[c].key == s.blocks[c].key && s'.blocks[c].fp == s.blocks[c].fp
    && forall d :: d in s.blocks && d != c ==> s'.blocks[d] == s.blocks[d]
  }

  lemma ReadFrame(s: State, step: Step)
    requires Enabled(s, step) && (step.ReadFirst? || step.ReadMark? || step.ReadLocked?)
    ensures var s' := DoRead(s, step);
            Framed(s, s', step.c) && s'.responses == s.responses && s'.marks == s.marks
  {
    var b := s.blocks[step.c];
    if step.ReadMark? && !b.phase.FirstMark? {
      ReplayFrame(s, step.c, b.phase.lock, b.phase.dist, b.phase.found);
    } else if step.ReadLocked? && LiveAt(s, b.key) {
      ReplayFrame(s, step.c, b.phase.lock, b.phase.dist, s.responses[b.key]);
    }
  }

  lemma ReplayFrame(s: State, c: CallId, lock: LockId, dist: bool, found: Stored)
    requires c in s.blocks && lock < |s.guard.heap|
    ensures var s' := ReplayOwned(s, c, lock, dist, found);
            Framed(s, s', c) && s'.responses == s.responses && s'.marks == s.marks
  {
  }

  lemma ExecuteFrame(ttl: real, s: State, step: Step)
    requires Enabled(s, step) && (step.EndBody? || step.WriteMark? || step.WriteResponse?)
    ensures var s' := DoExecute(ttl, s, step);
            && Framed(s, s', step.c)
            && (!step.WriteResponse? ==> s'.responses == s.responses)
            && (!step.WriteMark? ==> s'.marks == s.marks)
  {
  }

  /** Only the two writes of an execution change what is stored. */
  lemma Frame(ttl: real, s: State, step: Step)
    requires Enabled(s, step) && !step.Tick?
    ensures var s' := Do(ttl, s, step);
            && Framed(s, s', step.c)
            && (!step.WriteResponse? ==> s'.responses == s.responses)
            && (!step.WriteMark? ==> s'.marks == s.marks)
  {
    if step.ReadFirst? || step.ReadMark? || step.ReadLocked? {
      ReadFrame(s, step);
    } else if step.EndBody? || step.WriteMark? || step.WriteResponse? {
      ExecuteFrame(ttl, s, step);
    }
  }

  lemma OthersStayFine(ttl: real, s: State, step: Step, d: CallId)
    requires Inv(ttl, s) && Enabled(s, step) && !step.Tick? && d in s.blocks && d != step.c
    ensures BlockFine(ttl, Do(ttl, s, step), s.blocks[d])
  {
    Frame(ttl, s, step);
    var b := s.blocks[step.c];
    assert BlockFine(ttl, s, s.blocks[d]) && BlockFine(ttl, s, b);
    if (step.WriteMark? || step.WriteResponse?) && s.blocks[d].key == b.key && Executing(s.blocks[d].phase) {
      OneExecutor(ttl, s, step.c, d);
    }
  }

  lemma MarkReaderStaysFine(ttl: real, s: State, c: CallId)
    requires Enabled(s, ReadMark(c)) && BlockFine(ttl, s, s.blocks[c])
    ensures BlockFine(ttl, DoRead(s, ReadMark(c)), DoRead(s, ReadMark(c)).blocks[c])
  {
  }

  lemma LockedReaderStaysFine(ttl: real, s: State, c: CallId, useDist: bool)
    requires Enabled(s, ReadLocked(c, useDist)) && BlockFine(ttl, s, s.blocks[c])
    ensures BlockFine(ttl, DoRead(s, ReadLocked(c, useDist)), DoRead(s, ReadLocked(c, useDist)).blocks[c])
  {
  }

  lemma ReaderStaysFine(ttl: real, s: State, step: Step)
    requires Enabled(s, step) && (step.ReadFirst? || step.ReadMark? || step.ReadLocked?)
    requires BlockFine(ttl, s, s.blocks[step.c])
    ensures BlockFine(ttl, DoRead(s, step), DoRead(s, step).blocks[step.c])
  {
    match step {
      case ReadFirst(_) =>
      case ReadMark(c) => MarkReaderStaysFine(ttl, s, c);
      case ReadLocked(c, useDist) => LockedReaderStaysFine(ttl, s, c, useDist);
    }
  }

  lemma ExecutorStaysFine(ttl: real, s: State, step: Step)
    requires Enabled(s, step) && (step.EndBody? || step.WriteMark? || step.WriteResponse?)
    requires BlockFine(ttl, s, s.blocks[step.c])
    ensures BlockFine(ttl, DoExecute(ttl, s, step), DoExecute(ttl, s, step).blocks[step.c])
  {
  }

  lemma LeaverStaysFine(ttl: real, s: State, step: Step)
    requires Enabled(s, step) && (step.Interrupt? || step.Release?)
    requires BlockFine(ttl, s, s.blocks[step.c])
    ensures var s' := if step.Interrupt? then DoInterrupt(s, step.c) else DoRelease(s, step.c, step.distOk);
            BlockFine(ttl, s', s'.blocks[step.c])
  {
  }

  lemma ActorStaysFine(ttl: real, s: State, step: Step)
    requires Enabled(s, step) && !step.Tick?
    requires BlockFine(ttl, s, s.blocks[step.c])
    ensures BlockFine(ttl, Do(ttl, s, step), Do(ttl, s, step).blocks[step.c])
  {
    if step.ReadFirst? || step.ReadMark? || step.ReadLocked? {
      ReaderStaysFine(ttl, s, step);
    } else if step.EndBody? || step.WriteMark? || step.WriteResponse? {
      ExecutorStaysFine(ttl, s, step);
    } else if step.Interrupt? || step.Release? {
      LeaverStaysFine(ttl, s, step);
    }
  }

  lemma StepKeepsInv(ttl: real, s: State, step: Step)
    requires ttl > 0.0 && Inv(ttl, s) && Enabled(s, step) && SafeStep(s, step)
    ensures Inv(ttl, Do(ttl, s, step))
  {
    var s' := Do(ttl, s, step);
    StepKeepsLocks(ttl, s, step);
    if !step.Tick? {
      Frame(ttl, s, step);
    }
    forall d | d in s'.blocks ensures BlockFine(ttl, s', s'.blocks[d]) {
      assert BlockFine(ttl, s, s.blocks[d]);
      if !step.Tick? {
        if d == step.c {
          ActorStaysFine(ttl, s, step);
        } else {
          OthersStayFine(ttl, s, step, d);
        }
      }
    }
  }

  lemma {:induction false} RunKeepsInv(ttl: real, states: seq<State>, steps: seq<Step>, k: nat)
    requires IsRun(ttl, states, steps) && k < |states| && SafeUpTo(states, steps, k)
    ensures Inv(ttl, states[k])
    decreases k
  {
    if k == 0 {
      InitFits(states[0]);
    } else {
      RunKeepsInv(ttl, states, steps, k - 1);
      StepKeepsInv(ttl, states[k - 1], steps[k - 1]);
    }
  }

  // ---- Fingerprints ----

  /** The response write lands at most `gap` after the fingerprint write. */
  predicate WriteWithin(gap: real, s: State, step: Step) {
    step.WriteResponse? && step.c in s.blocks && s.blocks[step.c].phase.Storing?
    && s.blocks[step.c].phase.markedAt.Some? ==>
      s.now <= s.blocks[step.c].phase.markedAt.value + gap
  }

  /** A fingerprint is read less than `late` after the response read before it lapsed. */
  predicate ReadWithin(late: real, s: State, step: Step) {
    step.ReadMark? && Enabled(s, step) ==> s.now < s.blocks[step.c].phase.found.expiry + late
  }

  /**
   What the surroundings promise: the two delays, and, when `safe`, that no request pushes a busy
   lock out of the registry.
   */
  datatype Rules = Rules(gap: real, late: real, safe: bool)

  predicate Obeys(rules: Rules, s: State, step: Step) {
    WriteWithin(rules.gap, s, step) && ReadWithin(rules.late, s, step) && (rules.safe ==> SafeStep(s, step))
  }

  ghost predicate GoodRun(ttl: real, rules: Rules, states: seq<State>, steps: seq<Step>) {
    IsRun(ttl, states, steps) && forall i :: 0 <= i < |steps| ==> Obeys(rules, states[i], steps[i])
  }

  /** A live response stored with a fingerprint has that fingerprint beside it, for nearly as long. */
  predicate MarkFine(gap: real, s: State, k: Key)
    requires k in s.responses
  {
    var r := s.responses[k];
    r.fp.Some? && s.now < r.expiry ==>
      k in s.marks && s.marks[k].fp == r.fp.value && r.expiry <= s.marks[k].expiry + gap - 1.0
  }

  lemma MarksStayFine(ttl: real, gap: real, s: State, step: Step)
    requires ttl > 0.0 && Inv(ttl, s) && Enabled(s, step) && WriteWithin(gap, s, step)
    requires forall k :: k in s.responses ==> MarkFine(gap, s, k)
    ensures forall k :: k in Do(ttl, s, step).responses ==> MarkFine(gap, Do(ttl, s, step), k)
  {
    var s' := Do(ttl, s, step);
    if !step.Tick? {
      Frame(ttl, s, step);
      assert BlockFine(ttl, s, s.blocks[step.c]);
    }
    forall k | k in s'.responses ensures MarkFine(gap, s', k) {
      if k in s.responses {
        assert MarkFine(gap, s, k);
      }
    }
  }

  /** A step replays at most one response: the one just read, or the one whose fingerprint was. */
  predicate Replays(s: State, step: Step, r: Replay)
    requires Enabled(s, step) && !step.Tick?
  {
    var b := s.blocks[step.c];
    && r.key == b.key && r.fp == b.fp && r.at == s.now
    && (if step.ReadMark? then !Conflicts(s, b) && r.stored == b.phase.found
        else b.fp.None? && LiveAt(s, b.key) && r.stored == s.responses[b.key])
  }

  lemma ReplaysGrow(ttl: real, s: State, step: Step)
    requires Enabled(s, step)
    ensures var s' := Do(ttl, s, step);
            || s'.replays == s.replays
            || (|s'.replays| == |s.replays| + 1 && s'.replays[..|s.replays|] == s.replays
                && !step.Tick? && Replays(s, step, s'.replays[|s.replays|]))
  {
    if !(step.ReadFirst? || step.ReadMark? || step.ReadLocked?) {
      assert Do(ttl, s, step).replays == s.replays;
    }
  }

  /** A response stored with one fingerprint is replayed for another. */
  predicate Foreign(r: Replay) { r.fp.Some? && r.stored.fp.Some? && r.fp != r.stored.fp }

  /** When a replay for a fingerprint can happen, and what a foreign one takes. */
  predicate ReplayFine(rules: Rules, r: Replay) {
    && (r.fp.Some? ==> r.at < r.stored.expiry + rules.late)
    && (Foreign(r) ==> r.stored.expiry <= r.at || r.stored.expiry + 1.0 - rules.gap <= r.at)
  }

  lemma ReplayIsFine(ttl: real, rules: Rules, s: State, step: Step, r: Replay)
    requires Inv(ttl, s) && Enabled(s, step) && !step.Tick? && Replays(s, step, r) && Obeys(rules, s, step)
    requires forall k :: k in s.responses ==> MarkFine(rules.gap, s, k)
    ensures ReplayFine(rules, r)
  {
    var b := s.blocks[step.c];
    assert BlockFine(ttl, s, b);
    if step.ReadMark? && s.now < b.phase.found.expiry {
      assert MarkFine(rules.gap, s, b.key);
    }
  }

  lemma SafeRun(ttl: real, rules: Rules, states: seq<State>, steps: seq<Step>, k: nat)
    requires GoodRun(ttl, rules, states, steps) && rules.safe && k <= |steps|
    ensures SafeUpTo(states, steps, k)
  {
    forall i | 0 <= i < k ensures SafeStep(states[i], steps[i]) {
      assert Obeys(rules, states[i], steps[i]);
    }
  }

  lemma {:induction false} RunKeepsMarks(ttl: real, rules: Rules, states: seq<State>, steps: seq<Step>, k: nat)
    requires GoodRun(ttl, rules, states, steps) && rules.safe && k < |states|
    ensures forall key :: key in states[k].responses ==> MarkFine(rules.gap, states[k], key)
    decreases k
  {
    if k > 0 {
      RunKeepsMarks(ttl, rules, states, steps, k - 1);
      SafeRun(ttl, rules, states, steps, k - 1);
      RunKeepsInv(ttl, states, steps, k - 1);
      assert Obeys(rules, states[k - 1], steps[k - 1]);
      MarksStayFine(ttl, rules.gap, states[k - 1], steps[k - 1]);
    }
  }

  lemma {:induction false} RunReplaysFine(ttl: real, rules: Rules, states: seq<State>, steps: seq<Step>, k: nat, i: nat)
    requires GoodRun(ttl, rules, states, steps) && rules.safe && k < |states| && i < |states[k].replays|
    ensures ReplayFine(rules, states[k].replays[i])
    decreases k
  {
    if k > 0 {
      var s, step := states[k - 1], steps[k - 1];
      ReplaysGrow(ttl, s, step);
      if i < |s.replays| {
        RunReplaysFine(ttl, rules, states, steps, k - 1, i);
        assert states[k].replays[i] == s.replays[i];
      } else {
        SafeRun(ttl, rules, states, steps, k - 1);
        RunKeepsInv(ttl, states, steps, k - 1);
        RunKeepsMarks(ttl, rules, states, steps, k - 1);
        assert Obeys(rules, s, step);
        ReplayIsFine(ttl, rules, s, step, states[k].replays[i]);
      }
    }
  }

  // ---- Dates, in every run whatsoever ----

  predicate DatedBlock(ttl: real, s: State, b: Block) {
    b.phase.FirstMark? || b.phase.LookMark? ==> b.phase.found.expiry <= s.now + ttl
  }

  /** No response, stored or read before, is kept longer than `ttl` from now. */
  ghost predicate Dated(ttl: real, s: State) {
    && (forall k :: k in s.responses ==> s.responses[k].expiry <= s.now + ttl)
    && forall c :: c in s.blocks ==> DatedBlock(ttl, s, s.blocks[c])
  }

  lemma ReadKeepsDates(ttl: real, s: State, step: Step)
    requires Dated(ttl, s) && Enabled(s, step) && (step.ReadFirst? || step.ReadMark? || step.ReadLocked?)
    ensures DatedBlock(ttl, s, DoRead(s, step).blocks[step.c])
  {
  }

  lemma StepKeepsDates(ttl: real, s: State, step: Step)
    requires ttl > 0.0 && Dated(ttl, s) && Enabled(s, step)
    ensures Dated(ttl, Do(ttl, s, step))
  {
    var s' := Do(ttl, s, step);
    if !step.Tick? {
      Frame(ttl, s, step);
      if step.ReadFirst? || step.ReadMark? || step.ReadLocked? {
        ReadKeepsDates(ttl, s, step);
      }
    }
    forall c | c in s'.blocks ensures DatedBlock(ttl, s', s'.blocks[c]) {
      assert DatedBlock(ttl, s, s.blocks[c]);
    }
  }

  lemma {:induction false} RunKeepsDates(ttl: real, states: seq<State>, steps: seq<Step>, k: nat)
    requires IsRun(ttl, states, steps) && k < |states|
    ensures Dated(ttl, states[k])
    decreases k
  {
    if k > 0 {
      RunKeepsDates(ttl, states, steps, k - 1);
      StepKeepsDates(ttl, states[k - 1], steps[k - 1]);
    }
  }

  /** Fingerprints would have to be read before their response was written. */
  predicate NothingReadable(ttl: real, rules: Rules) { ttl + rules.late <= 0.0 }

  lemma {:induction false} NothingRead(ttl: real, rules: Rules, states: seq<State>, steps: seq<Step>, k: nat, i: nat)
    requires GoodRun(ttl, rules, states, steps) && NothingReadable(ttl, rules)
    requires k < |states| && i < |states[k].replays|
    ensures states[k].replays[i].fp.None?
    decreases k
  {
    if k > 0 {
      var s, step := states[k - 1], steps[k - 1];
      ReplaysGrow(ttl, s, step);
      if i < |s.replays| {
        NothingRead(ttl, rules, states, steps, k - 1, i);
        assert states[k].replays[i] == s.replays[i];
      } else {
        RunKeepsDates(ttl, states, steps, k - 1);
        assert Obeys(rules, s, step) && DatedBlock(ttl, s, s.blocks[step.c]);
      }
    }
  }

  // ---- The guarantees ----

  /**
   The in-process lock is released exactly once per acquisition: whenever a step releases it, the
   releasing block holds it, and a block that is over has given back what it took.
   */
  lemma LockReleasedExactlyOnce(ttl: real, states: seq<State>, steps: seq<Step>, k: nat, c: CallId)
    requires IsRun(ttl, states, steps) && k < |states| && c in states[k].blocks
    ensures states[k].blocks[c].released <= states[k].blocks[c].acquired <= 1
    ensures states[k].blocks[c].phase.Done? ==> states[k].blocks[c].released == states[k].blocks[c].acquired
    ensures k < |steps| && !steps[k].Tick? && TouchOf(states[k], steps[k]).Frees? ==>
              var id := TouchOf(states[k], steps[k]).lock;
              id < |states[k].guard.heap| && states[k].guard.heap[id].holder == Some(steps[k].c)
  {
    RunCounts(ttl, states, steps, k, c);
    if k < |steps| && !steps[k].Tick? && TouchOf(states[k], steps[k]).Frees? {
      RunKeepsLocks(ttl, states, steps, k);
      StepTouches(ttl, states[k], steps[k]);
      TouchKeepsLocks(states[k], Do(ttl, states[k], steps[k]), steps[k].c, TouchOf(states[k], steps[k]));
    }
  }

  /** At most one first execution per key is in flight. */
  lemma OneExecution(ttl: real, states: seq<State>, steps: seq<Step>, k: nat, c: CallId, d: CallId)
    requires IsRun(ttl, states, steps) && k < |states| && SafeUpTo(states, steps, k)
    requires c in states[k].blocks && d in states[k].blocks
    requires Executing(states[k].blocks[c].phase) && Executing(states[k].blocks[d].phase)
    requires states[k].blocks[c].key == states[k].blocks[d].key
    ensures c == d
  {
    RunKeepsInv(ttl, states, steps, k);
    OneExecutor(ttl, states[k], c, d);
  }

  /** No execution starts, or goes on, while a stored response for its key is live. */
  lemma NoExecutionWhileLive(ttl: real, states: seq<State>, steps: seq<Step>, k: nat, c: CallId)
    requires IsRun(ttl, states, steps) && k < |states| && SafeUpTo(states, steps, k) && c in states[k].blocks
    requires Executing(states[k].blocks[c].phase)
    ensures !LiveAt(states[k], states[k].blocks[c].key)
  {
    RunKeepsInv(ttl, states, steps, k);
    assert BlockFine(ttl, states[k], states[k].blocks[c]);
  }

  /**
   No moment is left at which a response could go to another fingerprint: requests are safe, no
   fingerprint is read late, and its extra second covers the rest of the gap between the writes.
   */
  predicate Tight(ttl: real, rules: Rules) {
    NothingReadable(ttl, rules) || (rules.safe && rules.late <= 0.0 && rules.gap + rules.late <= 1.0)
  }

  /** A response stored with a fingerprint is never replayed for another one. */
  lemma NoForeignReplay(ttl: real, rules: Rules, states: seq<State>, steps: seq<Step>, k: nat, i: nat)
    requires GoodRun(ttl, rules, states, steps) && Tight(ttl, rules) && k < |states| && i < |states[k].replays|
    ensures !Foreign(states[k].replays[i])
  {
    if NothingReadable(ttl, rules) {
      NothingRead(ttl, rules, states, steps, k, i);
    } else {
      RunReplaysFine(ttl, rules, states, steps, k, i);
    }
  }
}
