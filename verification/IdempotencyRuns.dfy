/**
 Runs that show each promise to be needed: where a response goes to another payload, and where two
 first executions of one key are in flight.
 */
module IdempotencyRuns {
  import opened Options
  import opened KeyedLocks
  import opened LockProtocol
  import opened Idempotency

  function Last(states: seq<State>): State
    requires states != []
  {
    states[|states| - 1]
  }

  lemma Append(ttl: real, rules: Rules, states: seq<State>, steps: seq<Step>, step: Step)
    returns (states': seq<State>, steps': seq<Step>)
    requires GoodRun(ttl, rules, states, steps) && Enabled(Last(states), step) && Obeys(rules, Last(states), step)
    ensures GoodRun(ttl, rules, states', steps') && Last(states') == Do(ttl, Last(states), step)
    ensures states <= states' && steps' == steps + [step]
  {
    states', steps' := states + [Do(ttl, Last(states), step)], steps + [step];
    forall i | 0 <= i < |steps'|
      ensures Enabled(states'[i], steps'[i]) && states'[i + 1] == Do(ttl, states'[i], steps'[i])
      ensures Obeys(rules, states'[i], steps'[i])
    {
      if i < |steps| {
        assert states'[i] == states[i] && steps'[i] == steps[i] && states'[i + 1] == states[i + 1];
        assert Obeys(rules, states[i], steps[i]);
      }
    }
  }

  const NO_LOCK := Guard([], map[], [])

  function OneLock(holder: Option<CallId>): Guard { Guard(["k"], map["k" := 0], [Mutex("k", holder, [])]) }

  lemma FirstLock(c: CallId)
    ensures SafeFor(NO_LOCK, "k") && RoleAfterCall(NO_LOCK, "k") == Holds(0) && Call(NO_LOCK, "k", c) == OneLock(Some(c))
  {
  }

  lemma SameLock(c: CallId)
    ensures SafeFor(OneLock(None), "k") && RoleAfterCall(OneLock(None), "k") == Holds(0)
    ensures Call(OneLock(None), "k", c) == OneLock(Some(c))
  {
    assert MoveToEnd(["k"], "k") == ["k"];
  }

  /** Three calls with one key: the first with payload `x`, the others with payload `y`. */
  ghost predicate Scene(s: State, now: real, g: Guard, p0: Phase, p1: Phase, p2: Phase) {
    && s.now == now && s.guard == g && s.blocks.Keys == {0, 1, 2}
    && Cast(s.blocks[0], "k", "x", p0) && Cast(s.blocks[1], "k", "y", p1) && Cast(s.blocks[2], "k", "y", p2)
  }

  predicate Cast(b: Block, key: Key, fp: Fp, p: Phase) { b.key == key && b.fp == Some(fp) && b.phase == p }

  ghost predicate Stores(s: State, responses: map<Key, Stored>, marks: map<Key, Mark>) {
    s.responses == responses && s.marks == marks && s.replays == []
  }

  function ThreeCalls(): State {
    var b := Block("k", Some("y"), First, 0, 0);
    State(0.0, NO_LOCK, map[0 := b.(fp := Some("x")), 1 := b, 2 := b], map[], map[], [])
  }

  /** The first call reaches its body. */
  lemma FirstCallExecutes(ttl: real, rules: Rules) returns (states: seq<State>, steps: seq<Step>)
    requires ttl > 0.0
    ensures GoodRun(ttl, rules, states, steps)
    ensures Scene(Last(states), 0.0, OneLock(Some(0)), Body(0, false, 0.0), First, First)
    ensures Stores(Last(states), map[], map[])
  {
    states, steps := FirstCallAsks(ttl, rules);
    FirstLock(0);
    states, steps := Append(ttl, rules, states, steps, AskLock(0));
    assert Scene(Last(states), 0.0, OneLock(Some(0)), Look(0, false), First, First) && Stores(Last(states), map[], map[]);
    states, steps := Append(ttl, rules, states, steps, ReadLocked(0, false));
  }

  lemma FirstCallAsks(ttl: real, rules: Rules) returns (states: seq<State>, steps: seq<Step>)
    requires ttl > 0.0
    ensures GoodRun(ttl, rules, states, steps)
    ensures Scene(Last(states), 0.0, NO_LOCK, Asking, First, First) && Stores(Last(states), map[], map[])
  {
    states, steps := [ThreeCalls()], [];
    FirstMiss(ttl, ThreeCalls(), 0);
    states, steps := Append(ttl, rules, states, steps, ReadFirst(0));
  }

  function ByFirst(ttl: real, delay: real): map<Key, Stored> { map["k" := Stored(7, Some("x"), delay + ttl)] }

  /** It stores its response `delay` after its fingerprint. */
  lemma FirstCallStores(ttl: real, rules: Rules, delay: real) returns (states: seq<State>, steps: seq<Step>)
    requires ttl > 0.0 && 0.0 <= delay <= rules.gap
    ensures GoodRun(ttl, rules, states, steps)
    ensures Scene(Last(states), delay, OneLock(Some(0)), Releasing(Some(0), false, Executed, false), First, First)
    ensures Stores(Last(states), ByFirst(ttl, delay), map["k" := Mark("x", ttl + 1.0)])
  {
    states, steps := FirstCallExecutes(ttl, rules);
    states, steps := Append(ttl, rules, states, steps, EndBody(0, true, Some(7)));
    states, steps := Append(ttl, rules, states, steps, WriteMark(0));
    var storing := Storing(0, false, 0.0, 7, Some(0.0));
    assert Scene(Last(states), 0.0, OneLock(Some(0)), storing, First, First);
    assert Stores(Last(states), map[], map["k" := Mark("x", ttl + 1.0)]);
    states, steps := Append(ttl, rules, states, steps, Tick(delay));
    states, steps := Append(ttl, rules, states, steps, WriteResponse(0));
  }

  /** When the response can outlive its fingerprint, another payload reads it in between. */
  lemma OutlivedMarkLetsThrough(ttl: real, rules: Rules) returns (states: seq<State>, steps: seq<Step>)
    requires ttl > 0.0 && !NothingReadable(ttl, rules) && rules.late <= 0.0 && rules.gap + rules.late > 1.0
    ensures GoodRun(ttl, rules, states, steps)
    ensures |Last(states).replays| == 1 && Foreign(Last(states).replays[0])
  {
    var between := if rules.gap <= ttl + 1.0 then ttl + 1.0 else rules.gap;
    var found := Stored(7, Some("x"), rules.gap + ttl);
    states, steps := FirstCallStores(ttl, rules, rules.gap);
    states, steps := Append(ttl, rules, states, steps, Tick(between));
    states, steps := Append(ttl, rules, states, steps, ReadFirst(1));
    assert Last(states).blocks[1].phase == FirstMark(found);
    states, steps := Append(ttl, rules, states, steps, ReadMark(1));
  }

  function ReadBySecond(ttl: real): Phase { FirstMark(Stored(7, Some("x"), ttl)) }

  /** The first call is over, the second has read its response, and the response lapses. */
  lemma SecondCallReads(ttl: real, rules: Rules) returns (states: seq<State>, steps: seq<Step>)
    requires ttl > 0.0 && rules.gap >= 0.0
    ensures GoodRun(ttl, rules, states, steps)
    ensures Scene(Last(states), ttl, OneLock(None), Done(Executed), ReadBySecond(ttl), First)
    ensures Stores(Last(states), ByFirst(ttl, 0.0), map["k" := Mark("x", ttl + 1.0)])
  {
    states, steps := FirstCallStores(ttl, rules, 0.0);
    states, steps := Append(ttl, rules, states, steps, Release(0, true));
    assert Scene(Last(states), 0.0, OneLock(None), Done(Executed), First, First);
    states, steps := Append(ttl, rules, states, steps, ReadFirst(1));
    states, steps := Append(ttl, rules, states, steps, Tick(ttl));
  }

  /** The third call executes. */
  lemma ThirdCallExecutes(ttl: real, rules: Rules) returns (states: seq<State>, steps: seq<Step>)
    requires ttl > 0.0 && rules.gap >= 0.0
    ensures GoodRun(ttl, rules, states, steps)
    ensures Scene(Last(states), ttl, OneLock(Some(2)), Done(Executed), ReadBySecond(ttl), Body(0, false, ttl))
    ensures Stores(Last(states), ByFirst(ttl, 0.0), map["k" := Mark("x", ttl + 1.0)])
  {
    states, steps := SecondCallReads(ttl, rules);
    states, steps := Append(ttl, rules, states, steps, ReadFirst(2));
    assert Scene(Last(states), ttl, OneLock(None), Done(Executed), ReadBySecond(ttl), Asking);
    SameLock(2);
    states, steps := Append(ttl, rules, states, steps, AskLock(2));
    assert Scene(Last(states), ttl, OneLock(Some(2)), Done(Executed), ReadBySecond(ttl), Look(0, false));
    states, steps := Append(ttl, rules, states, steps, ReadLocked(2, false));
  }

  /** A fingerprint read at or after the lapse may find the one of a later execution. */
  lemma OverwrittenMarkLetsThrough(ttl: real, rules: Rules) returns (states: seq<State>, steps: seq<Step>)
    requires ttl > 0.0 && rules.gap >= 0.0 && rules.late > 0.0
    ensures GoodRun(ttl, rules, states, steps)
    ensures |Last(states).replays| == 1 && Foreign(Last(states).replays[0])
  {
    states, steps := ThirdCallExecutes(ttl, rules);
    states, steps := Append(ttl, rules, states, steps, EndBody(2, true, Some(8)));
    states, steps := Append(ttl, rules, states, steps, WriteMark(2));
    assert Last(states).marks == map["k" := Mark("y", ttl + ttl + 1.0)];
    assert Cast(Last(states).blocks[1], "k", "y", ReadBySecond(ttl));
    states, steps := Append(ttl, rules, states, steps, ReadMark(1));
  }

  // ---- An unsafe request breaks single execution ----

  lemma AppendAny(ttl: real, states: seq<State>, steps: seq<Step>, step: Step) returns (states': seq<State>, steps': seq<Step>)
    requires IsRun(ttl, states, steps) && Enabled(Last(states), step)
    ensures IsRun(ttl, states', steps') && states <= states' && steps' == steps + [step]
    ensures Last(states') == Do(ttl, Last(states), step)
  {
    states', steps' := states + [Do(ttl, Last(states), step)], steps + [step];
    forall i | 0 <= i < |steps'|
      ensures Enabled(states'[i], steps'[i]) && states'[i + 1] == Do(ttl, states'[i], steps'[i])
    {
      if i < |steps| {
        assert states'[i] == states[i] && steps'[i] == steps[i] && states'[i + 1] == states[i + 1];
      }
    }
  }

  ghost predicate TwoExecutions(s: State) {
    exists a, b :: a in s.blocks && b in s.blocks && a != b && BothExecuting(s.blocks[a], s.blocks[b])
  }

  predicate BothExecuting(a: Block, b: Block) { Executing(a.phase) && Executing(b.phase) && a.key == b.key }

  /** Both hold a lock for one key and are about to look for a stored response. */
  predicate TwoLooking(s: State, a: CallId, b: CallId) {
    Enabled(s, ReadLocked(a, false)) && Enabled(s, ReadLocked(b, false)) && s.blocks[a].key == s.blocks[b].key
  }

  lemma BothExecute(ttl: real, states: seq<State>, steps: seq<Step>, a: CallId, b: CallId)
    returns (states': seq<State>, steps': seq<Step>)
    requires IsRun(ttl, states, steps) && a != b && TwoLooking(Last(states), a, b)
    ensures IsRun(ttl, states', steps') && states <= states' && steps <= steps' && TwoExecutions(Last(states'))
  {
    var s := Last(states);
    var key := s.blocks[a].key;
    var later := if LiveAt(s, key) then s.responses[key].expiry else s.now;
    states', steps' := AppendAny(ttl, states, steps, Tick(later));
    states', steps' := AppendAny(ttl, states', steps', ReadLocked(a, false));
    states', steps' := AppendAny(ttl, states', steps', ReadLocked(b, false));
    assert BothExecuting(Last(states').blocks[a], Last(states').blocks[b]);
  }

  /** A request for a key without a registered lock is let in at once. */
  lemma FreshAsk(ttl: real, s: State, c: CallId)
    requires Enabled(s, AskLock(c)) && s.blocks[c].key !in s.guard.locks
    ensures var s', id := Do(ttl, s, AskLock(c)), |s.guard.heap|;
            && s'.blocks == s.blocks[c := s.blocks[c].(phase := Look(id, false), acquired := s.blocks[c].acquired + 1)]
            && s'.guard.heap == s.guard.heap + [Mutex(s.blocks[c].key, Some(c), [])]
  {
    InsertLocksNothing(s.guard, s.blocks[c].key);
  }

  /** `c` asks unsafely, and `d` asks for the key whose lock is lost. */
  ghost predicate Ready(s: State, c: CallId, d: CallId) {
    && c != d && Enabled(s, AskLock(c)) && Enabled(s, AskLock(d))
    && !SafeFor(s.guard, s.blocks[c].key) && s.blocks[d].key == LostKey(s.guard, s.blocks[c].key)
  }

  lemma BothLetIn(ttl: real, s: State, c: CallId, d: CallId)
    requires LocksFit(s) && Ready(s, c, d)
    ensures var s1 := Do(ttl, s, AskLock(c));
            && Enabled(s1, AskLock(d))
            && var s2 := Do(ttl, s1, AskLock(d));
               && Enabled(s2, ReadLocked(c, false)) && Enabled(s2, ReadLocked(d, false))
               && s2.blocks.Keys == s.blocks.Keys && s.guard.heap <= s2.guard.heap
               && s2.blocks[c].key == s.blocks[c].key && s2.blocks[d].key == s.blocks[d].key
               && forall w :: w in s.blocks && w != c && w != d ==> s2.blocks[w] == s.blocks[w]
  {
    UnsafeCallLoses(s.guard, s.blocks[c].key, c);
    FreshAsk(ttl, s, c);
    FreshAsk(ttl, Do(ttl, s, AskLock(c)), d);
  }

  lemma WaiterOfLost(s: State, key: Key) returns (w: CallId)
    requires LocksFit(s) && !SafeFor(s.guard, key) && FirstUnlocked(s.guard, s.guard.order) < |s.guard.order|
    ensures Enabled(s, WakeUp(w)) && s.blocks[w].key == LostKey(s.guard, key)
  {
    var g := s.guard;
    LostIsHandedOver(g, key);
    var id := g.locks[LostKey(g, key)];
    w := g.heap[id].waiters[0];
    var roles := RolesIn(SeatsOf(s.blocks));
    assert Matches(g.heap[id], id, roles) && w in g.heap[id].waiters;
    assert RoleOf(roles, w) == Waits(id);
    assert w in s.blocks && SeatOf(s.blocks[w]).role == Waits(id);
    assert Fits(g, SeatsOf(s.blocks)[w]);
  }

  /** After both requests, `c` and `d` look side by side. */
  predicate OwnLost(ttl: real, s: State, c: CallId, d: CallId) {
    && Enabled(s, AskLock(c))
    && var s1 := Do(ttl, s, AskLock(c));
       Enabled(s1, AskLock(d)) && TwoLooking(Do(ttl, s1, AskLock(d)), c, d)
  }

  /** After both requests, the woken waiter `w` and `d` look side by side. */
  predicate WaiterLost(ttl: real, s: State, c: CallId, d: CallId, w: CallId) {
    && Enabled(s, AskLock(c))
    && var s1 := Do(ttl, s, AskLock(c));
       && Enabled(s1, AskLock(d))
       && var s2 := Do(ttl, s1, AskLock(d));
          w != d && Enabled(s2, WakeUp(w)) && TwoLooking(Do(ttl, s2, WakeUp(w)), w, d)
  }

  lemma OwnLockLost(ttl: real, s: State, c: CallId, d: CallId)
    requires LocksFit(s) && Ready(s, c, d) && FirstUnlocked(s.guard, s.guard.order) == |s.guard.order|
    ensures OwnLost(ttl, s, c, d)
  {
    BothLetIn(ttl, s, c, d);
  }

  lemma WaiterLockLost(ttl: real, s: State, c: CallId, d: CallId) returns (w: CallId)
    requires LocksFit(s) && Ready(s, c, d) && FirstUnlocked(s.guard, s.guard.order) < |s.guard.order|
    ensures WaiterLost(ttl, s, c, d, w)
  {
    w := WaiterOfLost(s, s.blocks[c].key);
    BothLetIn(ttl, s, c, d);
    WokenLooks(ttl, s, Do(ttl, Do(ttl, s, AskLock(c)), AskLock(d)), w, d);
  }

  lemma WokenLooks(ttl: real, s: State, s2: State, w: CallId, d: CallId)
    requires w != d && Enabled(s, WakeUp(w)) && Enabled(s2, ReadLocked(d, false)) && s.guard.heap <= s2.guard.heap
    requires w in s2.blocks && s2.blocks[w] == s.blocks[w] && s2.blocks[d].key == s.blocks[w].key
    ensures Enabled(s2, WakeUp(w)) && TwoLooking(Do(ttl, s2, WakeUp(w)), w, d)
  {
    assert s2.guard.heap[s.blocks[w].phase.lock] == s.guard.heap[s.blocks[w].phase.lock];
  }

  lemma OwnLockLostRun(ttl: real, states: seq<State>, steps: seq<Step>, c: CallId, d: CallId)
    returns (states': seq<State>, steps': seq<Step>)
    requires IsRun(ttl, states, steps) && OwnLost(ttl, Last(states), c, d) && c != d
    ensures IsRun(ttl, states', steps') && states <= states' && steps + [AskLock(c)] <= steps' && TwoExecutions(Last(states'))
  {
    states', steps' := AppendAny(ttl, states, steps, AskLock(c));
    states', steps' := AppendAny(ttl, states', steps', AskLock(d));
    states', steps' := BothExecute(ttl, states', steps', c, d);
  }

  lemma WaiterLockLostRun(ttl: real, states: seq<State>, steps: seq<Step>, c: CallId, d: CallId, w: CallId)
    returns (states': seq<State>, steps': seq<Step>)
    requires IsRun(ttl, states, steps) && WaiterLost(ttl, Last(states), c, d, w)
    ensures IsRun(ttl, states', steps') && states <= states' && steps + [AskLock(c)] <= steps' && TwoExecutions(Last(states'))
  {
    states', steps' := AppendAny(ttl, states, steps, AskLock(c));
    states', steps' := AppendAny(ttl, states', steps', AskLock(d));
    states', steps' := AppendAny(ttl, states', steps', WakeUp(w));
    states', steps' := BothExecute(ttl, states', steps', w, d);
  }

  /**
   The condition is exact: from any state of any run, one unsafe request and one more for the key
   whose lock it loses lead to two first executions of one key in flight.
   */
  lemma UnsafeRequestBreaksExecution(ttl: real, states: seq<State>, steps: seq<Step>, c: CallId, d: CallId)
    returns (states': seq<State>, steps': seq<Step>)
    requires IsRun(ttl, states, steps) && Ready(Last(states), c, d)
    ensures IsRun(ttl, states', steps') && states <= states' && steps + [AskLock(c)] <= steps' && TwoExecutions(Last(states'))
  {
    var s := Last(states);
    RunKeepsLocks(ttl, states, steps, |states| - 1);
    if FirstUnlocked(s.guard, s.guard.order) == |s.guard.order| {
      OwnLockLost(ttl, s, c, d);
      states', steps' := OwnLockLostRun(ttl, states, steps, c, d);
    } else {
      var w := WaiterLockLost(ttl, s, c, d);
      states', steps' := WaiterLockLostRun(ttl, states, steps, c, d, w);
    }
  }

  // ---- A full registry is reached, and breaks both promises ----

  const C: CallId := BUDGET
  const D: CallId := BUDGET + 1
  const E: CallId := BUDGET + 2

  /** One call for each name, and three more for the next one, with payloads `x`, `y` and `y`. */
  function Fp_(c: CallId): Option<Fp> { if c < C then None else if c == C then Some("x") else Some("y") }

  function Calls(n: nat): (blocks: map<CallId, Block>)
    requires n <= BUDGET + 3
    ensures forall c: CallId :: c in blocks <==> c < n
    ensures forall c :: c in blocks ==> blocks[c] == Block(Name(if c < C then c else C), Fp_(c), First, 0, 0)
  {
    if n == 0 then map[]
    else Calls(n - 1)[n - 1 := Block(Name(if n - 1 < C then n - 1 else C), Fp_(n - 1), First, 0, 0)]
  }

  /** The first look finds nothing. */
  lemma FirstMiss(ttl: real, s: State, c: CallId)
    requires Enabled(s, ReadFirst(c)) && s.blocks[c].key !in s.responses
    ensures Do(ttl, s, ReadFirst(c)) == s.(blocks := s.blocks[c := s.blocks[c].(phase := Asking)])
  {
  }

  /** `n` names are registered and held, by callers that are about to look. */
  ghost predicate Filled(s: State, n: nat) { FilledBut(s, n, First) }

  /** So they are, and the next caller is in phase `p`. */
  ghost predicate FilledBut(s: State, n: nat, p: Phase) {
    && s.now == 0.0 && Stores(s, map[], map[])
    && InOrder(s.guard) && |s.guard.heap| == n && (forall i :: 0 <= i < n ==> s.guard.heap[i] == Mutex(Name(i), Some(i), []))
    && forall c: CallId :: n <= c < BUDGET + 3 ==>
         c in s.blocks && s.blocks[c] == Calls(BUDGET + 3)[c].(phase := if c == n then p else First)
  }

  lemma FillNext(ttl: real, s: State, n: nat)
    requires Filled(s, n) && n < BUDGET
    ensures Enabled(s, ReadFirst(n))
    ensures var s1 := Do(ttl, s, ReadFirst(n));
            Enabled(s1, AskLock(n)) && SafeStep(s1, AskLock(n)) && Filled(Do(ttl, s1, AskLock(n)), n + 1)
  {
    FirstMiss(ttl, s, n);
    AskNext(ttl, Do(ttl, s, ReadFirst(n)), n);
  }

  lemma AskNext(ttl: real, s: State, n: nat)
    requires FilledBut(s, n, Asking) && n < BUDGET
    ensures Enabled(s, AskLock(n)) && SafeStep(s, AskLock(n)) && Filled(Do(ttl, s, AskLock(n)), n + 1)
  {
    NextName(s.guard, n);
  }

  lemma {:induction false} Fill(ttl: real, rules: Rules, n: nat) returns (states: seq<State>, steps: seq<Step>)
    requires ttl > 0.0 && n <= BUDGET
    ensures GoodRun(ttl, rules, states, steps) && SafeUpTo(states, steps, |steps|) && Filled(Last(states), n)
  {
    if n == 0 {
      states, steps := [State(0.0, NO_LOCK, Calls(BUDGET + 3), map[], map[], [])], [];
    } else {
      var before, plan := Fill(ttl, rules, n - 1);
      FillNext(ttl, Last(before), n - 1);
      states, steps := Append(ttl, rules, before, plan, ReadFirst(n - 1));
      states, steps := Append(ttl, rules, states, steps, AskLock(n - 1));
      SafeExtended(before, plan, states, steps);
    }
  }

  /** The last two steps of an extended run are safe, and so were all before. */
  lemma SafeExtended(before: seq<State>, plan: seq<Step>, states: seq<State>, steps: seq<Step>)
    requires |before| == |plan| + 1 && SafeUpTo(before, plan, |plan|) && before <= states && plan <= steps
    requires |steps| == |plan| + 2 && |states| == |steps| + 1
    requires SafeStep(states[|plan|], steps[|plan|]) && SafeStep(states[|plan| + 1], steps[|plan| + 1])
    ensures SafeUpTo(states, steps, |steps|)
  {
    forall i | 0 <= i < |steps| ensures SafeStep(states[i], steps[i]) {
      if i < |plan| {
        assert SafeStep(before[i], plan[i]);
      }
    }
  }

  /** The three calls for the last name, before or after they are let in. */
  ghost predicate Trio(s: State, locks: nat, pc: Phase, pd: Phase, pe: Phase) {
    && s.now == 0.0 && s.replays == [] && locks <= |s.guard.heap|
    && C in s.blocks && Cast(s.blocks[C], Name(C), "x", pc)
    && D in s.blocks && Cast(s.blocks[D], Name(C), "y", pd)
    && E in s.blocks && Cast(s.blocks[E], Name(C), "y", pe)
  }

  /** Every lock of a full registry is held, and the last name is not among them. */
  ghost predicate Full(g: Guard) {
    && |g.heap| == BUDGET && Name(C) !in g.locks && !SafeFor(g, Name(C)) && LostKey(g, Name(C)) == Name(C)
    && FirstUnlocked(g, g.order) == |g.order|
  }

  /** Two of the three calls come before a full registry. */
  ghost predicate Brink(s: State, pc: Phase, pd: Phase) {
    Trio(s, BUDGET, pc, pd, First) && s.responses == map[] && s.marks == map[] && Full(s.guard)
  }

  lemma FilledIsFull(s: State)
    requires Filled(s, BUDGET)
    ensures Brink(s, First, First)
  {
    FirstUnlockedIs(s.guard, s.guard.order, BUDGET);
  }

  lemma FirstMisses(ttl: real, s: State)
    requires Brink(s, First, First)
    ensures Enabled(s, ReadFirst(C)) && Brink(Do(ttl, s, ReadFirst(C)), Asking, First)
  {
    FirstMiss(ttl, s, C);
  }

  lemma SecondMisses(ttl: real, s: State)
    requires Brink(s, Asking, First)
    ensures Enabled(s, ReadFirst(D)) && Brink(Do(ttl, s, ReadFirst(D)), Asking, Asking)
  {
    FirstMiss(ttl, s, D);
  }

  lemma ReachBrink(ttl: real, rules: Rules) returns (states: seq<State>, steps: seq<Step>)
    requires ttl > 0.0
    ensures GoodRun(ttl, rules, states, steps) && SafeUpTo(states, steps, |steps|) && Brink(Last(states), Asking, Asking)
  {
    var before, plan := Fill(ttl, rules, BUDGET);
    FilledIsFull(Last(before));
    FirstMisses(ttl, Last(before));
    states, steps := Append(ttl, rules, before, plan, ReadFirst(C));
    SecondMisses(ttl, Last(states));
    states, steps := Append(ttl, rules, states, steps, ReadFirst(D));
    SafeExtended(before, plan, states, steps);
  }

  /** A run whose first unsafe step is `n`. */
  ghost predicate UnsafeAt(ttl: real, states: seq<State>, steps: seq<Step>, n: nat) {
    IsRun(ttl, states, steps) && n < |steps| && SafeUpTo(states, steps, n) && !SafeStep(states[n], steps[n])
  }

  /** From an empty registry to as many held keys as the budget, and on to two first executions of one key. */
  lemma FullRegistryBreaksExecution(ttl: real) returns (states: seq<State>, steps: seq<Step>, n: nat)
    requires ttl > 0.0
    ensures UnsafeAt(ttl, states, steps, n) && TwoExecutions(Last(states))
  {
    var before, plan := ReachBrink(ttl, Rules(0.0, 0.0, false));
    n := |plan|;
    assert Ready(Last(before), C, D);
    states, steps := UnsafeRequestBreaksExecution(ttl, before, plan, C, D);
    forall i | 0 <= i < n ensures SafeStep(states[i], steps[i]) {
      assert SafeStep(before[i], plan[i]);
    }
    assert states[n] == Last(before) && steps[n] == AskLock(C);
  }

  /** Both calls look for a response, under two locks. */
  ghost predicate BothLook(s: State) {
    && Trio(s, BUDGET + 2, Look(BUDGET, false), Look(BUDGET + 1, false), First)
    && s.responses == map[] && s.marks == map[]
  }

  lemma BothLookAtOnce(ttl: real, s: State)
    requires Brink(s, Asking, Asking) && WellFormed(s.guard)
    ensures Enabled(s, AskLock(C))
    ensures var s1 := Do(ttl, s, AskLock(C)); Enabled(s1, AskLock(D)) && BothLook(Do(ttl, s1, AskLock(D)))
  {
    UnsafeCallLoses(s.guard, Name(C), C);
    FreshAsk(ttl, s, C);
    FreshAsk(ttl, Do(ttl, s, AskLock(C)), D);
  }

  lemma ReachBothLook(ttl: real, rules: Rules) returns (states: seq<State>, steps: seq<Step>)
    requires ttl > 0.0 && !rules.safe
    ensures GoodRun(ttl, rules, states, steps) && BothLook(Last(states))
  {
    states, steps := ReachBrink(ttl, rules);
    assert WellFormed(Last(states).guard) by {
      RunKeepsLocks(ttl, states, steps, |steps|);
    }
    BothLookAtOnce(ttl, Last(states));
    states, steps := Append(ttl, rules, states, steps, AskLock(C));
    states, steps := Append(ttl, rules, states, steps, AskLock(D));
  }

  /** Both calls are let in and execute. */
  lemma BothReachBody(ttl: real, rules: Rules) returns (states: seq<State>, steps: seq<Step>)
    requires ttl > 0.0 && !rules.safe
    ensures GoodRun(ttl, rules, states, steps)
    ensures Trio(Last(states), BUDGET + 2, Body(BUDGET, false, 0.0), Body(BUDGET + 1, false, 0.0), First)
    ensures Last(states).responses == map[] && Last(states).marks == map[]
  {
    states, steps := ReachBothLook(ttl, rules);
    states, steps := Append(ttl, rules, states, steps, ReadLocked(C, false));
    states, steps := Append(ttl, rules, states, steps, ReadLocked(D, false));
  }

  /** Both leave their fingerprint, the second over the first, and are about to store. */
  lemma BothMark(ttl: real, rules: Rules) returns (states: seq<State>, steps: seq<Step>)
    requires ttl > 0.0 && !rules.safe
    ensures GoodRun(ttl, rules, states, steps)
    ensures var s := Last(states);
            && Trio(s, BUDGET + 2, Storing(BUDGET, false, 0.0, 7, Some(0.0)), Storing(BUDGET + 1, false, 0.0, 8, Some(0.0)), First)
            && s.marks == map[Name(C) := Mark("y", ttl + 1.0)]
  {
    states, steps := BothReachBody(ttl, rules);
    states, steps := Append(ttl, rules, states, steps, EndBody(C, true, Some(7)));
    states, steps := Append(ttl, rules, states, steps, EndBody(D, true, Some(8)));
    assert Trio(Last(states), BUDGET + 2, Marking(BUDGET, false, 0.0, 7), Marking(BUDGET + 1, false, 0.0, 8), First);
    states, steps := Append(ttl, rules, states, steps, WriteMark(C));
    states, steps := Append(ttl, rules, states, steps, WriteMark(D));
  }

  /** The first response meets the second fingerprint, at once and with no delay anywhere. */
  lemma UnsafeRequestsLetThrough(ttl: real, rules: Rules) returns (states: seq<State>, steps: seq<Step>)
    requires ttl > 0.0 && rules.gap >= 0.0 && !rules.safe && !NothingReadable(ttl, rules)
    ensures GoodRun(ttl, rules, states, steps)
    ensures |Last(states).replays| == 1 && Foreign(Last(states).replays[0])
  {
    states, steps := BothMark(ttl, rules);
    states, steps := Append(ttl, rules, states, steps, WriteResponse(C));
    states, steps := Append(ttl, rules, states, steps, ReadFirst(E));
    assert Last(states).blocks[E].phase == FirstMark(Stored(7, Some("x"), ttl));
    states, steps := Append(ttl, rules, states, steps, ReadMark(E));
  }

  // ---- Exactly when no response goes to another payload ----

  ghost predicate NoneForeign(s: State) { forall i :: 0 <= i < |s.replays| ==> !Foreign(s.replays[i]) }

  ghost predicate NeverForeign(ttl: real, rules: Rules) {
    forall states, steps :: GoodRun(ttl, rules, states, steps) ==> NoneForeign(Last(states))
  }

  lemma Counterexample(ttl: real, rules: Rules) returns (states: seq<State>, steps: seq<Step>)
    requires ttl > 0.0 && rules.gap >= 0.0 && !Tight(ttl, rules)
    ensures GoodRun(ttl, rules, states, steps) && !NoneForeign(Last(states))
  {
    if !rules.safe {
      states, steps := UnsafeRequestsLetThrough(ttl, rules);
    } else if rules.late > 0.0 {
      states, steps := OverwrittenMarkLetsThrough(ttl, rules);
    } else {
      states, steps := OutlivedMarkLetsThrough(ttl, rules);
    }
  }

  /**
   When the response write lands up to `gap` after the fingerprint write, and fingerprints are read
   less than `late` after the response lapses, no run replays a foreign response exactly when no
   request pushes a busy lock out, no read is late, and the fingerprint, kept one second longer,
   covers the rest of the gap; or when no fingerprint can be read at all.
   */
  lemma ForeignReplayExactly(ttl: real, rules: Rules)
    requires ttl > 0.0 && rules.gap >= 0.0
    ensures NeverForeign(ttl, rules) <==> Tight(ttl, rules)
  {
    if Tight(ttl, rules) {
      forall states, steps | GoodRun(ttl, rules, states, steps) ensures NoneForeign(Last(states)) {
        forall i | 0 <= i < |Last(states).replays| ensures !Foreign(Last(states).replays[i]) {
          NoForeignReplay(ttl, rules, states, steps, |steps|, i);
        }
      }
    } else {
      var states, steps := Counterexample(ttl, rules);
      assert !NoneForeign(Last(states));
    }
  }
}
