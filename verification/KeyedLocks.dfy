/** The per-key lock registry: an ordered dictionary of asyncio locks with idle eviction. */
module KeyedLocks {
  import opened Options
  import opened Sequences

  type Key = string
  type CallId = nat
  type LockId = nat

  const BUDGET: nat := 1024

  /**
   An asyncio lock. A release leaves it unheld until the first waiter runs, so between the two it
   is neither held nor idle.
   */
  datatype Mutex = Mutex(key: Key, holder: Option<CallId>, waiters: seq<CallId>)

  predicate Busy(m: Mutex) { m.holder.Some? || m.waiters != [] }
  predicate HandOff(m: Mutex) { m.holder.None? && m.waiters != [] }

  /** `order` and `locks` are the dictionary, `heap` every lock object ever made. */
  datatype Guard = Guard(order: seq<Key>, locks: map<Key, LockId>, heap: seq<Mutex>)

  predicate Locked(g: Guard, k: Key) {
    k in g.locks && g.locks[k] < |g.heap| && g.heap[g.locks[k]].holder.Some?
  }

  /** Position of the oldest entry that is not locked; the length when every entry is. */
  function FirstUnlocked(g: Guard, order: seq<Key>): (i: nat)
    ensures i <= |order| && (i < |order| ==> !Locked(g, order[i]))
    ensures forall j :: 0 <= j < i ==> Locked(g, order[j])
  {
    if order == [] || !Locked(g, order[0]) then 0 else 1 + FirstUnlocked(g, order[1..])
  }

  function DropAt(g: Guard, i: nat): Guard
    requires i < |g.order|
  {
    g.(order := g.order[..i] + g.order[i + 1..], locks := g.locks - {g.order[i]})
  }

  function Evict(g: Guard): Guard
    decreases |g.order|
  {
    if |g.order| <= BUDGET then g
    else
      var i := FirstUnlocked(g, g.order);
      if i == |g.order| then g else Evict(DropAt(g, i))
  }

  function MoveToEnd(order: seq<Key>, key: Key): seq<Key> {
    var i := IndexOf(order, key);
    if i == |order| then order + [key] else order[..i] + order[i + 1..] + [key]
  }

  /** Using a key makes it the newest and keeps the others in order. */
  lemma MoveToEndIs(order: seq<Key>, key: Key)
    requires Distinct(order)
    ensures MoveToEnd(order, key) == Without(order, key) + [key]
  {
    var i := IndexOf(order, key);
    if i < |order| {
      DropIs(order, i);
    }
  }

  lemma {:induction false} DropIs(order: seq<Key>, i: nat)
    requires Distinct(order) && i < |order|
    ensures Without(order, order[i]) == order[..i] + order[i + 1..]
  {
    if i == 0 {
      assert order[0] !in order[1..];
    } else {
      var rest := order[1..];
      DropIs(rest, i - 1);
      assert order[0] != order[i] && rest[i - 1] == order[i];
      DropLater(order, i);
      assert Without(order, order[i]) == [order[0]] + Without(rest, order[i]);
    }
  }

  lemma DropLater(order: seq<Key>, i: nat)
    requires 0 < i < |order|
    ensures order[..i] + order[i + 1..] == [order[0]] + (order[1..][..i - 1] + order[1..][i..])
  {
  }

  function Insert(g: Guard, key: Key): Guard {
    Guard(g.order + [key], g.locks[key := |g.heap|], g.heap + [Mutex(key, None, [])])
  }

  function LockFor(g: Guard, key: Key): (Guard, LockId) {
    if key in g.locks then (g.(order := MoveToEnd(g.order, key)), g.locks[key])
    else
      var id := |g.heap|;
      (Evict(Insert(g, key)), id)
  }

  class AsyncStampedeGuard {
    var order: seq<Key>
    var locks: map<Key, LockId>
    var heap: seq<Mutex>

    ghost function View(): Guard
      reads this
    {
      Guard(order, locks, heap)
    }

    constructor ()
      ensures View() == Guard([], map[], [])
    {
      order, locks, heap := [], map[], [];
    }

    /** One pass over the entries for the oldest that is not locked. */
    method FindUnlocked() returns (i: nat)
      ensures i == FirstUnlocked(View(), order)
    {
      i := 0;
      while i < |order| && order[i] in locks && locks[order[i]] < |heap| && heap[locks[order[i]]].holder.Some?
        invariant 0 <= i <= |order|
        invariant forall j :: 0 <= j < i ==> Locked(View(), order[j])
      {
        i := i + 1;
      }
      FirstUnlockedIs(View(), order, i);
    }

    /** Drop the oldest unlocked entries while over the budget, scanning anew after each. */
    method EvictIdleLocks()
      modifies this
      ensures View() == Evict(old(View()))
    {
      while |order| > BUDGET
        invariant Evict(View()) == Evict(old(View()))
        decreases |order|
      {
        var i := FindUnlocked();
        if i == |order| {
          return;
        }
        ghost var before := View();
        locks := locks - {order[i]};
        order := order[..i] + order[i + 1..];
        assert View() == DropAt(before, i);
      }
    }

    method GetLock(key: Key) returns (id: LockId)
      modifies this
      ensures (View(), id) == LockFor(old(View()), key)
    {
      if key in locks {
        id := locks[key];
        var i := 0;
        while i < |order| && order[i] != key
          invariant 0 <= i <= |order|
          invariant forall j :: 0 <= j < i ==> order[j] != key
        {
          i := i + 1;
        }
        if i == |order| {
          order := order + [key];
        } else {
          order := order[..i] + order[i + 1..] + [key];
        }
        return;
      }
      id := |heap|;
      heap := heap + [Mutex(key, None, [])];
      locks := locks[key := id];
      order := order + [key];
      EvictIdleLocks();
    }
  }

  lemma FirstUnlockedIs(g: Guard, order: seq<Key>, i: nat)
    requires i <= |order| && (i < |order| ==> !Locked(g, order[i]))
    requires forall j :: 0 <= j < i ==> Locked(g, order[j])
    ensures FirstUnlocked(g, order) == i
  {
  }

  // ---- What the registry keeps ----

  /** `order` and `locks` are one dictionary whose values are lock objects for their keys. */
  ghost predicate Consistent(g: Guard) {
    && Distinct(g.order)
    && (forall k :: k in g.locks <==> k in g.order)
    && (forall k :: k in g.locks ==> g.locks[k] < |g.heap| && g.heap[g.locks[k]].key == k)
  }

  ghost predicate WellFormed(g: Guard) { |g.order| <= BUDGET && Consistent(g) }

  /** Every lock somebody holds or waits on can still be found under its key. */
  predicate BusyRegistered(g: Guard) {
    forall id :: 0 <= id < |g.heap| && Busy(g.heap[id]) ==>
      g.heap[id].key in g.locks && g.locks[g.heap[id].key] == id
  }

  /** The entry a call for `key` would push out is idle, so nobody can be cut off. */
  predicate SafeFor(g: Guard, key: Key) {
    || key in g.locks
    || |g.order| < BUDGET
    || var i := FirstUnlocked(g, g.order); i < |g.order| && !BusyKey(g, g.order[i])
  }

  predicate BusyKey(g: Guard, k: Key) { k in g.locks && g.locks[k] < |g.heap| && Busy(g.heap[g.locks[k]]) }

  /** Eviction after inserting one key into a registry at its budget. */
  lemma EvictOne(g: Guard, key: Key)
    requires WellFormed(g) && key !in g.locks && |g.order| == BUDGET
    ensures var h := Insert(g, key);
            var i := FirstUnlocked(g, g.order);
            && FirstUnlocked(h, h.order) == i
            && Evict(h) == DropAt(h, i)
  {
    var h := Insert(g, key);
    var i := FirstUnlocked(g, g.order);
    assert key !in g.order;
    forall j | 0 <= j < |g.order| ensures Locked(h, h.order[j]) == Locked(g, g.order[j]) {
      assert g.order[j] in g.locks && g.order[j] != key;
    }
    FirstUnlockedIs(h, h.order, i);
    assert Evict(h) == Evict(DropAt(h, i));
  }

  lemma ReuseKeepsWellFormed(g: Guard, key: Key)
    requires WellFormed(g) && key in g.locks
    ensures WellFormed(LockFor(g, key).0)
  {
    var h := LockFor(g, key).0;
    var i := IndexOf(g.order, key);
    assert key in g.order && i < |g.order|;
    forall k ensures k in h.order <==> k in g.order {
      InWithoutAt(g.order, i, k);
    }
  }

  lemma InsertKeepsConsistent(g: Guard, key: Key)
    requires Consistent(g) && key !in g.locks
    ensures Consistent(Insert(g, key))
  {
    assert key !in g.order;
  }

  lemma DropAtKeepsConsistent(g: Guard, i: nat)
    requires Consistent(g) && i < |g.order|
    ensures Consistent(DropAt(g, i))
  {
    forall k ensures k in DropAt(g, i).order <==> k in DropAt(g, i).locks {
      InDropAt(g.order, i, k);
    }
  }

  lemma InsertKeepsWellFormed(g: Guard, key: Key)
    requires WellFormed(g) && key !in g.locks
    ensures WellFormed(LockFor(g, key).0)
    ensures LockFor(g, key).0.heap == g.heap + [Mutex(key, None, [])]
  {
    InsertKeepsConsistent(g, key);
    if |g.order| == BUDGET {
      EvictOne(g, key);
      DropAtKeepsConsistent(Insert(g, key), FirstUnlocked(g, g.order));
    }
  }

  lemma InWithoutAt(order: seq<Key>, i: nat, k: Key)
    requires i < |order|
    ensures k in order[..i] + order[i + 1..] + [order[i]] <==> k in order
  {
    assert order == order[..i] + [order[i]] + order[i + 1..];
  }

  lemma InDropAt(order: seq<Key>, i: nat, k: Key)
    requires i < |order|
    requires Distinct(order)
    ensures k in order[..i] + order[i + 1..] <==> k in order && k != order[i]
  {
    var rest := order[..i] + order[i + 1..];
    if k in rest {
      var j :| 0 <= j < |rest| && rest[j] == k;
      assert k == order[if j < i then j else j + 1];
    }
    if k in order && k != order[i] {
      var j :| 0 <= j < |order| && order[j] == k;
      assert k == rest[if j < i then j else j - 1];
    }
  }

  /** What a call leaves of the locks that were there, and of its own. */
  lemma CallTouchesOne(g: Guard, key: Key, caller: CallId)
    requires WellFormed(g)
    ensures var (h, id) := LockFor(g, key);
            && WellFormed(h) && id < |h.heap|
            && var taken := Take(h, id, caller);
            && |taken.heap| == |h.heap| >= |g.heap| && taken.locks == h.locks
            && taken.heap[id].key == key && Busy(taken.heap[id])
            && (forall i :: 0 <= i < |taken.heap| && i != id ==> i < |g.heap| && taken.heap[i] == g.heap[i])
  {
    if key in g.locks {
      ReuseKeepsWellFormed(g, key);
    } else {
      InsertKeepsWellFormed(g, key);
    }
  }

  lemma RoomForInsert(g: Guard, key: Key)
    requires WellFormed(g) && key !in g.locks && |g.order| < BUDGET
    ensures Evict(Insert(g, key)) == Insert(g, key)
  {
  }

  lemma SafeCall(g: Guard, key: Key, caller: CallId)
    requires WellFormed(g) && BusyRegistered(g) && SafeFor(g, key)
    ensures var (h, id) := LockFor(g, key); id < |h.heap| && BusyRegistered(Take(h, id, caller))
  {
    CallTouchesOne(g, key, caller);
    if key !in g.locks {
      if |g.order| == BUDGET {
        EvictOne(g, key);
      } else {
        RoomForInsert(g, key);
      }
    }
  }

  lemma UnsafeCall(g: Guard, key: Key, caller: CallId)
    requires WellFormed(g) && !SafeFor(g, key)
    ensures var (h, id) := LockFor(g, key); id < |h.heap| && !BusyRegistered(Take(h, id, caller))
  {
    CallTouchesOne(g, key, caller);
    EvictOne(g, key);
    var (h, id) := LockFor(g, key);
    var taken := Take(h, id, caller);
    var i := FirstUnlocked(g, g.order);
    if i < |g.order| {
      var victim := g.order[i];
      assert victim in g.locks && victim !in taken.locks;
      assert taken.heap[g.locks[victim]] == g.heap[g.locks[victim]];
    } else {
      assert key !in taken.locks;
    }
  }

  /**
   The exact condition under which a call leaves every busy lock, its own new one included,
   registered: the call reuses a lock, or finds room, or the oldest unlocked entry is idle.
   */
  lemma CallKeepsBusyRegistered(g: Guard, key: Key, caller: CallId)
    requires WellFormed(g) && BusyRegistered(g)
    ensures var (h, id) := LockFor(g, key);
            && WellFormed(h) && id < |h.heap|
            && (SafeFor(g, key) <==> BusyRegistered(Take(h, id, caller)))
  {
    CallTouchesOne(g, key, caller);
    if SafeFor(g, key) {
      SafeCall(g, key, caller);
    } else {
      UnsafeCall(g, key, caller);
    }
  }

  function Taken(m: Mutex, caller: CallId): Mutex {
    if !Busy(m) then m.(holder := Some(caller)) else m.(waiters := m.waiters + [caller])
  }

  /** The caller takes the lock if it is free, else queues up behind it. */
  function Take(g: Guard, id: LockId, caller: CallId): Guard
    requires id < |g.heap|
  {
    g.(heap := g.heap[id := Taken(g.heap[id], caller)])
  }

  // ---- The bound ----

  function BusyKeys(g: Guard): set<Key> {
    set k | k in g.locks && BusyKey(g, k)
  }

  /** Fewer busy keys than the budget, and no lock being handed over, make every call safe. */
  lemma FewBusyKeysAreSafe(g: Guard, key: Key)
    requires WellFormed(g)
    requires |BusyKeys(g)| < 1024
    requires forall k :: k in g.locks ==> !HandOff(g.heap[g.locks[k]])
    ensures SafeFor(g, key)
  {
    if |g.order| == BUDGET {
      DistinctSize(g.order);
      var all := set k | k in g.order;
      if all <= BusyKeys(g) {
        SubsetSize(all, BusyKeys(g));
        assert false;
      }
      var k :| k in all && k !in BusyKeys(g);
      assert !Locked(g, k);
      var i := FirstUnlocked(g, g.order);
      assert g.order[i] in g.locks;
    }
  }
}

/** Callers moving through the registry's locks: what each is to its lock, and what that keeps. */
module LockProtocol {
  import opened Options
  import opened Sequences
  import opened KeyedLocks

  datatype Role = Away | Waits(lock: LockId) | Holds(lock: LockId)

  type Roles = map<CallId, Role>

  function RoleOf(roles: Roles, c: CallId): Role { if c in roles then roles[c] else Away }

  /** Asking for the lock of `key` and taking it or queueing happens without interruption. */
  function Call(g: Guard, key: Key, c: CallId): Guard {
    var (h, id) := LockFor(g, key);
    if id < |h.heap| then Take(h, id, c) else h
  }

  /** What the caller is to the lock after `Call`. */
  function RoleAfterCall(g: Guard, key: Key): Role {
    var (h, id) := LockFor(g, key);
    if id < |h.heap| && Busy(h.heap[id]) then Waits(id) else Holds(id)
  }

  /** The first waiter of an unheld lock runs. */
  function Wake(g: Guard, id: LockId): Guard
    requires id < |g.heap| && g.heap[id].waiters != []
  {
    g.(heap := g.heap[id := g.heap[id].(holder := Some(g.heap[id].waiters[0]), waiters := g.heap[id].waiters[1..])])
  }

  function CancelWait(g: Guard, id: LockId, c: CallId): Guard
    requires id < |g.heap|
  {
    g.(heap := g.heap[id := g.heap[id].(waiters := Without(g.heap[id].waiters, c))])
  }

  /** asyncio's release: it asks only that somebody holds the lock, not who. */
  function ReleaseLock(g: Guard, id: LockId): Guard
    requires id < |g.heap|
  {
    g.(heap := g.heap[id := g.heap[id].(holder := None)])
  }

  /** The roles name exactly this lock's holder and waiters. */
  ghost predicate Matches(m: Mutex, id: LockId, roles: Roles) {
    && (forall c: CallId :: RoleOf(roles, c) == Holds(id) <==> m.holder == Some(c))
    && (forall c: CallId :: RoleOf(roles, c) == Waits(id) <==> c in m.waiters)
    && Distinct(m.waiters)
  }

  ghost predicate RolesMatch(g: Guard, roles: Roles) {
    && (forall id: LockId :: id < |g.heap| ==> Matches(g.heap[id], id, roles))
    && (forall c :: c in roles && !roles[c].Away? ==> roles[c].lock < |g.heap|)
  }

  /** Changing one caller's role concerns only the locks it leaves and joins. */
  lemma OtherLocksMatch(m: Mutex, id: LockId, roles: Roles, c: CallId, r: Role)
    requires Matches(m, id, roles)
    requires RoleOf(roles, c).Away? || RoleOf(roles, c).lock != id
    requires r.Away? || r.lock != id
    ensures Matches(m, id, roles[c := r])
  {
    forall d: CallId ensures d != c ==> RoleOf(roles[c := r], d) == RoleOf(roles, d) {
    }
  }

  ghost predicate LockInv(g: Guard, roles: Roles) {
    WellFormed(g) && RolesMatch(g, roles)
  }

  /** Two callers holding locks of one key are one caller. */
  lemma OneHolderPerKey(g: Guard, roles: Roles, c: CallId, d: CallId)
    requires LockInv(g, roles) && BusyRegistered(g) && RoleOf(roles, c).Holds? && RoleOf(roles, d).Holds?
    requires g.heap[roles[c].lock].key == g.heap[roles[d].lock].key
    ensures c == d
  {
    assert Matches(g.heap[roles[c].lock], roles[c].lock, roles);
    assert Matches(g.heap[roles[d].lock], roles[d].lock, roles);
    assert Busy(g.heap[roles[c].lock]) && Busy(g.heap[roles[d].lock]);
  }

  /** Replacing one lock object and one role keeps the match everywhere else. */
  lemma UpdateKeepsRolesMatch(g: Guard, roles: Roles, id: LockId, m: Mutex, c: CallId, r: Role)
    requires RolesMatch(g, roles) && id < |g.heap|
    requires RoleOf(roles, c).Away? || RoleOf(roles, c).lock == id
    requires r.Away? || r.lock == id
    requires Matches(m, id, roles[c := r])
    ensures RolesMatch(g.(heap := g.heap[id := m]), roles[c := r])
  {
    forall i: LockId | i < |g.heap| && i != id ensures Matches(g.heap[i], i, roles[c := r]) {
      OtherLocksMatch(g.heap[i], i, roles, c, r);
    }
  }

  /** A fresh lock object nobody knows matches any roles. */
  lemma FreshLockMatches(g: Guard, roles: Roles, key: Key)
    requires RolesMatch(g, roles)
    ensures RolesMatch(g.(heap := g.heap + [Mutex(key, None, [])]), roles)
  {
    var id := |g.heap|;
    forall c: CallId ensures RoleOf(roles, c) != Holds(id) && RoleOf(roles, c) != Waits(id) {
    }
    assert Matches(Mutex(key, None, []), id, roles);
  }

  lemma LockForKeepsRolesMatch(g: Guard, roles: Roles, key: Key)
    requires WellFormed(g) && RolesMatch(g, roles)
    ensures var (h, id) := LockFor(g, key);
            RolesMatch(h, roles) && id < |h.heap| && h.heap[id].key == key && g.heap <= h.heap
  {
    if key !in g.locks {
      InsertKeepsWellFormed(g, key);
      FreshLockMatches(g, roles, key);
    }
  }

  lemma TakeMatches(m: Mutex, id: LockId, roles: Roles, c: CallId)
    requires Matches(m, id, roles) && RoleOf(roles, c).Away?
    ensures Matches(Taken(m, c), id, roles[c := if Busy(m) then Waits(id) else Holds(id)])
  {
    var m', roles' := Taken(m, c), roles[c := if Busy(m) then Waits(id) else Holds(id)];
    forall d: CallId ensures d != c ==> RoleOf(roles', d) == RoleOf(roles, d) {
    }
  }

  lemma CallKeepsLockInv(g: Guard, roles: Roles, key: Key, c: CallId)
    requires LockInv(g, roles) && RoleOf(roles, c).Away?
    ensures LockInv(Call(g, key, c), roles[c := RoleAfterCall(g, key)])
    ensures BusyRegistered(g) ==> (SafeFor(g, key) <==> BusyRegistered(Call(g, key, c)))
    ensures RoleAfterCall(g, key).lock < |Call(g, key, c).heap|
    ensures Call(g, key, c).heap[RoleAfterCall(g, key).lock].key == key
    ensures |g.heap| <= |Call(g, key, c).heap|
    ensures forall id :: 0 <= id < |g.heap| ==> Call(g, key, c).heap[id].key == g.heap[id].key
  {
    CallTouchesOne(g, key, c);
    if BusyRegistered(g) {
      CallKeepsBusyRegistered(g, key, c);
    }
    LockForKeepsRolesMatch(g, roles, key);
    var (h, id) := LockFor(g, key);
    TakeMatches(h.heap[id], id, roles, c);
    UpdateKeepsRolesMatch(h, roles, id, Taken(h.heap[id], c), c, RoleAfterCall(g, key));
  }

  lemma WakeKeepsLockInv(g: Guard, roles: Roles, id: LockId)
    requires LockInv(g, roles) && id < |g.heap| && HandOff(g.heap[id])
    ensures LockInv(Wake(g, id), roles[g.heap[id].waiters[0] := Holds(id)])
    ensures BusyRegistered(g) ==> BusyRegistered(Wake(g, id))
  {
    var m := g.heap[id];
    var c := m.waiters[0];
    var m' := m.(holder := Some(c), waiters := m.waiters[1..]);
    assert Matches(m, id, roles) && c in m.waiters;
    assert Matches(m', id, roles[c := Holds(id)]) by {
      forall d: CallId ensures RoleOf(roles[c := Holds(id)], d) == Waits(id) <==> d in m'.waiters {
        assert d in m.waiters <==> d == c || d in m'.waiters;
      }
    }
    UpdateKeepsRolesMatch(g, roles, id, m', c, Holds(id));
  }

  lemma CancelKeepsLockInv(g: Guard, roles: Roles, id: LockId, c: CallId)
    requires LockInv(g, roles) && id < |g.heap| && RoleOf(roles, c) == Waits(id)
    ensures LockInv(CancelWait(g, id, c), roles[c := Away])
    ensures BusyRegistered(g) ==> BusyRegistered(CancelWait(g, id, c))
  {
    var m := g.heap[id];
    var m' := m.(waiters := Without(m.waiters, c));
    assert Matches(m, id, roles);
    assert Matches(m', id, roles[c := Away]);
    UpdateKeepsRolesMatch(g, roles, id, m', c, Away);
  }

  lemma ReleaseKeepsLockInv(g: Guard, roles: Roles, id: LockId, c: CallId)
    requires LockInv(g, roles) && id < |g.heap| && RoleOf(roles, c) == Holds(id)
    ensures g.heap[id].holder == Some(c)
    ensures LockInv(ReleaseLock(g, id), roles[c := Away])
    ensures BusyRegistered(g) ==> BusyRegistered(ReleaseLock(g, id))
  {
    var m := g.heap[id];
    assert Matches(m, id, roles);
    assert Matches(m.(holder := None), id, roles[c := Away]);
    UpdateKeepsRolesMatch(g, roles, id, m.(holder := None), c, Away);
  }

  // ---- Callers together with the keys they asked for ----

  datatype Seat = Seat(role: Role, key: Key)

  type Seats = map<CallId, Seat>

  function RolesIn(seats: Seats): Roles { map c | c in seats :: seats[c].role }

  predicate Fits(g: Guard, seat: Seat) {
    !seat.role.Away? ==> seat.role.lock < |g.heap| && g.heap[seat.role.lock].key == seat.key
  }

  /** The lock invariant, and everyone sits at a lock of its own key. */
  ghost predicate SeatsFit(g: Guard, seats: Seats) {
    LockInv(g, RolesIn(seats)) && forall c :: c in seats ==> Fits(g, seats[c])
  }

  /** Lock objects never change their key. */
  predicate SameKeys(g: Guard, h: Guard) {
    |g.heap| <= |h.heap| && forall id :: 0 <= id < |g.heap| ==> h.heap[id].key == g.heap[id].key
  }

  lemma SeatsFitAfter(g: Guard, seats: Seats, h: Guard, c: CallId, seat: Seat)
    requires SeatsFit(g, seats) && SameKeys(g, h) && Fits(h, seat)
    requires LockInv(h, RolesIn(seats)[c := seat.role])
    ensures SeatsFit(h, seats[c := seat])
  {
    assert RolesIn(seats[c := seat]) == RolesIn(seats)[c := seat.role];
    forall d | d in seats ensures Fits(h, seats[d]) {
      assert Fits(g, seats[d]);
    }
  }

  lemma SeatCall(g: Guard, seats: Seats, c: CallId, key: Key)
    requires SeatsFit(g, seats) && c in seats && seats[c].role.Away?
    ensures SeatsFit(Call(g, key, c), seats[c := Seat(RoleAfterCall(g, key), key)])
    ensures BusyRegistered(g) ==> (SafeFor(g, key) <==> BusyRegistered(Call(g, key, c)))
  {
    CallKeepsLockInv(g, RolesIn(seats), key, c);
    SeatsFitAfter(g, seats, Call(g, key, c), c, Seat(RoleAfterCall(g, key), key));
  }

  lemma SeatWake(g: Guard, seats: Seats, c: CallId)
    requires SeatsFit(g, seats) && c in seats && seats[c].role.Waits?
    requires Fits(g, seats[c]) && HandOff(g.heap[seats[c].role.lock]) && g.heap[seats[c].role.lock].waiters[0] == c
    ensures SeatsFit(Wake(g, seats[c].role.lock), seats[c := Seat(Holds(seats[c].role.lock), seats[c].key)])
    ensures BusyRegistered(g) ==> BusyRegistered(Wake(g, seats[c].role.lock))
  {
    var id := seats[c].role.lock;
    WakeKeepsLockInv(g, RolesIn(seats), id);
    SeatsFitAfter(g, seats, Wake(g, id), c, Seat(Holds(id), seats[c].key));
  }

  lemma SeatCancel(g: Guard, seats: Seats, c: CallId)
    requires SeatsFit(g, seats) && c in seats && seats[c].role.Waits? && Fits(g, seats[c])
    ensures SeatsFit(CancelWait(g, seats[c].role.lock, c), seats[c := Seat(Away, seats[c].key)])
    ensures BusyRegistered(g) ==> BusyRegistered(CancelWait(g, seats[c].role.lock, c))
  {
    var id := seats[c].role.lock;
    CancelKeepsLockInv(g, RolesIn(seats), id, c);
    SeatsFitAfter(g, seats, CancelWait(g, id, c), c, Seat(Away, seats[c].key));
  }

  lemma SeatRelease(g: Guard, seats: Seats, c: CallId)
    requires SeatsFit(g, seats) && c in seats && seats[c].role.Holds? && Fits(g, seats[c])
    ensures g.heap[seats[c].role.lock].holder == Some(c)
    ensures SeatsFit(ReleaseLock(g, seats[c].role.lock), seats[c := Seat(Away, seats[c].key)])
    ensures BusyRegistered(g) ==> BusyRegistered(ReleaseLock(g, seats[c].role.lock))
  {
    var id := seats[c].role.lock;
    ReleaseKeepsLockInv(g, RolesIn(seats), id, c);
    SeatsFitAfter(g, seats, ReleaseLock(g, id), c, Seat(Away, seats[c].key));
  }

  lemma OneSeatHolds(g: Guard, seats: Seats, c: CallId, d: CallId)
    requires SeatsFit(g, seats) && BusyRegistered(g) && c in seats && d in seats
    requires seats[c].role.Holds? && seats[d].role.Holds? && seats[c].key == seats[d].key
    ensures c == d
  {
    assert Fits(g, seats[c]) && Fits(g, seats[d]);
    OneHolderPerKey(g, RolesIn(seats), c, d);
  }

  // ---- What an unsafe call loses ----

  /** A key without a registered lock gets a fresh, free one. */
  lemma InsertLocksNothing(g: Guard, key: Key)
    requires key !in g.locks
    ensures RoleAfterCall(g, key) == Holds(|g.heap|)
    ensures LockFor(g, key).0.heap == g.heap + [Mutex(key, None, [])]
  {
    EvictKeepsHeap(Insert(g, key));
  }

  lemma {:induction false} EvictKeepsHeap(g: Guard)
    ensures Evict(g).heap == g.heap
    decreases |g.order|
  {
    if |g.order| > BUDGET {
      var i := FirstUnlocked(g, g.order);
      if i < |g.order| {
        EvictKeepsHeap(DropAt(g, i));
      }
    }
  }

  /** The key whose busy lock an unsafe call for `key` pushes out: the oldest unlocked one, or its own. */
  function LostKey(g: Guard, key: Key): Key {
    var i := FirstUnlocked(g, g.order);
    if i < |g.order| then g.order[i] else key
  }

  lemma UnsafeCallLoses(g: Guard, key: Key, c: CallId)
    requires WellFormed(g) && !SafeFor(g, key)
    ensures RoleAfterCall(g, key) == Holds(|g.heap|)
    ensures Call(g, key, c).heap == g.heap + [Mutex(key, Some(c), [])]
    ensures LostKey(g, key) !in Call(g, key, c).locks
  {
    InsertLocksNothing(g, key);
    EvictOne(g, key);
  }

  /** A lost lock that is not the caller's own is between its release and its next holder. */
  lemma LostIsHandedOver(g: Guard, key: Key)
    requires WellFormed(g) && !SafeFor(g, key) && FirstUnlocked(g, g.order) < |g.order|
    ensures var k := LostKey(g, key); k in g.locks && HandOff(g.heap[g.locks[k]])
  {
    assert BusyKey(g, LostKey(g, key));
  }

  // ---- A registry that fills up ----

  /** Names of different lengths. */
  function Name(i: nat): (k: Key)
    ensures |k| == i
  {
    seq(i, _ => 'x')
  }

  /** Lock `i` is registered under name `i`, oldest first, and nothing else is. */
  ghost predicate InOrder(g: Guard) {
    && |g.order| == |g.heap|
    && (forall i :: 0 <= i < |g.heap| ==> g.order[i] == Name(i) && Name(i) in g.locks && g.locks[Name(i)] == i)
    && forall k :: k in g.locks ==> |k| < |g.heap| && k == Name(|k|)
  }

  lemma NextName(g: Guard, c: CallId)
    requires InOrder(g) && |g.heap| < BUDGET
    ensures var n := |g.heap|;
            && SafeFor(g, Name(n)) && RoleAfterCall(g, Name(n)) == Holds(n)
            && Call(g, Name(n), c).heap == g.heap + [Mutex(Name(n), Some(c), [])]
            && InOrder(Call(g, Name(n), c))
  {
    var n := |g.heap|;
    InsertLocksNothing(g, Name(n));
    forall i | 0 <= i < n ensures Name(i) != Name(n) {
      assert |Name(i)| != |Name(n)|;
    }
  }
  /** Whoever waits on a lock has a holder to wait for, or a first waiter, who may be the next to hold it. */
  lemma SomebodyGoesOn(g: Guard, seats: Seats, c: CallId) returns (d: CallId)
    requires SeatsFit(g, seats) && c in seats && seats[c].role.Waits?
    ensures seats[c].role.lock < |g.heap| && d in seats
    ensures var id := seats[c].role.lock;
            || seats[d].role == Holds(id)
            || (seats[d].role == Waits(id) && HandOff(g.heap[id]) && g.heap[id].waiters[0] == d)
  {
    var id := seats[c].role.lock;
    assert RolesIn(seats)[c] == Waits(id);
    assert Matches(g.heap[id], id, RolesIn(seats)) && c in g.heap[id].waiters;
    d := if g.heap[id].holder.Some? then g.heap[id].holder.value else g.heap[id].waiters[0];
    assert RoleOf(RolesIn(seats), d) == if g.heap[id].holder.Some? then Holds(id) else Waits(id);
  }
}
