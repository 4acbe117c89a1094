/**
 The Redis lock scripts. A lock lives under two keys of one shared keyspace: a value
 `<fence>:<token>` with a time to live, and a fence counter that never expires.
 Times are in milliseconds.
 */
module RedisLock {
  import opened Options
  import opened Decimal
  import opened Sequences
  import opened Leases

  // ---- The packed value ----

  function Pack(fence: nat, token: Token): string {
    Show(fence) + ":" + token
  }

  /** The fence and the token, split at the first colon. */
  function Unpack(s: string): Option<(nat, Token)> {
    var i := IndexOf(s, ':');
    if i < |s| && i > 0 && (forall k :: 0 <= k < i ==> IsDigit(s[k]))
    then Some((Read(s[..i]), s[i + 1..])) else None
  }

  /** Any token survives the packing, also one that itself contains colons. */
  lemma UnpackPack(fence: nat, token: Token)
    ensures Unpack(Pack(fence, token)) == Some((fence, token))
  {
    var s := Pack(fence, token);
    var d := Show(fence);
    var i := IndexOf(s, ':');
    assert s[|d|] == ':';
    assert forall k :: 0 <= k < |d| ==> s[k] == d[k];
    assert i == |d|;
    assert s[..i] == d && s[i + 1..] == token;
    ReadShow(fence);
  }

  // ---- The keyspace ----

  datatype Entry = Entry(value: string, expireAt: Option<real>)
  type Store = map<string, Entry>

  function LockKey(prefix: string, name: Name): string { prefix + name }
  function FenceKey(prefix: string, name: Name): string { prefix + "fence:" + name }

  /** One of the names is that of the other's counter. */
  predicate Clash(n: Name, m: Name) { n == "fence:" + m || m == "fence:" + n }

  /** Keys of different names collide in exactly one way. */
  lemma KeysClash(prefix: string, n: Name, m: Name)
    ensures LockKey(prefix, n) == FenceKey(prefix, m) <==> n == "fence:" + m
    ensures LockKey(prefix, n) == LockKey(prefix, m) <==> n == m
    ensures FenceKey(prefix, n) == FenceKey(prefix, m) <==> n == m
  {
    assert LockKey(prefix, n)[|prefix|..] == n;
    assert LockKey(prefix, m)[|prefix|..] == m;
    assert FenceKey(prefix, m) == prefix + ("fence:" + m);
    assert FenceKey(prefix, m)[|prefix|..] == "fence:" + m;
    assert FenceKey(prefix, n)[|prefix + "fence:"|..] == n;
    assert FenceKey(prefix, m)[|prefix + "fence:"|..] == m;
  }

  predicate Visible(b: Boundary, store: Store, key: string, now: real) {
    key in store && (store[key].expireAt.Some? ==> Live(b, Hold("", store[key].expireAt.value), now))
  }

  /** What Redis takes for a whole number. */
  predicate IsNumber(v: string) { (forall k :: 0 <= k < |v| ==> IsDigit(v[k])) && Show(Read(v)) == v }

  /** `INCR`: a missing key counts from 0, a value that is no number is an error. */
  function Incr(b: Boundary, store: Store, key: string, now: real): Option<(Store, nat)> {
    if !Visible(b, store, key, now) then Some((store[key := Entry(Show(1), None)], 1))
    else if IsNumber(store[key].value) then
      var n := Read(store[key].value) + 1;
      Some((store[key := store[key].(value := Show(n))], n))
    else None
  }

  datatype Reply = Granted(fence: nat) | Refused | ScriptError

  /**
   The acquire-or-extend script. A time to live below one millisecond makes `SET ... PX` fail after
   the counter moved, and makes `PEXPIRE` delete the key; a stored value without a colon is an error.
   */
  function AcquireScript(b: Boundary, store: Store, prefix: string, name: Name,
                         token: Token, ms: nat, now: real): (Store, Reply)
  {
    var lock, counter := LockKey(prefix, name), FenceKey(prefix, name);
    if !Visible(b, store, lock, now) then
      match Incr(b, store, counter, now)
      case None => (store, ScriptError)
      case Some((bumped, fence)) =>
        if ms == 0 then (bumped, ScriptError)
        else (bumped[lock := Entry(Pack(fence, token), Some(now + ms as real))], Granted(fence))
    else
      match Unpack(store[lock].value)
      case None => (store, ScriptError)
      case Some((fence, holder)) =>
        if holder != token then (store, Refused)
        else if ms == 0 then (store - {lock}, Granted(fence))
        else (store[lock := store[lock].(expireAt := Some(now + ms as real))], Granted(fence))
  }

  /** The release script; no answer stands for an error. */
  function ReleaseScript(b: Boundary, store: Store, prefix: string, name: Name, token: Token, now: real): (Store, Option<bool>) {
    var lock := LockKey(prefix, name);
    if !Visible(b, store, lock, now) then (store, Some(false))
    else
      match Unpack(store[lock].value)
      case None => (store, None)
      case Some((_, holder)) => if holder == token then (store - {lock}, Some(true)) else (store, Some(false))
  }

  /** `owned`: the stored value is split with `partition(":")`. */
  predicate Owned(b: Boundary, store: Store, prefix: string, name: Name, token: Token, now: real) {
    var lock := LockKey(prefix, name);
    Visible(b, store, lock, now) && Unpack(store[lock].value).Some? && Unpack(store[lock].value).value.1 == token
  }

  // ---- Refinement ----

  /** The counter stands at `n` for good. */
  predicate CounterIs(store: Store, key: string, n: nat) {
    if key in store then store[key] == Entry(Show(n), None) else n == 0
  }

  /** The store represents lease `l` for `name` from `now` on. */
  ghost predicate Represents(b: Boundary, store: Store, prefix: string, name: Name, l: Lease, now: real) {
    var lock, counter := LockKey(prefix, name), FenceKey(prefix, name);
    && CounterIs(store, counter, l.fence)
    && (Visible(b, store, lock, now) <==> Held(b, l, now))
    && (Visible(b, store, lock, now) ==>
          && Unpack(store[lock].value) == Some((l.fence, l.hold.value.token))
          && store[lock].expireAt == Some(l.hold.value.expireAt))
  }

  lemma CounterAfterIncr(b: Boundary, store: Store, key: string, n: nat, now: real)
    requires CounterIs(store, key, n)
    ensures Incr(b, store, key, now) == Some((store[key := Entry(Show(n + 1), None)], n + 1))
  {
    ReadShow(n);
  }

  lemma OwnKeysDiffer(prefix: string, name: Name)
    ensures LockKey(prefix, name) != FenceKey(prefix, name)
  {
    assert |FenceKey(prefix, name)| == |LockKey(prefix, name)| + 6;
  }

  /** A value written under the lock key is the hold it packs. */
  lemma WrittenRepresents(b: Boundary, store: Store, prefix: string, name: Name, fence: nat, h: Hold, now: real)
    requires Live(b, h, now) && CounterIs(store, FenceKey(prefix, name), fence)
    ensures Represents(b, store[LockKey(prefix, name) := Entry(Pack(fence, h.token), Some(h.expireAt))],
                       prefix, name, Lease(Some(h), fence), now)
  {
    OwnKeysDiffer(prefix, name);
    UnpackPack(fence, h.token);
  }

  lemma FreeAfterIncr(b: Boundary, store: Store, prefix: string, name: Name, l: Lease, now: real)
    requires Represents(b, store, prefix, name, l, now) && !Held(b, l, now)
    ensures var counter := FenceKey(prefix, name);
            var bumped := store[counter := Entry(Show(l.fence + 1), None)];
            && Incr(b, store, counter, now) == Some((bumped, l.fence + 1))
            && Represents(b, bumped, prefix, name, Lease(None, l.fence + 1), now)
  {
    OwnKeysDiffer(prefix, name);
    CounterAfterIncr(b, store, FenceKey(prefix, name), l.fence, now);
  }

  lemma ExtendRepresents(b: Boundary, store: Store, prefix: string, name: Name, l: Lease, until: real, now: real)
    requires Represents(b, store, prefix, name, l, now) && Held(b, l, now)
    requires Live(b, Hold(l.hold.value.token, until), now)
    ensures var lock := LockKey(prefix, name);
            lock in store
            && Represents(b, store[lock := store[lock].(expireAt := Some(until))], prefix, name,
                          l.(hold := Some(Hold(l.hold.value.token, until))), now)
  {
    OwnKeysDiffer(prefix, name);
  }

  lemma RemovedRepresents(b: Boundary, store: Store, prefix: string, name: Name, l: Lease, now: real)
    requires Represents(b, store, prefix, name, l, now)
    ensures Represents(b, store - {LockKey(prefix, name)}, prefix, name, Lease(None, l.fence), now)
  {
    OwnKeysDiffer(prefix, name);
  }

  /**
   Step by step the scripts simulate the abstract lease, at either expiry convention. The single
   departure is a duration below one millisecond: granting a free lock then fails with the fence
   spent, and extending frees the lock at once.
   */
  lemma AcquireRefines(b: Boundary, store: Store, prefix: string, name: Name, l: Lease,
                       token: Token, ms: nat, now: real)
    requires Represents(b, store, prefix, name, l, now)
    ensures var (store', reply) := AcquireScript(b, store, prefix, name, token, ms, now);
            var (l', grant) := Acquire(b, l, token, now + ms as real, now);
            && (reply == ScriptError <==> ms == 0 && !Held(b, l, now))
            && (reply == ScriptError ==> Represents(b, store', prefix, name, Lease(None, l.fence + 1), now))
            && (reply != ScriptError ==> grant == (if reply.Granted? then Some(reply.fence) else None))
            && (reply != ScriptError && ms > 0 ==> Represents(b, store', prefix, name, l', now))
            && (reply.Granted? && ms == 0 ==> Represents(b, store', prefix, name, Lease(None, l.fence), now))
            && (reply == Refused ==> store' == store && l' == l)
  {
    var until := now + ms as real;
    if !Held(b, l, now) {
      var bumped := store[FenceKey(prefix, name) := Entry(Show(l.fence + 1), None)];
      FreeAfterIncr(b, store, prefix, name, l, now);
      if ms > 0 {
        WrittenRepresents(b, bumped, prefix, name, l.fence + 1, Hold(token, until), now);
      }
    } else if l.hold.value.token == token {
      if ms == 0 {
        RemovedRepresents(b, store, prefix, name, l, now);
      } else {
        ExtendRepresents(b, store, prefix, name, l, until, now);
      }
    }
  }

  lemma ReleaseRefines(b: Boundary, store: Store, prefix: string, name: Name, l: Lease, token: Token, now: real)
    requires Represents(b, store, prefix, name, l, now)
    ensures var (store', released) := ReleaseScript(b, store, prefix, name, token, now);
            var (l', released') := Release(b, l, token, now);
            released == Some(released') && Represents(b, store', prefix, name, l', now)
    ensures Owned(b, store, prefix, name, token, now) <==> HeldBy(b, l, token, now)
  {
    RemovedRepresents(b, store, prefix, name, l, now);
  }

  /** Neither script touches the lease of another name, unless one is named after the other's counter. */
  lemma OtherNamesUntouched(b: Boundary, store: Store, prefix: string, name: Name, other: Name, l: Lease,
                            token: Token, ms: nat, now: real)
    requires Represents(b, store, prefix, other, l, now)
    requires name != other && !Clash(name, other)
    ensures Represents(b, AcquireScript(b, store, prefix, name, token, ms, now).0, prefix, other, l, now)
    ensures Represents(b, ReleaseScript(b, store, prefix, name, token, now).0, prefix, other, l, now)
  {
    KeysClash(prefix, name, other);
    KeysClash(prefix, other, name);
  }

  lemma {:induction false} DigitsHaveNoColon(s: string)
    requires forall k :: 0 <= k < |s| ==> IsDigit(s[k])
    ensures IndexOf(s, ':') == |s|
  {
    if s != "" {
      DigitsHaveNoColon(s[1..]);
    }
  }

  /** Once a lock has been granted, the lock named after its counter can be neither acquired nor released. */
  lemma CounterNameIsTaken(b: Boundary, store: Store, prefix: string, name: Name, l: Lease, token: Token, ms: nat, now: real)
    requires Represents(b, store, prefix, name, l, now) && l.fence >= 1
    ensures AcquireScript(b, store, prefix, "fence:" + name, token, ms, now) == (store, ScriptError)
    ensures ReleaseScript(b, store, prefix, "fence:" + name, token, now) == (store, None)
  {
    KeysClash(prefix, "fence:" + name, name);
    DigitsHaveNoColon(Show(l.fence));
  }

  /** While the lock named after its counter is held, a free lock cannot be acquired. */
  lemma CounterIsHeld(b: Boundary, store: Store, prefix: string, name: Name, l: Lease, token: Token, ms: nat, now: real)
    requires Represents(b, store, prefix, "fence:" + name, l, now) && Held(b, l, now)
    requires !Visible(b, store, LockKey(prefix, name), now)
    ensures AcquireScript(b, store, prefix, name, token, ms, now) == (store, ScriptError)
  {
    KeysClash(prefix, "fence:" + name, name);
    var value := store[FenceKey(prefix, name)].value;
    if IsNumber(value) {
      DigitsHaveNoColon(value);
    }
  }

  /** Acquiring `name`, from any keyspace, leaves the lease of `other` alone. */
  ghost predicate Independent(b: Boundary, prefix: string, name: Name, other: Name) {
    forall store, l, token, ms, now :: Represents(b, store, prefix, other, l, now) ==>
      Represents(b, AcquireScript(b, store, prefix, name, token, ms, now).0, prefix, other, l, now)
  }

  /** Two names are independent exactly when neither is named after the other's counter. */
  lemma CounterNameClash(b: Boundary, prefix: string, name: Name, other: Name)
    requires name != other
    ensures Independent(b, prefix, name, other) <==> !Clash(name, other)
  {
    if !Clash(name, other) {
      forall store, l, token, ms, now | Represents(b, store, prefix, other, l, now)
        ensures Represents(b, AcquireScript(b, store, prefix, name, token, ms, now).0, prefix, other, l, now)
      {
        OtherNamesUntouched(b, store, prefix, name, other, l, token, ms, now);
      }
    } else {
      FirstAcquireSpoils(b, prefix, name, other);
    }
  }

  lemma FirstAcquireSpoils(b: Boundary, prefix: string, name: Name, other: Name)
    requires name != other && Clash(name, other)
    ensures Represents(b, map[], prefix, other, FREE, 0.0)
    ensures !Represents(b, AcquireScript(b, map[], prefix, name, "t", 1, 0.0).0, prefix, other, FREE, 0.0)
  {
    KeysClash(prefix, name, other);
    KeysClash(prefix, other, name);
  }

  // ---- Whole runs on one keyspace ----

  function Millis(e: Event): int
    requires e.AcquireEv?
  {
    (e.until - e.now).Floor
  }

  /** What the script makes of an event: durations are cut to whole milliseconds. */
  function Cut(e: Event): Event {
    if e.AcquireEv? then e.(until := e.now + Millis(e) as real) else e
  }

  function CutAll(run: seq<Event>): (r: seq<Event>)
    ensures |r| == |run|
  {
    seq(|run|, i requires 0 <= i < |run| => Cut(run[i]))
  }

  predicate ScriptEvent(e: Event) { e.AcquireEv? ==> Millis(e) >= 1 }

  /** The clock advances, no two names clash, and durations are at least one millisecond. */
  ghost predicate RedisRun(run: seq<Event>) {
    && (forall i, j :: 0 <= i < j < |run| ==> run[i].now <= run[j].now)
    && (forall i, j :: 0 <= i < |run| && 0 <= j < |run| ==> !Clash(run[i].name, run[j].name))
    && forall i :: 0 <= i < |run| ==> ScriptEvent(run[i])
  }

  function Script(b: Boundary, store: Store, prefix: string, e: Event): Store
    requires ScriptEvent(e)
  {
    match e
    case AcquireEv(n, t, _, now) => AcquireScript(b, store, prefix, n, t, Millis(e), now).0
    case ReleaseEv(n, t, now) => ReleaseScript(b, store, prefix, n, t, now).0
  }

  /** The keyspace just before event `k`. */
  ghost function StoreBefore(b: Boundary, prefix: string, run: seq<Event>, k: nat): Store
    requires k <= |run| && RedisRun(run)
  {
    if k == 0 then map[] else Script(b, StoreBefore(b, prefix, run, k - 1), prefix, run[k - 1])
  }

  lemma ScriptRepresents(b: Boundary, store: Store, prefix: string, book: Book, e: Event, n: Name)
    requires ScriptEvent(e) && !Clash(e.name, n) && Represents(b, store, prefix, n, At(book, n), e.now)
    ensures Represents(b, Script(b, store, prefix, e), prefix, n, At(Step(b, book, Cut(e)), n), e.now)
  {
    var l := At(book, n);
    if e.name != n {
      OtherNamesUntouched(b, store, prefix, e.name, n, l, e.token, if e.AcquireEv? then Millis(e) else 0, e.now);
    } else if e.AcquireEv? {
      AcquireRefines(b, store, prefix, n, l, e.token, Millis(e), e.now);
    } else {
      ReleaseRefines(b, store, prefix, n, l, e.token, e.now);
    }
  }

  lemma RepresentsLater(b: Boundary, store: Store, prefix: string, n: Name, l: Lease, now: real, later: real)
    requires Represents(b, store, prefix, n, l, now) && now <= later
    ensures Represents(b, store, prefix, n, l, later)
  {
  }

  lemma {:induction false} StoreRepresentsBook(b: Boundary, prefix: string, run: seq<Event>, k: nat, n: Name)
    requires k < |run| && RedisRun(run) && forall i :: 0 <= i < |run| ==> !Clash(run[i].name, n)
    ensures Represents(b, StoreBefore(b, prefix, run, k), prefix, n, At(Before(b, map[], CutAll(run), k), n), run[k].now)
    decreases k
  {
    if k > 0 {
      StoreRepresentsBook(b, prefix, run, k - 1, n);
      var store, book := StoreBefore(b, prefix, run, k - 1), Before(b, map[], CutAll(run), k - 1);
      ScriptRepresents(b, store, prefix, book, run[k - 1], n);
      RepresentsLater(b, StoreBefore(b, prefix, run, k), prefix, n, At(Before(b, map[], CutAll(run), k), n),
                      run[k - 1].now, run[k].now);
    }
  }

  /**
   In every run on one keyspace in which no two names clash, the scripts answer exactly what the
   abstract lease answers for the same run with its durations cut to whole milliseconds.
   */
  lemma RunRefines(b: Boundary, prefix: string, run: seq<Event>, k: nat)
    requires k < |run| && RedisRun(run)
    ensures run[k].AcquireEv? ==>
              var reply := AcquireScript(b, StoreBefore(b, prefix, run, k), prefix,
                                         run[k].name, run[k].token, Millis(run[k]), run[k].now).1;
              && reply != ScriptError
              && Grant(b, map[], CutAll(run), k) == (if reply.Granted? then Some(reply.fence) else None)
    ensures run[k].ReleaseEv? ==>
              ReleaseScript(b, StoreBefore(b, prefix, run, k), prefix, run[k].name, run[k].token, run[k].now).1
              == Some(Vacates(b, map[], CutAll(run), k))
  {
    var e, store, l := run[k], StoreBefore(b, prefix, run, k), At(Before(b, map[], CutAll(run), k), run[k].name);
    StoreRepresentsBook(b, prefix, run, k, e.name);
    if e.AcquireEv? {
      AcquireRefines(b, store, prefix, e.name, l, e.token, Millis(e), e.now);
    } else {
      ReleaseRefines(b, store, prefix, e.name, l, e.token, e.now);
    }
  }

  /** Names that do not start like a counter never clash; those of the lock primitives start with `lock:` or `tasklock:`. */
  lemma PlainNamesDoNotClash(n: Name, m: Name)
    requires !("fence:" <= n) && !("fence:" <= m)
    ensures !Clash(n, m)
  {
    assert "fence:" <= "fence:" + m && "fence:" <= "fence:" + n;
  }
}
